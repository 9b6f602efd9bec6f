/**
 * The bounded file listing of a workspace (brainrouter-desktop/electron/fsRead.ts): a worklist
 * over directories against the plain recursive descent.
 */
module WorkspaceListing {
  import opened Common

  /** A directory entry; the entries of a directory are in the order the source sorts them. */
  datatype Entry =
    | File(name: string)
    | Directory(name: string, readable: bool, entries: seq<Entry>)
    | SymbolicLink(name: string)
    | Other(name: string)

  const DEFAULT_FILE_LIST_LIMIT := 3000

  const FILE_LIST_IGNORED_DIRS: set<string> := {
    ".git", ".hg", ".svn", ".next", ".turbo", "coverage", "dist", "node_modules", "out"
  }

  function LowerCase(s: string): string {
    seq(|s|, i requires 0 <= i < |s| => if 'A' <= s[i] <= 'Z' then (s[i] as int + 32) as char else s[i])
  }

  predicate IsAsarPathName(name: string) {
    var n := LowerCase(name);
    |n| >= 5 && n[|n| - 5..] == ".asar"
  }

  /** A directory the listing enters. */
  predicate Entered(name: string, depth: nat, maxDepth: nat) {
    depth < maxDepth && LowerCase(name) !in FILE_LIST_IGNORED_DIRS && !IsAsarPathName(name)
  }

  function Sub(rel: string, name: string): string {
    if rel != "" then rel + "/" + name else name
  }

  /** Recursive descent: the files below the entries of the directory `rel`, in order of descent. */
  function Descend(entries: seq<Entry>, rel: string, depth: nat, maxDepth: nat): seq<string>
    decreases entries
  {
    if entries == [] then []
    else Below(entries[0], rel, depth, maxDepth) + Descend(entries[1..], rel, depth, maxDepth)
  }

  function Below(e: Entry, rel: string, depth: nat, maxDepth: nat): seq<string>
    decreases e
  {
    if e.name == ".DS_Store" then []
    else match e
      case File(name) => [Sub(rel, name)]
      case Directory(name, readable, entries) =>
        if readable && Entered(name, depth, maxDepth) then Descend(entries, Sub(rel, name), depth + 1, maxDepth) else []
      case _ => []
  }

  /** Nodes of a forest: what bounds the worklist. */
  function Size(entries: seq<Entry>): nat
    decreases entries
  {
    if entries == [] then 0
    else Weight(entries[0]) + Size(entries[1..])
  }

  function Weight(e: Entry): nat
    decreases e
  {
    match e case Directory(_, _, es) => 1 + Size(es) case _ => 0
  }

  datatype Item = Item(readable: bool, entries: seq<Entry>, rel: string, depth: nat)

  /** What the queued directories still have to contribute. */
  function Pending(queue: seq<Item>, maxDepth: nat): multiset<string> {
    if queue == [] then multiset{} else multiset(Contribution(queue[0], maxDepth)) + Pending(queue[1..], maxDepth)
  }

  function Contribution(item: Item, maxDepth: nat): seq<string> {
    if item.readable then Descend(item.entries, item.rel, item.depth, maxDepth) else []
  }

  function QueueSize(queue: seq<Item>): nat {
    if queue == [] then 0 else 1 + Size(queue[0].entries) + QueueSize(queue[1..])
  }

  /** `Math.max(1, Math.min(most, Math.floor(value)))` */
  function Clamp(value: real, most: nat): (n: nat)
    requires most >= 1
    ensures 1 <= n <= most
  {
    var floor := value.Floor;
    if floor > most then most else if floor < 1 then 1 else floor
  }

  function LimitOf(limit: Option<real>): nat {
    Clamp(if limit.Some? then limit.value else DEFAULT_FILE_LIST_LIMIT as real, 10_000)
  }

  function DepthOf(maxDepth: Option<real>): nat {
    Clamp(if maxDepth.Some? then maxDepth.value else 8.0, 12)
  }

  /** Everything the recursive descent from the root gives. */
  function Everything(readable: bool, entries: seq<Entry>, maxDepth: nat): seq<string> {
    if readable then Descend(entries, "", 0, maxDepth) else []
  }

  function ChildItem(e: Entry, current: Item): Item
    requires e.Directory?
  {
    Item(e.readable, e.entries, Sub(current.rel, e.name), current.depth + 1)
  }

  predicate Kept(e: Entry, current: Item, maxDepth: nat) {
    e.name != ".DS_Store" && (e.File? || (e.Directory? && Entered(e.name, current.depth, maxDepth)))
  }

  // ---------------------------------------------------------------------------------------
  // The order of the listing
  // ---------------------------------------------------------------------------------------

  /** The files directly in a directory, in its order. */
  function FilesIn(entries: seq<Entry>, rel: string): seq<string> {
    if entries == [] then []
    else
      var rest := FilesIn(entries[1..], rel);
      if entries[0].File? && entries[0].name != ".DS_Store" then [Sub(rel, entries[0].name)] + rest else rest
  }

  /** The directories of a directory that are entered, in its order. */
  function DirsIn(entries: seq<Entry>, rel: string, depth: nat, maxDepth: nat): (r: seq<Item>)
    ensures QueueSize(r) <= Size(entries)
  {
    if entries == [] then []
    else
      var e, rest := entries[0], DirsIn(entries[1..], rel, depth, maxDepth);
      if e.Directory? && e.name != ".DS_Store" && Entered(e.name, depth, maxDepth)
        then [Item(e.readable, e.entries, Sub(rel, e.name), depth + 1)] + rest
      else rest
  }

  lemma {:induction false} QueueSizes(a: seq<Item>, b: seq<Item>)
    ensures QueueSize(a + b) == QueueSize(a) + QueueSize(b)
  {
    if a == [] {
      assert a + b == b;
    } else {
      assert (a + b)[1..] == a[1..] + b;
      QueueSizes(a[1..], b);
    }
  }

  function DirsOf(item: Item, maxDepth: nat): (r: seq<Item>)
    ensures QueueSize(r) <= Size(item.entries)
  {
    if item.readable then DirsIn(item.entries, item.rel, item.depth, maxDepth) else []
  }

  /** Breadth first: the files of each queued directory, and then those of the directories found on the way. */
  function BreadthFirst(queue: seq<Item>, maxDepth: nat): seq<string>
    decreases QueueSize(queue)
  {
    if queue == [] then []
    else
      QueueSizes(queue[1..], DirsOf(queue[0], maxDepth));
      (if queue[0].readable then FilesIn(queue[0].entries, queue[0].rel) else [])
        + BreadthFirst(queue[1..] + DirsOf(queue[0], maxDepth), maxDepth)
  }

  /** What is left to list while a directory is being read. */
  function Plan(current: Item, i: nat, queue: seq<Item>, maxDepth: nat): seq<string>
    requires i <= |current.entries|
  {
    FilesIn(current.entries[i..], current.rel)
      + BreadthFirst(queue + DirsIn(current.entries[i..], current.rel, current.depth, maxDepth), maxDepth)
  }

  /** What is left of a directory while it is being read. */
  function SizeLeft(current: Item, i: nat): nat
    requires i <= |current.entries|
  {
    Size(current.entries[i..])
  }

  /** One turn of the inner loop takes its entry out of the plan. */
  lemma PlanStep(current: Item, i: nat, queue: seq<Item>, maxDepth: nat)
    requires i < |current.entries|
    ensures var e := current.entries[i];
      && (!Kept(e, current, maxDepth) ==> Plan(current, i, queue, maxDepth) == Plan(current, i + 1, queue, maxDepth))
      && (Kept(e, current, maxDepth) && e.File? ==>
            Plan(current, i, queue, maxDepth) == [Sub(current.rel, e.name)] + Plan(current, i + 1, queue, maxDepth))
      && (Kept(e, current, maxDepth) && e.Directory? ==>
            && Plan(current, i, queue, maxDepth) == Plan(current, i + 1, queue + [ChildItem(e, current)], maxDepth)
            && QueueSize(queue + [ChildItem(e, current)]) + SizeLeft(current, i + 1) <=
                 QueueSize(queue) + SizeLeft(current, i))
      && SizeLeft(current, i + 1) <= SizeLeft(current, i)
  {
    var es := current.entries;
    assert es[i..][1..] == es[i + 1..] && es[i..][0] == es[i];
    assert SizeLeft(current, i) == Weight(es[i]) + SizeLeft(current, i + 1);
    var rest := DirsIn(es[i + 1..], current.rel, current.depth, maxDepth);
    if Kept(es[i], current, maxDepth) && es[i].Directory? {
      assert queue + ([ChildItem(es[i], current)] + rest) == (queue + [ChildItem(es[i], current)]) + rest;
      QueueSizes(queue, [ChildItem(es[i], current)]);
      assert [ChildItem(es[i], current)][1..] == [];
    }
    hide BreadthFirst, Entered, Sub;
  }

  lemma PlanBegins(queue: seq<Item>, maxDepth: nat)
    requires queue != []
    ensures queue[0].readable ==> BreadthFirst(queue, maxDepth) == Plan(queue[0], 0, queue[1..], maxDepth)
    ensures !queue[0].readable ==> BreadthFirst(queue, maxDepth) == BreadthFirst(queue[1..], maxDepth)
    ensures QueueSize(queue) == 1 + SizeLeft(queue[0], 0) + QueueSize(queue[1..])
  {
    assert queue[0].entries[0..] == queue[0].entries;
    assert queue[1..] + [] == queue[1..];
  }

  lemma PlanEnds(current: Item, i: nat, queue: seq<Item>, maxDepth: nat)
    requires i == |current.entries|
    ensures Plan(current, i, queue, maxDepth) == BreadthFirst(queue, maxDepth)
  {
    assert current.entries[i..] == [] && queue + [] == queue;
  }

  lemma {:induction false} PendingAppend(a: seq<Item>, b: seq<Item>, maxDepth: nat)
    ensures Pending(a + b, maxDepth) == Pending(a, maxDepth) + Pending(b, maxDepth)
  {
    if a == [] {
      assert a + b == b;
    } else {
      assert (a + b)[1..] == a[1..] + b;
      PendingAppend(a[1..], b, maxDepth);
    }
  }

  lemma {:induction false} DescendSplits(entries: seq<Entry>, rel: string, depth: nat, maxDepth: nat)
    ensures multiset(Descend(entries, rel, depth, maxDepth)) ==
      multiset(FilesIn(entries, rel)) + Pending(DirsIn(entries, rel, depth, maxDepth), maxDepth)
    decreases |entries|
  {
    hide Entered, Sub;
    if entries != [] {
      DescendSplits(entries[1..], rel, depth, maxDepth);
      var rest := DirsIn(entries[1..], rel, depth, maxDepth);
      var e := entries[0];
      if e.Directory? && e.name != ".DS_Store" && Entered(e.name, depth, maxDepth) {
        var item := Item(e.readable, e.entries, Sub(rel, e.name), depth + 1);
        assert ([item] + rest)[1..] == rest;
      }
    }
  }

  /** Breadth first lists the same files as the recursive descent. */
  lemma {:induction false} BreadthIsDescent(queue: seq<Item>, maxDepth: nat)
    ensures multiset(BreadthFirst(queue, maxDepth)) == Pending(queue, maxDepth)
    decreases QueueSize(queue)
  {
    if queue != [] {
      var item := queue[0];
      QueueSizes(queue[1..], DirsOf(item, maxDepth));
      BreadthIsDescent(queue[1..] + DirsOf(item, maxDepth), maxDepth);
      PendingAppend(queue[1..], DirsOf(item, maxDepth), maxDepth);
      DescendSplits(item.entries, item.rel, item.depth, maxDepth);
      hide Descend, FilesIn, DirsIn, QueueSize;
    }
  }

  /** What the listing takes is as much of the whole as the limit allows. */
  lemma TakesFirst(files: seq<string>, readable: bool, entries: seq<Entry>, maxDepth: nat)
    requires files <= BreadthFirst([Item(readable, entries, "", 0)], maxDepth)
    ensures var all := Everything(readable, entries, maxDepth);
      && multiset(files) <= multiset(all) && |files| <= |all|
      && (files == BreadthFirst([Item(readable, entries, "", 0)], maxDepth) ==>
            multiset(files) == multiset(all) && |files| == |all|)
  {
    var root := [Item(readable, entries, "", 0)];
    var plan, all := BreadthFirst(root, maxDepth), Everything(readable, entries, maxDepth);
    BreadthIsDescent(root, maxDepth);
    assert root[1..] == [];
    assert multiset(plan) == multiset(all);
    assert |multiset(plan)| == |plan| && |multiset(all)| == |all|;
    assert plan == files + plan[|files|..];
    hide BreadthFirst, Descend;
  }

  /**
   * The worklist. It lists the first `limit` files of the breadth-first order, and reports truncation
   * exactly when the descent finds at least `limit` files, also when there are exactly `limit` of them
   * and nothing is missing.
   */
  method ListWorkspaceFiles(readable: bool, entries: seq<Entry>, limitOption: Option<real>, depthOption: Option<real>)
    returns (files: seq<string>, truncated: bool)
    ensures var all := Everything(readable, entries, DepthOf(depthOption)); var limit := LimitOf(limitOption);
      && multiset(files) <= multiset(all)
      && |files| == (if |all| < limit then |all| else limit)
      && (truncated <==> |all| >= limit)
      && (!truncated ==> multiset(files) == multiset(all))
    ensures files <= BreadthFirst([Item(readable, entries, "", 0)], DepthOf(depthOption))
  {
    var limit, maxDepth := LimitOf(limitOption), DepthOf(depthOption);
    files, truncated := [], false;
    var queue := [Item(readable, entries, "", 0)];
    ghost var plan := BreadthFirst(queue, maxDepth);
    hide BreadthFirst, Plan, FilesIn, DirsIn, DirsOf, Descend, Size, SizeLeft, QueueSize, Entered, Sub, LimitOf;
    hide LowerCase, DepthOf, Everything;
    NothingYet(plan);
    while queue != [] && |files| < limit
      invariant |files| <= limit && (truncated <==> |files| == limit)
      invariant truncated ==> files <= plan
      invariant !truncated ==> files + BreadthFirst(queue, maxDepth) == plan
      decreases QueueSize(queue)
    {
      var current := queue[0];
      PlanBegins(queue, maxDepth);
      queue := queue[1..];
      if !current.readable { continue; }
      var i := 0;
      ghost var bound := QueueSize(queue) + SizeLeft(current, 0);
      while i < |current.entries|
        invariant i <= |current.entries| && !truncated && |files| < limit
        invariant QueueSize(queue) + SizeLeft(current, i) <= bound
        invariant files + Plan(current, i, queue, maxDepth) == plan
      {
        var entry := current.entries[i];
        PlanStep(current, i, queue, maxDepth);
        i := i + 1;
        if entry.name == ".DS_Store" { continue; }
        var rel := Sub(current.rel, entry.name);
        if entry.Directory? {
          if !Entered(entry.name, current.depth, maxDepth) { continue; }
          queue := queue + [Item(entry.readable, entry.entries, rel, current.depth + 1)];
          continue;
        }
        if !entry.File? { continue; }
        Extends(files, rel, Plan(current, i, queue, maxDepth), plan);
        files := files + [rel];
        if |files| >= limit {
          truncated := true;
          break;
        }
      }
      if !truncated { PlanEnds(current, i, queue, maxDepth); }
    }
    if queue != [] { truncated := true; }
    if !truncated { AllListed(files, queue, maxDepth, plan); }
    TakesFirst(files, readable, entries, maxDepth);
  }

  lemma AllListed(files: seq<string>, queue: seq<Item>, maxDepth: nat, plan: seq<string>)
    requires queue == [] && files + BreadthFirst(queue, maxDepth) == plan
    ensures files == plan
  {}

  lemma NothingYet(plan: seq<string>)
    ensures [] <= plan && [] + plan == plan
  {}

  lemma Extends(files: seq<string>, file: string, rest: seq<string>, plan: seq<string>)
    requires files + ([file] + rest) == plan
    ensures (files + [file]) + rest == plan && files + [file] <= plan
  {
    assert (files + [file]) + rest == files + ([file] + rest);
  }

  // ---------------------------------------------------------------------------------------
  // What the descent lists
  // ---------------------------------------------------------------------------------------

  /** Names as a file system gives them: non-empty, without a separator, and unique in their directory. */
  ghost predicate Named(entries: seq<Entry>)
    decreases entries
  {
    && (forall i, j :: 0 <= i < j < |entries| ==> entries[i].name != entries[j].name)
    && (forall i :: 0 <= i < |entries| ==> NamedEntry(entries[i]))
  }

  ghost predicate NamedEntry(e: Entry)
    decreases e
  {
    e.name != "" && '/' !in e.name && (e.Directory? ==> Named(e.entries))
  }

  /** The component of `p` that comes after the directory `rel`. */
  function Component(p: string, rel: string): string {
    var from := if rel == "" then 0 else |rel| + 1;
    if from <= |p| then p[from..][..IndexOf(p[from..], '/')] else ""
  }

  /** Everything below an entry begins with the entry's own path. */
  ghost predicate Beneath(p: string, base: string) {
    base <= p && (|p| == |base| || p[|base|] == '/')
  }

  lemma {:induction false} DescendBeneath(entries: seq<Entry>, rel: string, depth: nat, maxDepth: nat, p: string)
      returns (k: nat)
    requires Named(entries) && p in Descend(entries, rel, depth, maxDepth)
    ensures k < |entries| && p in Below(entries[k], rel, depth, maxDepth) && Beneath(p, Sub(rel, entries[k].name))
    decreases entries, 1
  {
    if p in Below(entries[0], rel, depth, maxDepth) {
      k := 0;
      BelowBeneath(entries[0], rel, depth, maxDepth, p);
    } else {
      assert Named(entries[1..]) by { NamedTail(entries); }
      k := DescendBeneath(entries[1..], rel, depth, maxDepth, p);
      k := k + 1;
    }
  }

  lemma NamedTail(entries: seq<Entry>)
    requires Named(entries) && entries != []
    ensures Named(entries[1..]) && NamedEntry(entries[0])
  {}

  lemma {:induction false} BelowBeneath(e: Entry, rel: string, depth: nat, maxDepth: nat, p: string)
    requires NamedEntry(e) && p in Below(e, rel, depth, maxDepth)
    ensures Beneath(p, Sub(rel, e.name))
    decreases e, 0
  {
    if e.Directory? {
      var base := Sub(rel, e.name);
      var k := DescendBeneath(e.entries, base, depth + 1, maxDepth, p);
      assert Sub(base, e.entries[k].name) == base + "/" + e.entries[k].name;
      assert p[|base|] == '/';
    }
  }

  lemma BeneathComponent(p: string, rel: string, name: string)
    requires name != "" && '/' !in name && Beneath(p, Sub(rel, name))
    ensures Component(p, rel) == name
  {
    var base := Sub(rel, name);
    var from := if rel == "" then 0 else |rel| + 1;
    var rest := p[|base|..];
    assert p == base + rest;
    assert p[from..] == name + rest;
    IndexOfAt(name, rest, '/');
    assert (name + rest)[..|name|] == name;
  }

  /** The descent lists no path twice. */
  lemma {:induction false} DescendOnce(entries: seq<Entry>, rel: string, depth: nat, maxDepth: nat, p: string)
    requires Named(entries)
    ensures multiset(Descend(entries, rel, depth, maxDepth))[p] <= 1
    decreases entries, 1
  {
    if entries != [] {
      var first, rest := Below(entries[0], rel, depth, maxDepth), Descend(entries[1..], rel, depth, maxDepth);
      NamedTail(entries);
      DescendOnce(entries[1..], rel, depth, maxDepth, p);
      BelowOnce(entries[0], rel, depth, maxDepth, p);
      if p in first {
        BelowBeneath(entries[0], rel, depth, maxDepth, p);
        BeneathComponent(p, rel, entries[0].name);
        NotAmong(entries, rel, depth, maxDepth, p);
      }
      assert multiset(first + rest) == multiset(first) + multiset(rest);
    }
  }

  lemma NamesEntry(entries: seq<Entry>, rel: string, depth: nat, maxDepth: nat, p: string) returns (k: nat)
    requires Named(entries) && p in Descend(entries, rel, depth, maxDepth)
    ensures k < |entries| && Component(p, rel) == entries[k].name
  {
    k := DescendBeneath(entries, rel, depth, maxDepth, p);
    assert NamedEntry(entries[k]);
    BeneathComponent(p, rel, entries[k].name);
  }

  lemma NotAmong(entries: seq<Entry>, rel: string, depth: nat, maxDepth: nat, p: string)
    requires Named(entries) && entries != [] && Component(p, rel) == entries[0].name
    ensures p !in Descend(entries[1..], rel, depth, maxDepth)
  {
    NamedTail(entries);
    if p in Descend(entries[1..], rel, depth, maxDepth) {
      var k := NamesEntry(entries[1..], rel, depth, maxDepth, p);
    }
  }

  lemma {:induction false} BelowOnce(e: Entry, rel: string, depth: nat, maxDepth: nat, p: string)
    requires NamedEntry(e)
    ensures multiset(Below(e, rel, depth, maxDepth))[p] <= 1
    decreases e, 0
  {
    if e.Directory? {
      DescendOnce(e.entries, Sub(rel, e.name), depth + 1, maxDepth, p);
    }
  }

  /** So neither does the listing, however early it stops. */
  lemma ListsNoPathTwice(files: seq<string>, readable: bool, entries: seq<Entry>, maxDepth: nat, p: string)
    requires Named(entries) && multiset(files) <= multiset(Everything(readable, entries, maxDepth))
    ensures multiset(files)[p] <= 1
  {
    DescendOnce(entries, "", 0, maxDepth, p);
  }

  // ---------------------------------------------------------------------------------------
  // Which files are listed
  // ---------------------------------------------------------------------------------------

  /** A chain of names through directories the listing enters, ending at a plain file. */
  ghost predicate Chain(entries: seq<Entry>, names: seq<string>, depth: nat, maxDepth: nat)
    decreases names
  {
    && names != []
    && exists e <- entries ::
         && e.name == names[0] && e.name != ".DS_Store"
         && if |names| == 1 then e.File?
            else
              && e.Directory? && e.readable && Entered(e.name, depth, maxDepth)
              && Chain(e.entries, names[1..], depth + 1, maxDepth)
  }

  function PathOf(rel: string, names: seq<string>): string
    requires names != []
    decreases names
  {
    if |names| == 1 then Sub(rel, names[0]) else PathOf(Sub(rel, names[0]), names[1..])
  }

  lemma {:induction false} ListedHasChain(entries: seq<Entry>, rel: string, depth: nat, maxDepth: nat, p: string)
      returns (names: seq<string>)
    requires p in Descend(entries, rel, depth, maxDepth)
    ensures Chain(entries, names, depth, maxDepth) && PathOf(rel, names) == p
    decreases entries
  {
    var e := entries[0];
    if p in Below(e, rel, depth, maxDepth) {
      if e.File? {
        names := [e.name];
      } else {
        var more := ListedHasChain(e.entries, Sub(rel, e.name), depth + 1, maxDepth, p);
        names := [e.name] + more;
        assert names[1..] == more;
      }
      assert e in entries;
    } else {
      names := ListedHasChain(entries[1..], rel, depth, maxDepth, p);
      assert forall f <- entries[1..] :: f in entries;
    }
  }

  lemma {:induction false} ChainIsListed(entries: seq<Entry>, rel: string, depth: nat, maxDepth: nat,
      names: seq<string>)
    requires Chain(entries, names, depth, maxDepth)
    ensures PathOf(rel, names) in Descend(entries, rel, depth, maxDepth)
    decreases names, |entries|
  {
    var e := entries[0];
    if e.name == names[0] && e.name != ".DS_Store" && |names| == 1 && e.File? {
    } else if |names| > 1 && e.name == names[0] && e.name != ".DS_Store" && e.Directory? && e.readable
      && Entered(e.name, depth, maxDepth)
      && Chain(e.entries, names[1..], depth + 1, maxDepth)
    {
      ChainIsListed(e.entries, Sub(rel, e.name), depth + 1, maxDepth, names[1..]);
    } else {
      assert Chain(entries[1..], names, depth, maxDepth);
      ChainIsListed(entries[1..], rel, depth, maxDepth, names);
    }
  }

  /**
   * A file is listed exactly when such a chain leads to it; so never through a symbolic link, an ignored or a
   * too deep directory.
   */
  lemma ListedIffChain(entries: seq<Entry>, maxDepth: nat, p: string)
    ensures p in Descend(entries, "", 0, maxDepth) <==>
      exists names :: Chain(entries, names, 0, maxDepth) && PathOf("", names) == p
  {
    if p in Descend(entries, "", 0, maxDepth) {
      var names := ListedHasChain(entries, "", 0, maxDepth, p);
    }
    if names :| Chain(entries, names, 0, maxDepth) && PathOf("", names) == p {
      ChainIsListed(entries, "", 0, maxDepth, names);
    }
  }

  // ---------------------------------------------------------------------------------------
  // Breadth first
  // ---------------------------------------------------------------------------------------

  /** The number of separators in a path: how deep the file lies. */
  function Slashes(p: string): nat {
    if p == "" then 0 else (if p[0] == '/' then 1 else 0) + Slashes(p[1..])
  }

  lemma {:induction false} SlashesAppend(a: string, b: string)
    ensures Slashes(a + b) == Slashes(a) + Slashes(b)
  {
    if a == [] {
      assert a + b == b;
    } else {
      assert (a + b)[1..] == a[1..] + b;
      SlashesAppend(a[1..], b);
    }
  }

  lemma {:induction false} NoSlashes(name: string)
    requires '/' !in name
    ensures Slashes(name) == 0
  {
    if name != "" { NoSlashes(name[1..]); }
  }

  /** How deep the files directly in a queued directory lie. */
  function Level(rel: string): nat {
    if rel == "" then 0 else Slashes(rel) + 1
  }

  lemma SubLevel(rel: string, name: string)
    requires name != "" && '/' !in name
    ensures Slashes(Sub(rel, name)) == Level(rel) && Level(Sub(rel, name)) == Level(rel) + 1
  {
    NoSlashes(name);
    SlashesAppend(rel + "/", name);
    SlashesAppend(rel, "/");
    assert rel + "/" + name == (rel + "/") + name;
    assert Slashes("/") == 1 + Slashes("/"[1..]);
  }

  ghost predicate FilesAt(paths: seq<string>, level: nat) {
    forall i :: 0 <= i < |paths| ==> Slashes(paths[i]) == level
  }

  ghost predicate DirsAt(items: seq<Item>, level: nat) {
    forall i :: 0 <= i < |items| ==> Level(items[i].rel) == level && Named(items[i].entries)
  }

  lemma {:induction false} ContentsLevel(entries: seq<Entry>, rel: string, depth: nat, maxDepth: nat)
    requires Named(entries)
    ensures FilesAt(FilesIn(entries, rel), Level(rel)) && DirsAt(DirsIn(entries, rel, depth, maxDepth), Level(rel) + 1)
    decreases |entries|
  {
    if entries != [] {
      assert NamedEntry(entries[0]);
      NamedTail(entries);
      ContentsLevel(entries[1..], rel, depth, maxDepth);
      SubLevel(rel, entries[0].name);
      hide Sub, Level, Slashes, Entered;
    }
  }

  /** Queued directories: first those of one level, then those of the next. */
  ghost predicate TwoLevels(now: seq<Item>, next: seq<Item>, level: nat) {
    DirsAt(now, level) && DirsAt(next, level + 1)
  }

  ghost predicate ShallowFirst(paths: seq<string>, level: nat) {
    && (forall i :: 0 <= i < |paths| ==> Slashes(paths[i]) >= level)
    && (forall i, j :: 0 <= i < j < |paths| ==> Slashes(paths[i]) <= Slashes(paths[j]))
  }

  /** Every file is listed before all files that lie deeper. */
  lemma {:induction false} BreadthIsShallowFirst(now: seq<Item>, next: seq<Item>, level: nat, maxDepth: nat)
    requires TwoLevels(now, next, level)
    ensures ShallowFirst(BreadthFirst(now + next, maxDepth), level)
    decreases QueueSize(now + next), |next|
  {
    hide Slashes, Level, Named, FilesIn, DirsIn, Entered;
    if now == [] {
      assert now + next == next;
      if next != [] {
        assert next + [] == next;
        BreadthIsShallowFirst(next, [], level + 1, maxDepth);
      }
    } else {
      var item, dirs := now[0], DirsOf(now[0], maxDepth);
      assert (now + next)[0] == item && (now + next)[1..] == now[1..] + next;
      QueueSizes(now[1..] + next, dirs);
      assert (now[1..] + next) + dirs == now[1..] + (next + dirs);
      ContentsLevel(item.entries, item.rel, item.depth, maxDepth);
      BreadthIsShallowFirst(now[1..], next + dirs, level, maxDepth);
    }
  }

  /** The listing shows every file before all those that lie deeper. */
  lemma ListsShallowFirst(readable: bool, entries: seq<Entry>, maxDepth: nat)
    requires Named(entries)
    ensures ShallowFirst(BreadthFirst([Item(readable, entries, "", 0)], maxDepth), 0)
    ensures multiset(BreadthFirst([Item(readable, entries, "", 0)], maxDepth)) ==
      multiset(Everything(readable, entries, maxDepth))
  {
    var root := [Item(readable, entries, "", 0)];
    assert root + [] == root && root[1..] == [];
    BreadthIsShallowFirst(root, [], 0, maxDepth);
    BreadthIsDescent(root, maxDepth);
    hide BreadthFirst, Descend;
  }
}
