/**
 * Reconciling locally cached chat sessions with the server's thread list
 * (brainrouter-dashboard/lib/chatThreads.ts). Time stamps are milliseconds; a thread whose stamp
 * cannot be read has none.
 */
module ThreadMerge {
  import opened Common

  datatype Scope = Scope(orgId: string, detail: string)

  datatype Message = Message(role: string, content: string)

  /** An empty model stands for an absent one. */
  datatype Session = Session(id: string, title: string, category: string, scope: Scope, messages: seq<Message>,
    model: string, updatedAt: int)

  datatype Thread = Thread(id: string, title: string, model: string, updatedAt: Option<int>)

  function Or(a: string, b: string): string {
    if a != "" then a else b
  }

  /** `laterIso` against a readable local stamp. */
  function Later(local: int, remote: Option<int>): int {
    if remote.None? || local >= remote.value then local else remote.value
  }

  function IdsOf(threads: seq<Thread>): set<string> {
    set i | 0 <= i < |threads| :: threads[i].id
  }

  /** The map built from the local list: the last session of an id. */
  function Find(local: seq<Session>, id: string): Option<Session> {
    if local == [] then None
    else if local[|local| - 1].id == id then Some(local[|local| - 1])
    else Find(local[..|local| - 1], id)
  }

  /** A thread as a session: the cached one with the server's title, model and newer stamp, or a skeleton. */
  function Adopt(t: Thread, cached: Option<Session>, scope: Scope, now: int): Session {
    match cached
    case Some(s) => s.(title := Or(t.title, s.title), model := Or(t.model, s.model),
      updatedAt := Later(s.updatedAt, t.updatedAt))
    case None =>
      Session(t.id, Or(t.title, "Untitled task"), "General", scope, [], t.model,
        if t.updatedAt.Some? then t.updatedAt.value else now)
  }

  function Adopted(local: seq<Session>, remote: seq<Thread>, scope: Scope, now: int): (r: seq<Session>)
    ensures |r| == |remote|
  {
    seq(|remote|, i requires 0 <= i < |remote| => Adopt(remote[i], Find(local, remote[i].id), scope, now))
  }

  function When(condition: bool, s: Session): seq<Session> {
    if condition then [s] else []
  }

  /** The sessions whose id is not among `ids`, in order. */
  function Without(sessions: seq<Session>, ids: set<string>): seq<Session> {
    if sessions == [] then []
    else Without(sessions[..|sessions| - 1], ids) + When(sessions[|sessions| - 1].id !in ids, sessions[|sessions| - 1])
  }

  /** The sessions with the stamp `k`, in order. */
  function Stamped(sessions: seq<Session>, k: int): seq<Session> {
    if sessions == [] then []
    else
      var last := sessions[|sessions| - 1];
      Stamped(sessions[..|sessions| - 1], k) + When(last.updatedAt == k, last)
  }

  predicate NewestFirst(sessions: seq<Session>) {
    forall i, j :: 0 <= i < j < |sessions| ==> sessions[i].updatedAt >= sessions[j].updatedAt
  }

  function Insert(sorted: seq<Session>, s: Session): seq<Session> {
    if sorted == [] || sorted[|sorted| - 1].updatedAt >= s.updatedAt then sorted + [s]
    else Insert(sorted[..|sorted| - 1], s) + [sorted[|sorted| - 1]]
  }

  /** `sort`, which is stable: newest first, equal stamps in the order they had. */
  function Sort(sessions: seq<Session>): seq<Session> {
    if sessions == [] then [] else Insert(Sort(sessions[..|sessions| - 1]), sessions[|sessions| - 1])
  }

  function Merge(local: seq<Session>, remote: seq<Thread>, scope: Scope, now: int): seq<Session> {
    Sort(Adopted(local, remote, scope, now) + Without(local, IdsOf(remote)))
  }

  /** What has to be pushed to the server: local-only sessions of the current organization with messages. */
  function Unsynced(local: seq<Session>, remote: seq<Thread>, scope: Scope): seq<Session> {
    if local == [] then []
    else
      var s := local[|local| - 1];
      Unsynced(local[..|local| - 1], remote, scope)
        + When(s.id !in IdsOf(remote) && s.scope.orgId == scope.orgId && s.messages != [], s)
  }

  // ---------------------------------------------------------------------------------------
  // The sort
  // ---------------------------------------------------------------------------------------

  lemma {:induction false} InsertMembers(sorted: seq<Session>, s: Session)
    ensures multiset(Insert(sorted, s)) == multiset(sorted) + multiset{s}
  {
    if sorted != [] && sorted[|sorted| - 1].updatedAt < s.updatedAt {
      var n := |sorted| - 1;
      InsertMembers(sorted[..n], s);
      assert sorted == sorted[..n] + [sorted[n]];
    }
  }

  lemma InsertBounded(sorted: seq<Session>, s: Session, least: int)
    requires s.updatedAt >= least && forall x <- sorted :: x.updatedAt >= least
    ensures forall x <- Insert(sorted, s) :: x.updatedAt >= least
  {
    InsertMembers(sorted, s);
    forall x | x in Insert(sorted, s) ensures x.updatedAt >= least {
      assert x in multiset(Insert(sorted, s));
      assert x in multiset(sorted) + multiset{s};
    }
  }

  lemma SnocNewest(a: seq<Session>, last: Session)
    requires NewestFirst(a) && forall x <- a :: x.updatedAt >= last.updatedAt
    ensures NewestFirst(a + [last])
  {
    var b := a + [last];
    forall i, j | 0 <= i < j < |b| ensures b[i].updatedAt >= b[j].updatedAt {
      assert b[i] == a[i] && a[i] in a;
    }
  }

  lemma {:induction false} InsertSorts(sorted: seq<Session>, s: Session)
    requires NewestFirst(sorted)
    ensures NewestFirst(Insert(sorted, s)) && multiset(Insert(sorted, s)) == multiset(sorted) + multiset{s}
  {
    InsertMembers(sorted, s);
    if sorted != [] && sorted[|sorted| - 1].updatedAt < s.updatedAt {
      var n := |sorted| - 1;
      InsertSorts(sorted[..n], s);
      InsertBounded(sorted[..n], s, sorted[n].updatedAt);
      SnocNewest(Insert(sorted[..n], s), sorted[n]);
    }
  }

  lemma {:induction false} SortSorts(sessions: seq<Session>)
    ensures NewestFirst(Sort(sessions)) && multiset(Sort(sessions)) == multiset(sessions)
  {
    if sessions != [] {
      var n := |sessions| - 1;
      SortSorts(sessions[..n]);
      InsertSorts(Sort(sessions[..n]), sessions[n]);
      assert sessions == sessions[..n] + [sessions[n]];
    }
  }

  lemma {:induction false} StampedAppend(a: seq<Session>, b: seq<Session>, k: int)
    ensures Stamped(a + b, k) == Stamped(a, k) + Stamped(b, k)
  {
    if b == [] {
      assert a + b == a;
    } else {
      var n := |b| - 1;
      assert (a + b)[..|a + b| - 1] == a + b[..n];
      StampedAppend(a, b[..n], k);
    }
  }

  lemma {:induction false} InsertStable(sorted: seq<Session>, s: Session, k: int)
    requires NewestFirst(sorted)
    ensures Stamped(Insert(sorted, s), k) == Stamped(sorted, k) + (if s.updatedAt == k then [s] else [])
  {
    if sorted != [] && sorted[|sorted| - 1].updatedAt < s.updatedAt {
      var n := |sorted| - 1;
      InsertStable(sorted[..n], s, k);
      var r := Insert(sorted, s);
      assert r[..|r| - 1] == Insert(sorted[..n], s);
    } else {
      assert (sorted + [s])[..|sorted|] == sorted;
    }
  }

  /** The sort keeps sessions of equal stamp in order. */
  lemma {:induction false} SortStable(sessions: seq<Session>, k: int)
    ensures Stamped(Sort(sessions), k) == Stamped(sessions, k)
  {
    if sessions != [] {
      var n := |sessions| - 1;
      SortStable(sessions[..n], k);
      SortSorts(sessions[..n]);
      InsertStable(Sort(sessions[..n]), sessions[n], k);
    }
  }

  lemma {:induction false} StampedIn(sessions: seq<Session>, k: int, x: Session)
    ensures x in Stamped(sessions, k) <==> x in sessions && x.updatedAt == k
  {
    if sessions != [] {
      StampedIn(sessions[..|sessions| - 1], k, x);
      assert sessions == sessions[..|sessions| - 1] + [sessions[|sessions| - 1]];
    }
  }

  /** A list sorted newest first is determined by its sub-lists of equal stamp. */
  lemma {:induction false} SortedByStamps(a: seq<Session>, b: seq<Session>)
    requires NewestFirst(a) && NewestFirst(b) && SameStamps(a, b)
    ensures a == b
  {
    hide Stamped, SameStamps, NewestFirst;
    if a == [] {
      EmptyStamps(b);
    } else {
      LastStamps(a, b);
      var n, m := |a| - 1, |b| - 1;
      var k := a[n].updatedAt;
      forall j ensures Stamped(a[..n], j) == Stamped(b[..m], j) {
        SameAt(a, b, j);
        StampedLast(a, j);
        StampedLast(b, j);
        if j == k {
          SameEnd(Stamped(a[..n], k), a[n], Stamped(b[..m], k), b[m]);
        }
      }
      SameAt(a, b, k);
      StampedLast(a, k);
      StampedLast(b, k);
      SameEnd(Stamped(a[..n], k), a[n], Stamped(b[..m], k), b[m]);
      Together(a[..n], b[..m]);
      NewestInit(a);
      NewestInit(b);
      SortedByStamps(a[..n], b[..m]);
      assert a == a[..n] + [a[n]] && b == b[..m] + [b[m]];
    }
  }

  ghost predicate SameStamps(a: seq<Session>, b: seq<Session>) {
    forall k :: Stamped(a, k) == Stamped(b, k)
  }

  lemma Together(a: seq<Session>, b: seq<Session>)
    requires forall k :: Stamped(a, k) == Stamped(b, k)
    ensures SameStamps(a, b)
  {}

  lemma SameAt(a: seq<Session>, b: seq<Session>, k: int)
    requires SameStamps(a, b)
    ensures Stamped(a, k) == Stamped(b, k)
  {}

  lemma NewestInit(a: seq<Session>)
    requires NewestFirst(a) && a != []
    ensures NewestFirst(a[..|a| - 1])
  {}

  lemma StampedLast(a: seq<Session>, k: int)
    requires a != []
    ensures Stamped(a, k) ==
      if a[|a| - 1].updatedAt == k then Stamped(a[..|a| - 1], k) + [a[|a| - 1]] else Stamped(a[..|a| - 1], k)
  {}

  lemma EmptyStamps(b: seq<Session>)
    requires SameStamps([], b)
    ensures b == []
  {
    if b != [] {
      SameAt([], b, b[|b| - 1].updatedAt);
    }
  }

  /** Both lists end in the same, oldest stamp. */
  lemma LastStamps(a: seq<Session>, b: seq<Session>)
    requires NewestFirst(a) && NewestFirst(b) && a != [] && SameStamps(a, b)
    ensures b != [] && a[|a| - 1].updatedAt == b[|b| - 1].updatedAt
  {
    hide Stamped, SameStamps;
    var x := a[|a| - 1];
    SameAt(a, b, x.updatedAt);
    StampedIn(a, x.updatedAt, x);
    StampedIn(b, x.updatedAt, x);
    var y := b[|b| - 1];
    SameAt(a, b, y.updatedAt);
    StampedIn(b, y.updatedAt, y);
    StampedIn(a, y.updatedAt, y);
  }

  lemma SameEnd(a: seq<Session>, x: Session, b: seq<Session>, y: Session)
    requires a + [x] == b + [y]
    ensures a == b && x == y
  {
    assert |a + [x]| == |b + [y]|;
    assert (a + [x])[..|a|] == a && (b + [y])[..|b|] == b;
    assert (a + [x])[|a|] == x && (b + [y])[|b|] == y;
  }


  // ---------------------------------------------------------------------------------------
  // Identities
  // ---------------------------------------------------------------------------------------

  predicate UniqueIds(sessions: seq<Session>) {
    forall i, j :: 0 <= i < j < |sessions| ==> sessions[i].id != sessions[j].id
  }

  predicate UniqueThreads(threads: seq<Thread>) {
    forall i, j :: 0 <= i < j < |threads| ==> threads[i].id != threads[j].id
  }

  lemma {:induction false} WithoutIn(sessions: seq<Session>, ids: set<string>, x: Session)
    ensures x in Without(sessions, ids) <==> x in sessions && x.id !in ids
  {
    if sessions != [] {
      WithoutIn(sessions[..|sessions| - 1], ids, x);
      assert sessions == sessions[..|sessions| - 1] + [sessions[|sessions| - 1]];
    }
  }

  lemma {:induction false} WithoutUnique(sessions: seq<Session>, ids: set<string>)
    requires UniqueIds(sessions)
    ensures UniqueIds(Without(sessions, ids))
  {
    if sessions != [] {
      var before, last := sessions[..|sessions| - 1], sessions[|sessions| - 1];
      WithoutUnique(before, ids);
      forall i | 0 <= i < |Without(before, ids)| ensures Without(before, ids)[i].id != last.id {
        WithoutIn(before, ids, Without(before, ids)[i]);
      }
    }
  }

  lemma {:induction false} OnceEach(sessions: seq<Session>, x: Session)
    requires UniqueIds(sessions)
    ensures multiset(sessions)[x] <= 1
  {
    if sessions != [] {
      var before, last := sessions[..|sessions| - 1], sessions[|sessions| - 1];
      OnceEach(before, x);
      assert sessions == before + [last];
      if x == last { assert x !in before; }
    }
  }

  lemma TwoCopies(sessions: seq<Session>, i: nat, j: nat)
    requires i < j < |sessions| && sessions[i] == sessions[j]
    ensures multiset(sessions)[sessions[i]] >= 2
  {
    assert sessions == sessions[..j] + sessions[j..];
    assert sessions[i] in multiset(sessions[..j]) by { assert sessions[..j][i] == sessions[i]; }
    assert sessions[j] in multiset(sessions[j..]) by { assert sessions[j..][0] == sessions[j]; }
  }

  lemma PermutedUnique(a: seq<Session>, b: seq<Session>)
    requires multiset(a) == multiset(b) && UniqueIds(a)
    ensures UniqueIds(b)
  {
    forall i, j | 0 <= i < j < |b| ensures b[i].id != b[j].id {
      assert b[i] in multiset(a) && b[j] in multiset(a);
      OnceEach(a, b[i]);
      if b[i] == b[j] { TwoCopies(b, i, j); }
    }
  }

  /** The list before it is sorted has every id once. */
  lemma UnsortedUnique(local: seq<Session>, remote: seq<Thread>, scope: Scope, now: int)
    requires UniqueIds(local) && UniqueThreads(remote)
    ensures UniqueIds(Adopted(local, remote, scope, now) + Without(local, IdsOf(remote)))
  {
    var a, l := Adopted(local, remote, scope, now), Without(local, IdsOf(remote));
    AdoptedIds(local, remote, scope, now);
    WithoutUnique(local, IdsOf(remote));
    forall i | 0 <= i < |l| ensures l[i].id !in IdsOf(remote) { WithoutIn(local, IdsOf(remote), l[i]); }
  }

  lemma {:induction false} FoundHasId(local: seq<Session>, id: string)
    ensures Find(local, id).Some? ==> Find(local, id).value in local && Find(local, id).value.id == id
    ensures Find(local, id).None? ==> forall i :: 0 <= i < |local| ==> local[i].id != id
  {
    if local != [] {
      FoundHasId(local[..|local| - 1], id);
      assert local == local[..|local| - 1] + [local[|local| - 1]];
    }
  }

  lemma AdoptedIds(local: seq<Session>, remote: seq<Thread>, scope: Scope, now: int)
    ensures forall i :: 0 <= i < |remote| ==> Adopted(local, remote, scope, now)[i].id == remote[i].id
  {
    forall i | 0 <= i < |remote| ensures Adopted(local, remote, scope, now)[i].id == remote[i].id {
      FoundHasId(local, remote[i].id);
    }
  }

  /** With unique ids: the result has exactly the ids of both lists, each once, newest first. */
  lemma MergeHasEachIdOnce(local: seq<Session>, remote: seq<Thread>, scope: Scope, now: int, id: string)
    requires UniqueIds(local) && UniqueThreads(remote)
    ensures var r := Merge(local, remote, scope, now);
      && UniqueIds(r) && NewestFirst(r)
      && ((exists x <- r :: x.id == id) <==> (exists x <- local :: x.id == id) || (exists t <- remote :: t.id == id))
  {
    var a, l := Adopted(local, remote, scope, now), Without(local, IdsOf(remote));
    UnsortedUnique(local, remote, scope, now);
    SortSorts(a + l);
    PermutedUnique(a + l, Sort(a + l));
    AdoptedIds(local, remote, scope, now);
    SameMembers(local, remote, scope, now);
    forall x | x in local && x.id !in IdsOf(remote) ensures x in l { WithoutIn(local, IdsOf(remote), x); }
    forall x | x in l ensures x in local { WithoutIn(local, IdsOf(remote), x); }
    if x :| x in local && x.id == id && x.id !in IdsOf(remote) { assert x in Merge(local, remote, scope, now); }
    if i :| 0 <= i < |remote| && remote[i].id == id { assert a[i] in Merge(local, remote, scope, now); }
  }

  lemma SameMembers(local: seq<Session>, remote: seq<Thread>, scope: Scope, now: int)
    ensures forall x :: x in Merge(local, remote, scope, now) <==>
      x in Adopted(local, remote, scope, now) || x in Without(local, IdsOf(remote))
  {
    var p := Adopted(local, remote, scope, now) + Without(local, IdsOf(remote));
    SortSorts(p);
    forall x ensures x in Sort(p) <==> x in p {
      assert x in Sort(p) <==> x in multiset(Sort(p));
      assert x in p <==> x in multiset(p);
    }
  }

  lemma {:induction false} FindUnique(sessions: seq<Session>, x: Session)
    requires UniqueIds(sessions) && x in sessions
    ensures Find(sessions, x.id) == Some(x)
  {
    var last := sessions[|sessions| - 1];
    assert sessions == sessions[..|sessions| - 1] + [last];
    if last.id != x.id { FindUnique(sessions[..|sessions| - 1], x); }
  }

  /**
   * A cached session keeps its messages, scope and category, and takes the newer stamp; a local-only one is
   * untouched.
   */
  lemma MergeKeepsCached(local: seq<Session>, remote: seq<Thread>, scope: Scope, now: int, x: Session)
    requires UniqueIds(local) && x in local
    ensures if x.id !in IdsOf(remote) then x in Merge(local, remote, scope, now)
      else exists y <- Merge(local, remote, scope, now), t <- remote ::
        && y.id == x.id == t.id && y.messages == x.messages && y.scope == x.scope && y.category == x.category
        && y.updatedAt >= x.updatedAt && (t.updatedAt.Some? ==> y.updatedAt >= t.updatedAt.value)
        && (y.updatedAt == x.updatedAt || t.updatedAt == Some(y.updatedAt))
        && y.title == Or(t.title, x.title) && y.model == Or(t.model, x.model)
  {
    SameMembers(local, remote, scope, now);
    WithoutIn(local, IdsOf(remote), x);
    if x.id in IdsOf(remote) {
      var i :| 0 <= i < |remote| && remote[i].id == x.id;
      FindUnique(local, x);
      var y := Adopted(local, remote, scope, now)[i];
      assert y in Merge(local, remote, scope, now) && remote[i] in remote;
    }
  }

  /** What a server thread becomes: its cached session with the server's title, model and newer stamp, or a skeleton. */
  ghost predicate Becomes(local: seq<Session>, t: Thread, scope: Scope, now: int, y: Session) {
    || (exists x <- local ::
          && x.id == t.id == y.id
          && y.messages == x.messages && y.scope == x.scope && y.category == x.category
          && y.title == (if t.title == "" then x.title else t.title)
          && y.model == (if t.model == "" then x.model else t.model)
          && y.updatedAt == (if t.updatedAt.Some?
              && t.updatedAt.value > x.updatedAt then t.updatedAt.value else x.updatedAt))
    || (&& (forall x <- local :: x.id != t.id)
        && y.id == t.id && y.messages == [] && y.scope == scope && y.category == "General" && y.model == t.model
        && y.title == (if t.title == "" then "Untitled task" else t.title)
        && y.updatedAt == (if t.updatedAt.Some? then t.updatedAt.value else now))
  }

  lemma {:induction false} FindNone(sessions: seq<Session>, id: string)
    requires forall x <- sessions :: x.id != id
    ensures Find(sessions, id) == None
  {
    if sessions != [] {
      assert sessions[|sessions| - 1] in sessions;
      FindNone(sessions[..|sessions| - 1], id);
    }
  }

  lemma AdoptBecomes(local: seq<Session>, t: Thread, scope: Scope, now: int, y: Session)
    requires UniqueIds(local)
    ensures y == Adopt(t, Find(local, t.id), scope, now) <==> Becomes(local, t, scope, now, y)
  {
    if x :| x in local && x.id == t.id {
      FindUnique(local, x);
      forall z <- local | z.id == t.id ensures z == x { FindUnique(local, z); }
    } else {
      FindNone(local, t.id);
    }
  }

  /** The merged list holds the local-only sessions and what each server thread becomes, and nothing else. */
  lemma MergeExactly(local: seq<Session>, remote: seq<Thread>, scope: Scope, now: int, y: Session)
    requires UniqueIds(local)
    ensures y in Merge(local, remote, scope, now) <==>
      || (y in local && y.id !in IdsOf(remote))
      || exists t <- remote :: Becomes(local, t, scope, now, y)
  {
    hide Merge, Becomes, Without, IdsOf;
    SameMembers(local, remote, scope, now);
    WithoutIn(local, IdsOf(remote), y);
    var a := Adopted(local, remote, scope, now);
    if y in a {
      var i :| 0 <= i < |a| && a[i] == y;
      AdoptBecomes(local, remote[i], scope, now, y);
      assert remote[i] in remote;
    }
    if t :| t in remote && Becomes(local, t, scope, now, y) {
      var i :| 0 <= i < |remote| && remote[i] == t;
      AdoptBecomes(local, t, scope, now, y);
      assert a[i] == y;
    }
  }

  /** `unsynced` holds exactly the local-only sessions of the current organization that have messages. */
  lemma {:induction false} UnsyncedExactly(local: seq<Session>, remote: seq<Thread>, scope: Scope, x: Session)
    ensures x in Unsynced(local, remote, scope) <==>
      x in local && x.id !in IdsOf(remote) && x.scope.orgId == scope.orgId && x.messages != []
  {
    if local != [] {
      UnsyncedExactly(local[..|local| - 1], remote, scope, x);
      assert local == local[..|local| - 1] + [local[|local| - 1]];
    }
  }

  // ---------------------------------------------------------------------------------------
  // Merging again
  // ---------------------------------------------------------------------------------------

  lemma AdoptAgain(t: Thread, cached: Option<Session>, scope: Scope, now: int, scope': Scope, now': int)
    ensures Adopt(t, Some(Adopt(t, cached, scope, now)), scope', now') == Adopt(t, cached, scope, now)
  {}

  lemma {:induction false} WithoutAppend(a: seq<Session>, b: seq<Session>, ids: set<string>)
    ensures Without(a + b, ids) == Without(a, ids) + Without(b, ids)
  {
    if b == [] {
      assert a + b == a;
    } else {
      assert (a + b)[..|a + b| - 1] == a + b[..|b| - 1];
      WithoutAppend(a, b[..|b| - 1], ids);
    }
  }

  lemma {:induction false} WithoutNone(a: seq<Session>, ids: set<string>)
    requires forall i :: 0 <= i < |a| ==> a[i].id in ids
    ensures Without(a, ids) == []
  {
    if a != [] { WithoutNone(a[..|a| - 1], ids); }
  }

  lemma {:induction false} WithoutAll(a: seq<Session>, ids: set<string>)
    requires forall i :: 0 <= i < |a| ==> a[i].id !in ids
    ensures Without(a, ids) == a
  {
    if a != [] {
      WithoutAll(a[..|a| - 1], ids);
      assert a == a[..|a| - 1] + [a[|a| - 1]];
    }
  }

  /** Filtering by id and by stamp commute. */
  lemma {:induction false} StampedWithout(a: seq<Session>, ids: set<string>, k: int)
    ensures Stamped(Without(a, ids), k) == Without(Stamped(a, k), ids)
  {
    if a != [] {
      var before, last := a[..|a| - 1], a[|a| - 1];
      StampedWithout(before, ids, k);
      StampedAppend(Without(before, ids), When(last.id !in ids, last), k);
      WithoutAppend(Stamped(before, k), When(last.updatedAt == k, last), ids);
      assert [last][..0] == [];
    }
  }

  /** The local-only part of a merged list, stamp by stamp, is the local-only part of the local list. */
  lemma LocalPart(a: seq<Session>, l: seq<Session>, ids: set<string>, k: int)
    requires forall i :: 0 <= i < |a| ==> a[i].id in ids
    requires forall i :: 0 <= i < |l| ==> l[i].id !in ids
    ensures Stamped(Without(Sort(a + l), ids), k) == Stamped(l, k)
  {
    hide Sort, Stamped, Without;
    StampedWithout(Sort(a + l), ids, k);
    SortStable(a + l, k);
    StampedWithout(a + l, ids, k);
    WithoutAppend(a, l, ids);
    WithoutNone(a, ids);
    WithoutAll(l, ids);
    assert [] + l == l;
  }

  /** Merging again with the same thread list changes nothing, whatever the time and the scope are by then. */
  lemma MergeIsIdempotent(local: seq<Session>, remote: seq<Thread>, scope: Scope, now: int, scope': Scope, now': int)
    requires UniqueIds(local) && UniqueThreads(remote)
    ensures Merge(Merge(local, remote, scope, now), remote, scope', now') == Merge(local, remote, scope, now)
  {
    var ids := IdsOf(remote);
    var a, l := Adopted(local, remote, scope, now), Without(local, ids);
    var r := Merge(local, remote, scope, now);
    AdoptedSame(local, remote, scope, now, scope', now');
    var l' := Without(r, ids);
    AdoptedIds(local, remote, scope, now);
    forall i | 0 <= i < |l| ensures l[i].id !in ids { WithoutIn(local, ids, l[i]); }
    hide Sort, Stamped, Without, Adopted;
    forall k ensures Stamped(Sort(a + l'), k) == Stamped(Sort(a + l), k) {
      SortStable(a + l', k);
      SortStable(a + l, k);
      StampedAppend(a, l', k);
      StampedAppend(a, l, k);
      LocalPart(a, l, ids, k);
    }
    Together(Sort(a + l'), Sort(a + l));
    SortSorts(a + l');
    SortSorts(a + l);
    SortedByStamps(Sort(a + l'), Sort(a + l));
  }

  lemma AdoptedSame(local: seq<Session>, remote: seq<Thread>, scope: Scope, now: int, scope': Scope, now': int)
    requires UniqueIds(local) && UniqueThreads(remote)
    ensures Adopted(Merge(local, remote, scope, now), remote, scope', now') == Adopted(local, remote, scope, now)
  {
    var a := Adopted(local, remote, scope, now);
    var r := Merge(local, remote, scope, now);
    MergeHasEachIdOnce(local, remote, scope, now, "");
    SameMembers(local, remote, scope, now);
    AdoptedIds(local, remote, scope, now);
    forall i | 0 <= i < |remote| ensures Adopted(r, remote, scope', now')[i] == a[i] {
      assert a[i] in r;
      FindUnique(r, a[i]);
      AdoptAgain(remote[i], Find(local, remote[i].id), scope, now, scope', now');
    }
  }

  // ---------------------------------------------------------------------------------------
  // The two loops
  // ---------------------------------------------------------------------------------------

  method MergeServerThreads(local: seq<Session>, remote: seq<Thread>, scope: Scope, now: int)
    returns (sessions: seq<Session>, unsynced: seq<Session>)
    ensures sessions == Merge(local, remote, scope, now)
    ensures unsynced == Unsynced(local, remote, scope)
  {
    var remoteIds := IdsOf(remote);
    sessions, unsynced := [], [];
    var i := 0;
    while i < |remote|
      invariant i <= |remote| && sessions == Adopted(local, remote, scope, now)[..i]
    {
      var thread := remote[i];
      var cached := Find(local, thread.id);
      if cached.Some? {
        var s := cached.value;
        var updatedAt := Later(s.updatedAt, thread.updatedAt);
        sessions := sessions + [s.(title := Or(thread.title, s.title), model := Or(thread.model, s.model),
          updatedAt := updatedAt)];
      } else {
        var updatedAt := if thread.updatedAt.Some? then thread.updatedAt.value else now;
        sessions := sessions + [Session(thread.id, Or(thread.title, "Untitled task"), "General", scope, [],
          thread.model, updatedAt)];
      }
      i := i + 1;
    }
    var adopted := sessions;
    assert adopted == Adopted(local, remote, scope, now);
    i := 0;
    while i < |local|
      invariant i <= |local| && sessions == adopted + Without(local[..i], remoteIds)
      invariant unsynced == Unsynced(local[..i], remote, scope)
    {
      var s := local[i];
      assert local[..i + 1][..i] == local[..i];
      if s.id !in remoteIds {
        sessions := sessions + [s];
        if s.scope.orgId == scope.orgId && s.messages != [] { unsynced := unsynced + [s]; }
      }
      i := i + 1;
    }
    assert local[..i] == local;
    sessions := Sort(sessions);
  }
}
