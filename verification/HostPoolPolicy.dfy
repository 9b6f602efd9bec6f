/**
 * Which workspace hosts are kept and which are reaped (brainrouter-desktop/electron/hostPoolPolicy.ts),
 * over timed histories of activations, turn starts and ends, and host exits.
 */
module HostPoolPolicy {
  import opened Common

  const DEFAULT_IDLE_TTL_MS := 300_000

  datatype Entry = Entry(workspaceRoot: string, running: bool, lastActiveAt: int)

  datatype Pool = Pool(entries: seq<Entry>, activeRoot: Option<string>)

  datatype Plan = Plan(spawns: bool, activeRoot: string, reap: set<string>)

  predicate HasRoot(entries: seq<Entry>, root: string) {
    exists i :: 0 <= i < |entries| && entries[i].workspaceRoot == root
  }

  predicate Reapable(p: Pool, e: Entry, root: string, now: int, ttlMs: int) {
    && e.workspaceRoot != root
    && Some(e.workspaceRoot) != p.activeRoot
    && !e.running
    && now - e.lastActiveAt > ttlMs
  }

  function PlanActivate(p: Pool, root: string, now: int, ttlMs: int): Plan {
    Plan(!HasRoot(p.entries, root), root, set i | 0 <= i < |p.entries|
      && Reapable(p, p.entries[i], root, now, ttlMs) :: p.entries[i].workspaceRoot)
  }

  /** Entries whose root is not in the set, in order. */
  function Without(entries: seq<Entry>, roots: set<string>): seq<Entry> {
    if entries == [] then []
    else
      var before := Without(entries[..|entries| - 1], roots);
      if entries[|entries| - 1].workspaceRoot in roots then before else before + [entries[|entries| - 1]]
  }

  /** The idle clock of `root`, if it is pooled, is set. */
  function Touch(entries: seq<Entry>, root: string, now: int): (r: seq<Entry>)
    ensures |r| == |entries|
  {
    seq(|entries|, i requires 0 <= i < |entries| =>
      if entries[i].workspaceRoot == root then entries[i].(lastActiveAt := now) else entries[i])
  }

  /** The clock of the workspace being left is started, except that an empty root counts as none. */
  function StartClock(entries: seq<Entry>, left: Option<string>, root: string, now: int): seq<Entry> {
    if left.Some? && left.value != "" && left.value != root then Touch(entries, left.value, now) else entries
  }

  function ApplyActivate(p: Pool, plan: Plan, now: int): Pool {
    var kept := StartClock(Without(p.entries, plan.reap), p.activeRoot, plan.activeRoot, now);
    Pool(
      if HasRoot(kept, plan.activeRoot) then Touch(kept, plan.activeRoot, now)
      else kept + [Entry(plan.activeRoot, false, now)],
      Some(plan.activeRoot))
  }

  function SetRunning(p: Pool, root: string, running: bool): Pool {
    p.(entries := seq(|p.entries|, i requires 0 <= i < |p.entries| =>
      if p.entries[i].workspaceRoot == root then p.entries[i].(running := running) else p.entries[i]))
  }

  function RemoveEntry(p: Pool, root: string): Pool {
    Pool(Without(p.entries, {root}), if p.activeRoot == Some(root) then None else p.activeRoot)
  }

  // ---------------------------------------------------------------------------------------
  // Timed histories
  // ---------------------------------------------------------------------------------------

  datatype Action = Activates(root: string) | Runs(root: string, running: bool) | Exits(root: string)

  datatype Event = Event(action: Action, at: int)

  /**
   * A history so far: the pool, the clock, and what the events alone say: which root is viewed, the
   * last moments each root was viewed at and activated at, and which pooled hosts have reported a
   * turn in flight.
   */
  datatype History = History(
    pool: Pool,
    clock: int,
    viewed: Option<string>,
    lastViewed: map<string, int>,
    lastEntered: map<string, int>,
    busy: set<string>
  )

  function Start(clock: int): History {
    History(Pool([], None), clock, None, map[], map[], {})
  }

  /** Whatever is viewed when an event comes has been viewed up to that moment. */
  function Seen(h: History, at: int): map<string, int> {
    if h.viewed.Some? then h.lastViewed[h.viewed.value := at] else h.lastViewed
  }

  function Step(h: History, e: Event, ttlMs: int): History {
    match e.action
    case Activates(root) =>
      History(ApplyActivate(h.pool, PlanActivate(h.pool, root, e.at, ttlMs), e.at), e.at, Some(root),
        Seen(h, e.at)[root := e.at], h.lastEntered[root := e.at], h.busy)
    case Runs(root, running) =>
      History(SetRunning(h.pool, root, running), e.at, h.viewed, Seen(h, e.at), h.lastEntered,
        if running && HasRoot(h.pool.entries, root) then h.busy + {root} else h.busy - {root})
    case Exits(root) =>
      History(RemoveEntry(h.pool, root), e.at, if h.viewed == Some(root) then None else h.viewed,
        Seen(h, e.at), h.lastEntered, h.busy - {root})
  }

  function Run(h: History, es: seq<Event>, ttlMs: int): History
    decreases es
  {
    if es == [] then h else Run(Step(h, es[0], ttlMs), es[1..], ttlMs)
  }

  predicate Chronological(clock: int, es: seq<Event>)
    decreases es
  {
    es == [] || (clock <= es[0].at && Chronological(es[0].at, es[1..]))
  }

  predicate UniqueRoots(entries: seq<Entry>) {
    forall i, j :: 0 <= i < j < |entries| ==> entries[i].workspaceRoot != entries[j].workspaceRoot
  }

  /**
   * An unviewed entry's idle clock is the last time it was viewed; the empty root's, always, the last time it
   * was entered.
   */
  predicate ClockHonest(h: History, e: Entry) {
    && e.workspaceRoot in h.lastViewed && e.workspaceRoot in h.lastEntered
    && (e.workspaceRoot != "" && h.viewed != Some(e.workspaceRoot) ==> e.lastActiveAt == h.lastViewed[e.workspaceRoot])
    && (e.workspaceRoot == "" ==> e.lastActiveAt == h.lastEntered[e.workspaceRoot])
  }

  predicate Inv(h: History) {
    && UniqueRoots(h.pool.entries)
    && h.pool.activeRoot == h.viewed
    && (h.viewed.Some? ==> HasRoot(h.pool.entries, h.viewed.value))
    && (forall i :: 0 <= i < |h.pool.entries| ==> ClockHonest(h, h.pool.entries[i]))
    && (forall i :: 0 <= i < |h.pool.entries| ==>
        (h.pool.entries[i].running <==> h.pool.entries[i].workspaceRoot in h.busy))
    && (forall r <- h.busy :: HasRoot(h.pool.entries, r))
  }

  lemma {:induction false} WithoutIn(entries: seq<Entry>, roots: set<string>, e: Entry)
    ensures e in Without(entries, roots) <==> e in entries && e.workspaceRoot !in roots
  {
    if entries != [] {
      WithoutIn(entries[..|entries| - 1], roots, e);
      assert entries == entries[..|entries| - 1] + [entries[|entries| - 1]];
    }
  }

  lemma {:induction false} WithoutUnique(entries: seq<Entry>, roots: set<string>)
    requires UniqueRoots(entries)
    ensures UniqueRoots(Without(entries, roots))
  {
    if entries != [] {
      var before, last := entries[..|entries| - 1], entries[|entries| - 1];
      WithoutUnique(before, roots);
      forall i | 0 <= i < |Without(before, roots)|
        ensures Without(before, roots)[i].workspaceRoot != last.workspaceRoot {
        WithoutIn(before, roots, Without(before, roots)[i]);
      }
    }
  }

  lemma WithoutRoots(entries: seq<Entry>, roots: set<string>, r: string)
    ensures HasRoot(Without(entries, roots), r) <==> HasRoot(entries, r) && r !in roots
  {
    var w := Without(entries, roots);
    if i :| 0 <= i < |w| && w[i].workspaceRoot == r {
      WithoutIn(entries, roots, w[i]);
    }
    if i :| 0 <= i < |entries| && entries[i].workspaceRoot == r && r !in roots {
      WithoutIn(entries, roots, entries[i]);
    }
  }

  lemma SameRoots(a: seq<Entry>, b: seq<Entry>, r: string)
    requires |a| == |b| && forall i :: 0 <= i < |a| ==> a[i].workspaceRoot == b[i].workspaceRoot
    ensures HasRoot(a, r) == HasRoot(b, r) && (UniqueRoots(a) ==> UniqueRoots(b))
  {
    if i :| 0 <= i < |a| && a[i].workspaceRoot == r { assert b[i].workspaceRoot == r; }
    if i :| 0 <= i < |b| && b[i].workspaceRoot == r { assert a[i].workspaceRoot == r; }
  }

  lemma AddedRoot(a: seq<Entry>, e: Entry, r: string)
    ensures HasRoot(a + [e], r) <==> HasRoot(a, r) || r == e.workspaceRoot
  {
    var b := a + [e];
    assert b[|a|] == e;
    if i :| 0 <= i < |a| && a[i].workspaceRoot == r { assert b[i].workspaceRoot == r; }
  }

  lemma NeverReapsTarget(p: Pool, root: string, now: int, ttlMs: int)
    ensures root !in PlanActivate(p, root, now, ttlMs).reap
    ensures p.activeRoot.Some? ==> p.activeRoot.value !in PlanActivate(p, root, now, ttlMs).reap
  {}

  /** What activation does to the pool: reaped roots go, the activated root is in, every other root stays. */
  lemma ActivateExactly(p: Pool, root: string, now: int, ttlMs: int, r: string)
    requires UniqueRoots(p.entries)
    ensures var plan := PlanActivate(p, root, now, ttlMs); var p' := ApplyActivate(p, plan, now);
      && UniqueRoots(p'.entries) && p'.activeRoot == Some(root)
      && (HasRoot(p'.entries, r) <==> r == root || (HasRoot(p.entries, r) && r !in plan.reap))
      && (plan.spawns <==> !HasRoot(p.entries, root))
  {
    hide Without;
    var plan := PlanActivate(p, root, now, ttlMs);
    NeverReapsTarget(p, root, now, ttlMs);
    var w := Without(p.entries, plan.reap);
    WithoutUnique(p.entries, plan.reap);
    WithoutRoots(p.entries, plan.reap, r);
    var kept := StartClock(w, p.activeRoot, root, now);
    SameRoots(w, kept, r);
    if HasRoot(kept, root) {
      SameRoots(kept, Touch(kept, root, now), r);
    } else {
      AddedRoot(kept, Entry(root, false, now), r);
    }
  }

  /** What an entry of the new pool was before. */
  lemma ActivatedFrom(p: Pool, root: string, now: int, ttlMs: int, e: Entry)
    requires e in ApplyActivate(p, PlanActivate(p, root, now, ttlMs), now).entries
    ensures e.workspaceRoot == root ==> e.lastActiveAt == now && (HasRoot(p.entries, root) || !e.running)
    ensures e.workspaceRoot != root || HasRoot(p.entries, root) ==> exists was <- p.entries ::
      && was.workspaceRoot == e.workspaceRoot && was.running == e.running
      && (e.workspaceRoot != root ==>
            e.lastActiveAt == if e.workspaceRoot != "" && p.activeRoot == Some(e.workspaceRoot)
              then now else was.lastActiveAt)
  {
    var plan := PlanActivate(p, root, now, ttlMs);
    NeverReapsTarget(p, root, now, ttlMs);
    WithoutRoots(p.entries, plan.reap, root);
    var w := Without(p.entries, plan.reap);
    var kept := StartClock(w, p.activeRoot, root, now);
    SameRoots(w, kept, root);
    var p' := ApplyActivate(p, plan, now);
    var i :| 0 <= i < |p'.entries| && p'.entries[i] == e;
    if i < |kept| {
      WithoutIn(p.entries, plan.reap, w[i]);
      assert w[i] in p.entries && w[i].workspaceRoot == e.workspaceRoot;
    }
  }

  lemma ActivateKeeps(h: History, root: string, at: int, ttlMs: int)
    requires Inv(h) && h.clock <= at
    ensures Inv(Step(h, Event(Activates(root), at), ttlMs))
  {
    var h' := Step(h, Event(Activates(root), at), ttlMs);
    ActivateExactly(h.pool, root, at, ttlMs, root);
    forall r | r in h.busy ensures HasRoot(h'.pool.entries, r) {
      ActivateExactly(h.pool, root, at, ttlMs, r);
      NeverReapsBusy(h, root, at, ttlMs, r);
    }
    hide ApplyActivate, PlanActivate;
    forall i | 0 <= i < |h'.pool.entries|
      ensures ClockHonest(h', h'.pool.entries[i])
      ensures h'.pool.entries[i].running <==> h'.pool.entries[i].workspaceRoot in h.busy
    {
      ActivatedFrom(h.pool, root, at, ttlMs, h'.pool.entries[i]);
      var e := h'.pool.entries[i];
      if was :| was in h.pool.entries && was.workspaceRoot == e.workspaceRoot && was.running == e.running {
        assert exists j :: 0 <= j < |h.pool.entries| && h.pool.entries[j] == was;
      }
    }
  }

  lemma NeverReapsBusy(h: History, root: string, now: int, ttlMs: int, r: string)
    requires Inv(h) && r in h.busy
    ensures r !in PlanActivate(h.pool, root, now, ttlMs).reap
  {}

  lemma RunsKeeps(h: History, root: string, running: bool, at: int, ttlMs: int)
    requires Inv(h) && h.clock <= at
    ensures Inv(Step(h, Event(Runs(root, running), at), ttlMs))
  {
    var h' := Step(h, Event(Runs(root, running), at), ttlMs);
    SameRoots(h.pool.entries, h'.pool.entries, if h.viewed.Some? then h.viewed.value else "");
    forall i | 0 <= i < |h'.pool.entries| ensures ClockHonest(h', h'.pool.entries[i]) {
      assert ClockHonest(h, h.pool.entries[i]);
    }
    forall r | r in h'.busy ensures HasRoot(h'.pool.entries, r) { SameRoots(h.pool.entries, h'.pool.entries, r); }
  }

  lemma ExitKeeps(h: History, root: string, at: int, ttlMs: int)
    requires Inv(h) && h.clock <= at
    ensures Inv(Step(h, Event(Exits(root), at), ttlMs))
  {
    var h' := Step(h, Event(Exits(root), at), ttlMs);
    WithoutUnique(h.pool.entries, {root});
    if h.viewed.Some? { WithoutRoots(h.pool.entries, {root}, h.viewed.value); }
    forall i | 0 <= i < |h'.pool.entries|
      ensures ClockHonest(h', h'.pool.entries[i])
      ensures h'.pool.entries[i].running <==> h'.pool.entries[i].workspaceRoot in h'.busy
    {
      WithoutIn(h.pool.entries, {root}, h'.pool.entries[i]);
    }
    forall r | r in h'.busy ensures HasRoot(h'.pool.entries, r) { WithoutRoots(h.pool.entries, {root}, r); }
  }

  lemma StepKeeps(h: History, e: Event, ttlMs: int)
    requires Inv(h) && h.clock <= e.at
    ensures Inv(Step(h, e, ttlMs))
  {
    hide Inv, Step;
    match e.action
    case Activates(root) => ActivateKeeps(h, root, e.at, ttlMs);
    case Runs(root, running) => RunsKeeps(h, root, running, e.at, ttlMs);
    case Exits(root) => ExitKeeps(h, root, e.at, ttlMs);
  }

  lemma {:induction false} RunKeeps(h: History, es: seq<Event>, ttlMs: int)
    requires Inv(h) && Chronological(h.clock, es)
    ensures Inv(Run(h, es, ttlMs))
    decreases es
  {
    if es != [] {
      StepKeeps(h, es[0], ttlMs);
      RunKeeps(Step(h, es[0], ttlMs), es[1..], ttlMs);
    }
  }

  /** In every history roots are unique and the viewed root, if any, is pooled. */
  lemma PoolIsSound(clock: int, es: seq<Event>, ttlMs: int)
    requires Chronological(clock, es)
    ensures var h := Run(Start(clock), es, ttlMs);
      && UniqueRoots(h.pool.entries) && h.pool.activeRoot == h.viewed
      && (h.viewed.Some? ==> HasRoot(h.pool.entries, h.viewed.value))
  {
    RunKeeps(Start(clock), es, ttlMs);
  }

  /** The moment a root's time to live runs from: when it was last viewed, but last entered for the empty root. */
  function IdleSince(h: History, r: string): int
    requires r in h.lastViewed && r in h.lastEntered
  {
    if r == "" then h.lastEntered[r] else h.lastViewed[r]
  }

  /**
   * Over every history, an activation reaps exactly the pooled workspaces that are neither entered
   * nor left by it, report no turn in flight, and have been idle longer than the time to live.
   */
  lemma ReapsExactly(clock: int, es: seq<Event>, ttlMs: int, root: string, now: int, r: string)
    requires Chronological(clock, es)
    ensures var h := Run(Start(clock), es, ttlMs);
      r in PlanActivate(h.pool, root, now, ttlMs).reap <==>
        && HasRoot(h.pool.entries, r) && r != root && h.viewed != Some(r) && r !in h.busy
        && r in h.lastViewed && r in h.lastEntered && now - IdleSince(h, r) > ttlMs
    ensures var h := Run(Start(clock), es, ttlMs);
      HasRoot(h.pool.entries, r) ==> r in h.lastViewed && r in h.lastEntered
  {
    RunKeeps(Start(clock), es, ttlMs);
    hide Run;
    var h := Run(Start(clock), es, ttlMs);
    if i :| 0 <= i < |h.pool.entries| && h.pool.entries[i].workspaceRoot == r {
      assert ClockHonest(h, h.pool.entries[i]);
      if r in PlanActivate(h.pool, root, now, ttlMs).reap {
        var j :| 0 <= j < |h.pool.entries| && Reapable(h.pool, h.pool.entries[j], root, now, ttlMs)
          && h.pool.entries[j].workspaceRoot == r;
        assert i == j;
      }
      assert Reapable(h.pool, h.pool.entries[i], root, now, ttlMs) ==> r in PlanActivate(h.pool, root, now, ttlMs).reap;
    }
  }

  /**
   * The empty root is the exception: its idle clock is never started, and it can be reaped a moment after it
   * was viewed.
   */
  lemma EmptyRootReapedEarly()
    ensures var es := [Event(Activates(""), 0), Event(Activates("b"), 1_000_000)];
      var h := Run(Start(0), es, DEFAULT_IDLE_TTL_MS);
      && Chronological(0, es)
      && "" in PlanActivate(h.pool, "c", 1_000_001, DEFAULT_IDLE_TTL_MS).reap
      && "" in h.lastViewed && 1_000_001 - h.lastViewed[""] == 1
  {
    var es := [Event(Activates(""), 0), Event(Activates("b"), 1_000_000)];
    var h1 := Step(Start(0), es[0], DEFAULT_IDLE_TTL_MS);
    FirstView();
    LeaveEmptyRoot(h1);
    hide Step, PlanActivate;
    var h2 := Step(h1, es[1], DEFAULT_IDLE_TTL_MS);
    assert es[1..][1..] == [];
    assert Run(Start(0), es, DEFAULT_IDLE_TTL_MS) == Run(h1, es[1..], DEFAULT_IDLE_TTL_MS) ==
      Run(h2, es[1..][1..], DEFAULT_IDLE_TTL_MS) == h2;
  }

  lemma FirstView()
    ensures Step(Start(0), Event(Activates(""), 0), DEFAULT_IDLE_TTL_MS) ==
      History(Pool([Entry("", false, 0)], Some("")), 0, Some(""), map["" := 0], map["" := 0], {})
  {}

  lemma LeaveEmptyRoot(h: History)
    requires h == History(Pool([Entry("", false, 0)], Some("")), 0, Some(""), map["" := 0], map["" := 0], {})
    ensures var h' := Step(h, Event(Activates("b"), 1_000_000), DEFAULT_IDLE_TTL_MS);
      && "" in PlanActivate(h'.pool, "c", 1_000_001, DEFAULT_IDLE_TTL_MS).reap
      && "" in h'.lastViewed && h'.lastViewed[""] == 1_000_000
  {
    var h' := Step(h, Event(Activates("b"), 1_000_000), DEFAULT_IDLE_TTL_MS);
    assert Without([Entry("", false, 0)], {}) == [Entry("", false, 0)];
    assert h'.pool == Pool([Entry("", false, 0), Entry("b", false, 1_000_000)], Some("b"));
    assert Reapable(h'.pool, h'.pool.entries[0], "c", 1_000_001, DEFAULT_IDLE_TTL_MS);
  }
}
