/**
 * The three registries of session-end checkpoints in the session host
 * (brainrouter-desktop/electron/hostCore.ts:324-370): by agent and session, all pending ones, and
 * by session. They always describe one and the same set.
 */
module DrainRegistry {
  import opened HostModel

  type AgentId = nat
  type Promise = nat
  type ByAgent = map<AgentId, map<Key, Promise>>
  type BySession = map<Key, set<Promise>>
  type Origin = map<Promise, Drain>

  // ---------------------------------------------------------------------------------------
  // What each registry says about the pending checkpoints
  // ---------------------------------------------------------------------------------------

  predicate Lists(m: ByAgent, d: Drain, p: Promise) {
    d.rt in m && d.key in m[d.rt] && m[d.rt][d.key] == p
  }

  /** Each pending checkpoint under its agent and session, nothing else, and no empty inner map. */
  ghost predicate AgentsAgree(m: ByAgent, origin: Origin) {
    && (forall p <- origin :: Lists(m, origin[p], p))
    && (forall a <- m :: m[a] != map[])
    && (forall a <- m :: forall k <- m[a] :: m[a][k] in origin && origin[m[a][k]] == Drain(a, k))
  }

  /** Each pending checkpoint under its session, nothing else, and no empty set. */
  ghost predicate SessionsAgree(m: BySession, origin: Origin) {
    && (forall p <- origin :: origin[p].key in m && p in m[origin[p].key])
    && (forall k <- m :: m[k] != {})
    && (forall k <- m :: forall p <- m[k] :: p in origin && origin[p].key == k)
  }

  function AddToAgent(m: ByAgent, d: Drain, p: Promise): ByAgent {
    var bySession: map<Key, Promise> := if d.rt in m then m[d.rt] else map[];
    m[d.rt := bySession[d.key := p]]
  }

  function DropFromAgent(m: ByAgent, d: Drain): ByAgent
    requires d.rt in m
  {
    var rest: map<Key, Promise> := m[d.rt] - {d.key};
    if rest == map[] then m - {d.rt} else m[d.rt := rest]
  }

  function AddToSession(m: BySession, key: Key, p: Promise): BySession {
    m[key := (if key in m then m[key] else {}) + {p}]
  }

  function DropFromSession(m: BySession, key: Key, p: Promise): BySession
    requires key in m
  {
    if m[key] - {p} == {} then m - {key} else m[key := m[key] - {p}]
  }

  lemma AddAgent(a: ByAgent, origin: Origin, d: Drain, p: Promise)
    requires AgentsAgree(a, origin) && p !in origin && !(d.rt in a && d.key in a[d.rt])
    ensures AgentsAgree(AddToAgent(a, d, p), origin[p := d])
  {
    var a', origin' := AddToAgent(a, d, p), origin[p := d];
    forall q | q in origin' ensures Lists(a', origin'[q], q) {
      if q != p { assert Lists(a, origin[q], q); }
    }
    forall x | x in a'
      ensures a'[x] != map[] && forall k <- a'[x] :: a'[x][k] in origin' && origin'[a'[x][k]] == Drain(x, k) {
      if x == d.rt { assert d.key in a'[x]; }
      forall k <- a'[x] ensures a'[x][k] in origin' && origin'[a'[x][k]] == Drain(x, k) {
        if x in a && k in a[x] { assert a[x][k] in origin; }
      }
    }
  }

  lemma AddSession(s: BySession, origin: Origin, d: Drain, p: Promise)
    requires SessionsAgree(s, origin) && p !in origin
    ensures SessionsAgree(AddToSession(s, d.key, p), origin[p := d])
  {
    var s', origin' := AddToSession(s, d.key, p), origin[p := d];
    forall k | k in s' ensures s'[k] != {} && forall q <- s'[k] :: q in origin' && origin'[q].key == k {
      if k == d.key { assert p in s'[k]; }
    }
  }

  /** What is listed for an agent and session is pending for them; what is not listed is not pending. */
  lemma ListedIsPending(a: ByAgent, origin: Origin, d: Drain)
    requires AgentsAgree(a, origin)
    ensures d.rt in a && d.key in a[d.rt] <==> d in origin.Values
    ensures d.rt in a && d.key in a[d.rt] ==> a[d.rt][d.key] in origin && origin[a[d.rt][d.key]] == d
  {
    if d.rt in a && d.key in a[d.rt] {
      assert origin[a[d.rt][d.key]] == d;
    }
    if p :| p in origin && origin[p] == d {
      assert Lists(a, origin[p], p);
    }
  }

  lemma DropAgrees(a: ByAgent, s: BySession, origin: Origin, p: Promise)
    requires AgentsAgree(a, origin) && SessionsAgree(s, origin) && p in origin
    ensures origin[p].rt in a && origin[p].key in s
    ensures AgentsAgree(DropFromAgent(a, origin[p]), origin - {p})
    ensures SessionsAgree(DropFromSession(s, origin[p].key, p), origin - {p})
  {
    var d, origin' := origin[p], origin - {p};
    assert Lists(a, d, p);
    DropAgent(a, origin, p);
    DropSession(s, origin, p);
  }

  lemma DropAgent(a: ByAgent, origin: Origin, p: Promise)
    requires AgentsAgree(a, origin) && p in origin && Lists(a, origin[p], p)
    ensures AgentsAgree(DropFromAgent(a, origin[p]), origin - {p})
  {
    var d, a', origin' := origin[p], DropFromAgent(a, origin[p]), origin - {p};
    var rest: map<Key, Promise> := a[d.rt] - {d.key};
    forall q | q in origin' ensures Lists(a', origin'[q], q) {
      assert Lists(a, origin[q], q);
      if origin[q].rt == d.rt { assert origin[q].key in rest; }
    }
    forall x | x in a'
      ensures a'[x] != map[] && forall k <- a'[x] :: a'[x][k] in origin' && origin'[a'[x][k]] == Drain(x, k) {
      assert x in a;
      forall k <- a'[x] ensures a'[x][k] in origin' && origin'[a'[x][k]] == Drain(x, k) {
        assert k in a[x] && a'[x][k] == a[x][k];
      }
    }
  }

  lemma DropSession(s: BySession, origin: Origin, p: Promise)
    requires SessionsAgree(s, origin) && p in origin
    ensures SessionsAgree(DropFromSession(s, origin[p].key, p), origin - {p})
  {
    var key, s', origin' := origin[p].key, DropFromSession(s, origin[p].key, p), origin - {p};
    forall q | q in origin' ensures origin'[q].key in s' && q in s'[origin'[q].key] {
      assert q in s[origin[q].key];
      if origin[q].key == key { assert q in s[key] - {p}; }
    }
  }

  /** The drains of a map of promises grow and shrink with it. */
  lemma DrainsGrow(m: Origin, p: Promise, d: Drain)
    requires p !in m
    ensures m[p := d].Values == m.Values + {d}
  {
    assert m[p := d][p] == d;
    forall v | v in m.Values ensures v in m[p := d].Values {
      var q :| q in m && m[q] == v;
      assert m[p := d][q] == v;
    }
  }

  lemma DrainsShrink(a: ByAgent, m: Origin, p: Promise)
    requires p in m && AgentsAgree(a, m)
    ensures (m - {p}).Values == m.Values - {m[p]}
  {
    var n := m - {p};
    assert Lists(a, m[p], p);
    forall q | q in m && m[q] == m[p] ensures q == p { assert Lists(a, m[q], q); }
    forall v | v in m.Values && v != m[p] ensures v in n.Values {
      var q :| q in m && m[q] == v;
      assert q in n && n[q] == v;
    }
  }

  /**
   * The registries agree: a promise is pending for an agent and session exactly when it is listed
   * there, and listed for a session exactly when it is listed for that session under some agent.
   */
  lemma RegistriesAgree(a: ByAgent, s: BySession, origin: Origin, p: Promise, d: Drain)
    requires AgentsAgree(a, origin) && SessionsAgree(s, origin)
    ensures p in origin && origin[p] == d <==> Lists(a, d, p)
    ensures (exists x <- a :: Lists(a, Drain(x, d.key), p)) <==> d.key in s && p in s[d.key]
  {
    if d.key in s && p in s[d.key] {
      assert Lists(a, origin[p], p) && origin[p] == Drain(origin[p].rt, d.key);
    }
    if x :| x in a && Lists(a, Drain(x, d.key), p) {
      assert a[x][d.key] in origin;
    }
  }

  /** At most one checkpoint per agent and session is in flight. */
  lemma OnePerAgentAndSession(a: ByAgent, origin: Origin, p: Promise, q: Promise)
    requires AgentsAgree(a, origin) && p in origin && q in origin && origin[p] == origin[q]
    ensures p == q
  {
    assert Lists(a, origin[p], p) && Lists(a, origin[q], q);
  }

  // ---------------------------------------------------------------------------------------
  // Runs: checkpoints start and settle while somebody waits for all of them
  // ---------------------------------------------------------------------------------------

  /** Where a caller of `awaitAllDrains` is: before the call, awaiting a snapshot, or returned. */
  datatype Wait = Unasked | Awaiting(snapshot: set<Promise>) | Over

  /** The pending checkpoints, the number started so far, and one waiting caller (callers do not affect each other). */
  datatype Ledger = Ledger(origin: Origin, issued: nat, wait: Wait)

  /** `Asks` calls `awaitAllDrains`; `Resumes` is the return of its `Promise.allSettled`. */
  datatype Op = Starts(drain: Drain) | Settles(promise: Promise) | Asks | Resumes

  function NewLedger(): Ledger {
    Ledger(map[], 0, Unasked)
  }

  /** The loop condition of `awaitAllDrains`: return, or wait for everything pending by now. */
  function Look(l: Ledger): Ledger {
    l.(wait := if l.origin == map[] then Over else Awaiting(l.origin.Keys))
  }

  function Apply(l: Ledger, op: Op): Ledger {
    match op
    case Starts(d) => if d in l.origin.Values then l else l.(origin := l.origin[l.issued := d], issued := l.issued + 1)
    case Settles(p) => l.(origin := l.origin - {p})
    case Asks => if l.wait.Unasked? then Look(l) else l
    case Resumes => if l.wait.Awaiting? && l.wait.snapshot !! l.origin.Keys then Look(l) else l
  }

  function Replay(l: Ledger, ops: seq<Op>): Ledger
    decreases |ops|
  {
    if ops == [] then l else Apply(Replay(l, ops[..|ops| - 1]), ops[|ops| - 1])
  }

  /** The checkpoint settled at this point of the run: it had been started, and its promise resolved. */
  predicate SettlesAt(ops: seq<Op>, j: nat, p: Promise)
    requires j < |ops|
  {
    ops[j] == Settles(p) && p < Replay(NewLedger(), ops[..j]).issued
  }

  /** The checkpoint has settled by the end of the run. */
  predicate SettledBy(ops: seq<Op>, p: Promise) {
    exists j :: 0 <= j < |ops| && SettlesAt(ops, j, p)
  }

  /** The loop condition of the call of `awaitAllDrains` may be looked at here: at the call, or at a later return. */
  predicate Looks(ops: seq<Op>, n: nat)
    requires n < |ops|
  {
    (ops[n].Asks? && Asks !in ops[..n]) || (ops[n].Resumes? && Asks in ops[..n])
  }

  lemma SettledBefore(ops: seq<Op>, op: Op, p: Promise)
    ensures SettledBy(ops + [op], p) <==> SettledBy(ops, p) || (op == Settles(p) && p < Replay(NewLedger(), ops).issued)
  {
    var all := ops + [op];
    assert all[..|ops|] == ops;
    forall j | 0 <= j < |ops| ensures SettlesAt(all, j, p) == SettlesAt(ops, j, p) {
      assert all[..j] == ops[..j];
    }
    if op == Settles(p) && p < Replay(NewLedger(), ops).issued { assert SettlesAt(all, |ops|, p); }
    if SettledBy(ops, p) {
      var j :| 0 <= j < |ops| && SettlesAt(ops, j, p);
      assert SettlesAt(all, j, p);
    }
  }

  /** A started checkpoint is pending exactly as long as it has not settled, and nothing else is pending. */
  lemma {:induction false} PendingExactly(ops: seq<Op>, p: Promise)
    ensures var l := Replay(NewLedger(), ops); p in l.origin <==> p < l.issued && !SettledBy(ops, p)
    ensures SettledBy(ops, p) ==> p < Replay(NewLedger(), ops).issued
    decreases |ops|
  {
    if ops != [] {
      var init, op := ops[..|ops| - 1], ops[|ops| - 1];
      assert ops == init + [op];
      PendingExactly(init, p);
      SettledBefore(init, op, p);
    }
  }

  lemma {:induction false} AskedExactly(ops: seq<Op>)
    ensures Replay(NewLedger(), ops).wait.Unasked? <==> Asks !in ops
    decreases |ops|
  {
    if ops != [] {
      AskedExactly(ops[..|ops| - 1]);
      assert ops == ops[..|ops| - 1] + [ops[|ops| - 1]];
    }
  }

  /** Nothing was pending when the loop looked. */
  predicate FoundNothing(ops: seq<Op>, n: nat)
    requires n < |ops|
  {
    Looks(ops, n) && Replay(NewLedger(), ops[..n]).origin == map[]
  }

  lemma {:induction false} OverExactly(ops: seq<Op>)
    ensures Replay(NewLedger(), ops).wait.Over? <==> exists n :: 0 <= n < |ops| && FoundNothing(ops, n)
    decreases |ops|
  {
    if ops != [] {
      var init, op := ops[..|ops| - 1], ops[|ops| - 1];
      OverExactly(init);
      AskedExactly(init);
      forall n | 0 <= n < |init| ensures FoundNothing(ops, n) == FoundNothing(init, n) {
        assert ops[..n] == init[..n];
      }
      assert ops[..|init|] == init;
      var l := Replay(NewLedger(), init);
      assert l.origin == map[] ==> l.origin.Keys == {};
      assert Replay(NewLedger(), ops).wait.Over? <==> Replay(NewLedger(), init).wait.Over? || FoundNothing(ops, |init|);
      if n :| 0 <= n < |init| && FoundNothing(init, n) { assert FoundNothing(ops, n); }
    }
  }

  /** At some look of the loop, every checkpoint started by then had settled. */
  predicate AllSettledAt(ops: seq<Op>, n: nat)
    requires n < |ops|
  {
    Looks(ops, n) && forall p: Promise :: p < Replay(NewLedger(), ops[..n]).issued ==> SettledBy(ops[..n], p)
  }

  lemma FoundNothingExactly(ops: seq<Op>, n: nat)
    requires n < |ops|
    ensures FoundNothing(ops, n) == AllSettledAt(ops, n)
  {
    var l := Replay(NewLedger(), ops[..n]);
    forall p: Promise ensures p in l.origin <==> p < l.issued && !SettledBy(ops[..n], p) {
      PendingExactly(ops[..n], p);
    }
    if l.origin != map[] {
      assert l.origin.Keys != {};
      var p :| p in l.origin;
    }
  }

  /**
   * However checkpoints start and settle meanwhile: `awaitAllDrains` returns exactly if at some look
   * of its loop every checkpoint started by then, those started during the wait included, had settled.
   */
  lemma WaitEndsExactly(ops: seq<Op>)
    ensures Replay(NewLedger(), ops).wait.Over? <==> exists n :: 0 <= n < |ops| && AllSettledAt(ops, n)
  {
    OverExactly(ops);
    if n :| 0 <= n < |ops| && FoundNothing(ops, n) { FoundNothingExactly(ops, n); }
    if n :| 0 <= n < |ops| && AllSettledAt(ops, n) { FoundNothingExactly(ops, n); }
  }

  // ---------------------------------------------------------------------------------------
  // The registries in place
  // ---------------------------------------------------------------------------------------

  class Registry {
    var drainsByAgent: ByAgent
    var pendingDrains: set<Promise>
    var drainsBySession: BySession
    var issued: nat
    var wait: Wait
    /** The agent and session each pending checkpoint was started for, which its `finally` closes over. */
    var origin: Origin
    /** Every call of `endSession`, in order. */
    ghost var calls: seq<Drain>

    ghost predicate Valid()
      reads this
    {
      && pendingDrains == origin.Keys
      && (forall p <- origin :: p < issued)
      && AgentsAgree(drainsByAgent, origin)
      && SessionsAgree(drainsBySession, origin)
    }

    ghost function State(): Ledger
      reads this
    {
      Ledger(origin, issued, wait)
    }

    /** The set all three registries describe: the field `drains` of the host. */
    ghost function Drains(): set<Drain>
      reads this
    {
      origin.Values
    }

    constructor ()
      ensures Valid() && State() == NewLedger() && Drains() == {} && calls == []
    {
      drainsByAgent, pendingDrains, drainsBySession, issued, wait, origin, calls :=
        map[], {}, map[], 0, Unasked, map[], [];
    }

    /** One checkpoint per agent and session: a second call joins the first and calls `endSession` no more. */
    method TrackSessionDrain(agent: AgentId, key: Key) returns (tracked: Promise)
      requires Valid()
      modifies this
      ensures Valid() && State() == Apply(old(State()), Starts(Drain(agent, key)))
      ensures Drains() == old(Drains()) + {Drain(agent, key)}
      ensures tracked in origin && origin[tracked] == Drain(agent, key)
      ensures calls == if Drain(agent, key) in old(Drains()) then old(calls) else old(calls) + [Drain(agent, key)]
    {
      hide AgentsAgree, SessionsAgree, AddToAgent, AddToSession;
      var d := Drain(agent, key);
      ListedIsPending(drainsByAgent, origin, d);
      if agent in drainsByAgent && key in drainsByAgent[agent] {
        return drainsByAgent[agent][key];
      }
      tracked := issued;
      AddAgent(drainsByAgent, origin, d, tracked);
      AddSession(drainsBySession, origin, d, tracked);
      DrainsGrow(origin, tracked, d);
      calls := calls + [d];
      issued := issued + 1;
      drainsByAgent := AddToAgent(drainsByAgent, d, tracked);
      pendingDrains := pendingDrains + {tracked};
      drainsBySession := AddToSession(drainsBySession, key, tracked);
      origin := origin[tracked := d];
    }

    /** The `finally` of a checkpoint: it leaves all three registries, and empty inner collections go too. */
    method Settled(tracked: Promise, d: Drain)
      requires Valid() && tracked in origin && origin[tracked] == d
      modifies this
      ensures Valid() && State() == Apply(old(State()), Settles(tracked))
      ensures Drains() == old(Drains()) - {d} && calls == old(calls)
    {
      hide AgentsAgree, SessionsAgree, DropFromAgent, DropFromSession;
      DropAgrees(drainsByAgent, drainsBySession, origin, tracked);
      DrainsShrink(drainsByAgent, origin, tracked);
      pendingDrains := pendingDrains - {tracked};
      drainsByAgent := DropFromAgent(drainsByAgent, d);
      drainsBySession := DropFromSession(drainsBySession, d.key, tracked);
      origin := origin - {tracked};
    }

    /** What `awaitSessionDrains` waits for: the pending checkpoints of one session. */
    method SessionSnapshot(key: Key) returns (snapshot: set<Promise>)
      requires Valid()
      ensures snapshot == set p | p in origin && origin[p].key == key
    {
      snapshot := if key in drainsBySession then drainsBySession[key] else {};
    }

    /** `awaitAllDrains` up to its first await. */
    method AwaitAllDrains()
      requires Valid() && wait.Unasked?
      modifies `wait
      ensures Valid() && State() == Apply(old(State()), Asks)
    {
      wait := if pendingDrains == {} then Over else Awaiting(pendingDrains);
    }

    /**
     * One turn of the loop of `awaitAllDrains`, after every checkpoint of its last snapshot has
     * settled: it is over only when nothing at all is pending, and otherwise waits for everything
     * pending by now, including what was registered meanwhile.
     */
    method AwaitAllDrainsResumes()
      requires Valid() && wait.Awaiting? && wait.snapshot !! pendingDrains
      modifies `wait
      ensures Valid() && State() == Apply(old(State()), Resumes)
      ensures wait.Over? <==> Drains() == {}
    {
      wait := if pendingDrains == {} then Over else Awaiting(pendingDrains);
      if origin.Keys != {} {
        ghost var p :| p in origin.Keys;
        assert origin[p] in origin.Values;
      }
    }

    method Perform(op: Op)
      requires Valid()
      modifies this
      ensures Valid() && State() == Apply(old(State()), op)
    {
      hide AgentsAgree, SessionsAgree;
      match op
      case Starts(d) => var _ := TrackSessionDrain(d.rt, d.key);
      case Settles(p) =>
        assert p !in origin ==> origin - {p} == origin;
        if p in pendingDrains { Settled(p, origin[p]); }
      case Asks => if wait.Unasked? { AwaitAllDrains(); }
      case Resumes => if wait.Awaiting? && wait.snapshot !! pendingDrains { AwaitAllDrainsResumes(); }
    }

    /** The registries follow the run, whatever its order. */
    method PerformAll(ops: seq<Op>)
      requires Valid()
      modifies this
      ensures Valid() && State() == Replay(old(State()), ops)
    {
      hide AgentsAgree, SessionsAgree, Apply;
      var i := 0;
      assert ops[..0] == [];
      while i < |ops|
        invariant 0 <= i <= |ops| && Valid() && State() == Replay(old(State()), ops[..i])
      {
        assert ops[..i + 1][..i] == ops[..i];
        Perform(ops[i]);
        i := i + 1;
      }
      assert ops[..|ops|] == ops;
    }
  }
}
