/**
 * The host's set of pending checkpoints is what the drain registry holds: over every run of the
 * host, checkpoints start only as `trackSessionDrain` starts them and leave only by settling.
 */
module HostDrains {
  import opened HostModel
  import opened HostInvariants
  import opened HostCheckpoints
  import HostRuns
  import DrainRegistry

  type Ledger = DrainRegistry.Ledger
  type Op = DrainRegistry.Op

  function Pending(l: Ledger): set<Drain> {
    l.origin.Values
  }

  /** No promise number is used twice. */
  ghost predicate Numbered(l: Ledger) {
    && (forall p <- l.origin :: p < l.issued)
    && (forall p <- l.origin, q <- l.origin :: l.origin[p] == l.origin[q] ==> p == q)
  }

  /**
   * The registry operations of this event: its checkpoint settles, or checkpoints start for agents under their
   * own session.
   */
  ghost predicate OpsOf(s: Host, e: Event, ops: seq<Op>) {
    forall i :: 0 <= i < |ops| ==>
      if e.DrainSettled? then ops[i].Settles? else ops[i].Starts? && Honest(s, ops[i].drain)
  }

  ghost predicate Honest(s: Host, d: Drain) {
    d.rt < |s.runtimes| && s.runtimes[d.rt].agent.sessionKey == d.key
  }

  /** Every event but a checkpoint's settling only adds checkpoints, each of an agent under its own session. */
  lemma StepDrains(s: Host, e: Event)
    requires Owned(s)
    ensures Owned(Step(s, e))
    ensures !e.DrainSettled? ==> s.drains <= Step(s, e).drains && forall d <- Step(s, e).drains :: Honest(Step(s, e), d)
    ensures e.DrainSettled? ==> Step(s, e).drains == s.drains - {e.drain}
  {
    hide PoolOwned, TurnsPooled, LatchesOwned, MutationsSerial, LaunchesResolve;
    StepKeepsOwned(s, e);
    NoSessionLeavesUncheckpointed(s, e);
    if !e.DrainSettled? { hide Step; }
  }

  lemma TrackAdds(l: Ledger, d: Drain)
    requires Numbered(l)
    ensures var l' := DrainRegistry.Apply(l, DrainRegistry.Starts(d));
      Numbered(l') && Pending(l') == Pending(l) + {d}
  {
    if d !in l.origin.Values { DrainRegistry.DrainsGrow(l.origin, l.issued, d); }
  }

  /** These operations of the event take the registry to these pending checkpoints. */
  ghost predicate Reaches(l: Ledger, s: Host, e: Event, ops: seq<Op>, drains: set<Drain>) {
    OpsOf(s, e, ops) && Numbered(DrainRegistry.Replay(l, ops)) && Pending(DrainRegistry.Replay(l, ops)) == drains
  }

  lemma OneMore(l: Ledger, s: Host, e: Event, ops: seq<Op>, drains: set<Drain>, d: Drain)
    requires Reaches(l, s, e, ops, drains) && !e.DrainSettled? && Honest(s, d)
    ensures Reaches(l, s, e, ops + [DrainRegistry.Starts(d)], drains + {d})
  {
    hide Numbered, Honest, Pending;
    var op := DrainRegistry.Starts(d);
    TrackAdds(DrainRegistry.Replay(l, ops), d);
    assert (ops + [op])[..|ops|] == ops;
    assert DrainRegistry.Replay(l, ops + [op]) == DrainRegistry.Apply(DrainRegistry.Replay(l, ops), op);
  }

  /** Started checkpoints can be any honest set. */
  lemma {:induction false} TracksAll(l: Ledger, s: Host, e: Event, more: set<Drain>)
    requires Numbered(l) && !e.DrainSettled? && forall d <- more :: Honest(s, d)
    ensures exists ops :: Reaches(l, s, e, ops, Pending(l) + more)
    decreases |more|
  {
    hide Reaches, Pending, Numbered, Honest;
    if more == {} {
      NoneMore(l, s, e);
      assert Pending(l) + more == Pending(l);
    } else {
      var d :| d in more;
      var fewer := more - {d};
      assert more == fewer + {d};
      TracksAll(l, s, e, fewer);
      var ops :| Reaches(l, s, e, ops, Pending(l) + fewer);
      OneMore(l, s, e, ops, Pending(l) + fewer, d);
      assert Pending(l) + more == Pending(l) + fewer + {d};
    }
  }

  lemma NoneMore(l: Ledger, s: Host, e: Event)
    requires Numbered(l)
    ensures Reaches(l, s, e, [], Pending(l))
  {}

  lemma SettleDrops(l: Ledger, p: DrainRegistry.Promise)
    requires Numbered(l) && p in l.origin
    ensures var l' := DrainRegistry.Apply(l, DrainRegistry.Settles(p));
      Numbered(l') && Pending(l') == Pending(l) - {l.origin[p]}
  {
    var l' := DrainRegistry.Apply(l, DrainRegistry.Settles(p));
    forall d | d in Pending(l) && d != l.origin[p] ensures d in Pending(l') {
      var q :| q in l.origin && l.origin[q] == d;
      assert q in l'.origin && l'.origin[q] == d;
    }
  }

  /** Every step of the host is a sequence of registry operations of that event. */
  lemma StepIsTracked(s: Host, e: Event, l: Ledger)
    requires Owned(s) && Numbered(l) && Pending(l) == s.drains
    ensures exists ops :: Reaches(l, Step(s, e), e, ops, Step(s, e).drains)
  {
    hide PoolOwned, TurnsPooled, LatchesOwned, MutationsSerial, LaunchesResolve, DrainsHonest, Wf, Step, Numbered;
    StepDrains(s, e);
    var s' := Step(s, e);
    if !e.DrainSettled? {
      assert s.drains + s'.drains == s'.drains;
      TracksAll(l, s', e, s'.drains);
    } else if e.drain in s.drains {
      var p :| p in l.origin && l.origin[p] == e.drain;
      var ops := [DrainRegistry.Settles(p)];
      SettleDrops(l, p);
      assert DrainRegistry.Replay(l, ops[..0]) == l;
      assert DrainRegistry.Replay(l, ops) == DrainRegistry.Apply(l, ops[0]);
      assert Reaches(l, s', e, ops, s'.drains);
    } else {
      assert Reaches(l, s', e, [], s'.drains);
    }
  }

  /** Event by event, the registry's operations lead from the host's pending checkpoints to the next ones. */
  ghost predicate Follows(s: Host, es: seq<Event>, l: Ledger, ops: seq<seq<Op>>)
    requires Owned(s)
    decreases es
  {
    if es == [] then ops == [] && Pending(l) == s.drains
    else
      && ops != [] && Pending(l) == s.drains
      && Reaches(l, Step(s, es[0]), es[0], ops[0], Step(s, es[0]).drains)
      && (StepKeepsOwned(s, es[0]); Follows(Step(s, es[0]), es[1..], DrainRegistry.Replay(l, ops[0]), ops[1..]))
  }

  lemma {:induction false} RunIsTracked(s: Host, es: seq<Event>, l: Ledger)
    requires Owned(s) && Numbered(l) && Pending(l) == s.drains
    ensures exists ops :: Follows(s, es, l, ops)
    decreases es
  {
    hide PoolOwned, TurnsPooled, LatchesOwned, MutationsSerial, LaunchesResolve, DrainsHonest, Wf, Step, Numbered;
    hide OpsOf;
    if es == [] {
      assert Follows(s, es, l, []);
    } else {
      var s' := Step(s, es[0]);
      StepKeepsOwned(s, es[0]);
      StepIsTracked(s, es[0], l);
      var first :| Reaches(l, s', es[0], first, s'.drains);
      RunIsTracked(s', es[1..], DrainRegistry.Replay(l, first));
      var rest :| Follows(s', es[1..], DrainRegistry.Replay(l, first), rest);
      assert ([first] + rest)[1..] == rest;
      assert Follows(s, es, l, [first] + rest);
    }
  }

  /**
   * Over every run from the creation of the host, a run of its registry holds exactly the host's
   * pending checkpoints after each event, starting them only for agents under their own session
   * and dropping them only when they settle.
   */
  lemma HostDrainsAreTracked(key: Key, spawns: bool, transcripts: set<Key>, es: seq<Event>)
    ensures Owned(NewHost(key, spawns, transcripts))
    ensures exists ops :: Follows(NewHost(key, spawns, transcripts), es, DrainRegistry.NewLedger(), ops)
  {
    HostRuns.NewHostOwned(key, spawns, transcripts);
    RunIsTracked(NewHost(key, spawns, transcripts), es, DrainRegistry.NewLedger());
  }

  /** The tenant switch asks for its replacement exactly when a look of its `awaitAllDrains` finds nothing pending. */
  lemma ReplacementAwaitsAll(s: Host, l: Ledger)
    requires Owned(s) && s.mutations != [] && s.mutations[0].phase.DrainingPool? && Pending(l) == s.drains
    ensures RequestReplacement(s).mutations[0].phase.Replacing? <==> DrainRegistry.Look(l).wait.Over?
  {
    if l.origin.Keys != {} {
      var p :| p in l.origin.Keys;
      assert l.origin[p] in l.origin.Values;
    }
    hide PoolOwned, TurnsPooled, LatchesOwned, MutationsSerial, LaunchesResolve, DrainsHonest, Wf;
  }
}
