/**
 * Safety over whole runs of the session host: every finite sequence of events, in any order,
 * from a freshly created host.
 */
module HostRuns {
  import opened Common
  import opened HostModel
  import opened HostInvariants
  import opened HostSteps
  import opened HostConversations
  import opened HostQueue
  import opened HostInputs

  /** The host after the events have happened one after the other. */
  ghost function Run(s: Host, es: seq<Event>): (r: Host)
    requires Owned(s)
    ensures Owned(r)
    decreases es
  {
    if es == [] then s
    else
      StepKeepsOwned(s, es[0]);
      Run(Step(s, es[0]), es[1..])
  }

  lemma NewHostOwned(key: Key, spawns: bool, transcripts: set<Key>)
    ensures var s := NewHost(key, spawns, transcripts);
      Owned(s) && Conversations(s) && Fifo(s) && ViewedPooled(s) && Clean(s, HOME)
  {
    var s := NewHost(key, spawns, transcripts);
    assert PendingSwitches(s) == {};
  }

  /** The events from the creation of a host on. */
  ghost function FromStart(key: Key, spawns: bool, transcripts: set<Key>, es: seq<Event>): (r: Host)
    ensures Owned(r)
  {
    NewHostOwned(key, spawns, transcripts);
    Run(NewHost(key, spawns, transcripts), es)
  }

  lemma {:induction false} RunAppend(s: Host, a: seq<Event>, b: seq<Event>)
    requires Owned(s)
    ensures Run(s, a + b) == Run(Run(s, a), b)
    decreases a
  {
    if a == [] {
      assert a + b == b;
    } else {
      StepKeepsOwned(s, a[0]);
      assert (a + b)[1..] == a[1..] + b;
      RunAppend(Step(s, a[0]), a[1..], b);
    }
  }

  // ---------------------------------------------------------------------------------------
  // Turns, tenants and learning bindings
  // ---------------------------------------------------------------------------------------

  /** Each session has at most one turn in flight, on a pooled runtime whose latch that turn holds. */
  lemma TurnsExclude(s: Host, es: seq<Event>, t: TaskId, u: TaskId)
    requires Owned(s)
    requires var r := Run(s, es);
      t < |r.tasks| && u < |r.tasks| && InFlight(r.tasks[t]) && InFlight(r.tasks[u])
    ensures var r := Run(s, es);
      && (r.tasks[t].key == r.tasks[u].key || r.tasks[t].rt == r.tasks[u].rt ==> t == u)
      && r.tasks[t].key in r.pool && r.pool[r.tasks[t].key] == r.tasks[t].rt
      && r.runtimes[r.tasks[t].rt].turn == Some(t)
  {
    LatchOf(Run(s, es), t);
    LatchOf(Run(s, es), u);
  }

  /** No two sessions share an agent, and a pooled agent bears the key it is pooled under. */
  lemma PoolIsInjective(s: Host, es: seq<Event>, k: Key, l: Key)
    requires Owned(s)
    requires var r := Run(s, es); k in r.pool && l in r.pool
    ensures var r := Run(s, es);
      r.runtimes[r.pool[k]].agent.sessionKey == k && (r.pool[k] == r.pool[l] ==> k == l)
  {}

  lemma FocusNeverReplaces(s: Host, switch: Switch)
    requires Owned(s) && s.mutations != [] && s.mutations[0].phase.Waiting?
    ensures !ReplacingHead(Focus(s, switch))
  {
    HeadFacts(s);
    ViewKeepsOwned(s, switch.target);
    PassiveExternal(s.(activeKey := switch.target), switch.target);
    hide Wf, PoolOwned, TurnsPooled, LatchesOwned, MutationsSerial, DrainsHonest, LaunchesResolve, DeliverExternal;
  }

  predicate ReplacingHead(s: Host) {
    s.mutations != [] && s.mutations[0].phase.Replacing?
  }

  /** Only the drained tenant switch asks for a replacement. */
  lemma ReplacingOnlyAfterDrain(s: Host, e: Event)
    requires Owned(s)
    ensures ReplacingHead(Step(s, e)) ==>
      || ReplacingHead(s)
      || (e.PoolDrained? && s.mutations != [] && s.mutations[0].phase.DrainingPool? && s.drains == {})
  {
    hide Wf, PoolOwned, TurnsPooled, LatchesOwned, MutationsSerial, DrainsHonest, LaunchesResolve;
    hide DeliverInput, DeliverPeer, WakePeer, AutoResume, PublishExternal, BeginReviewed, Reserve, StartTurn;
    hide PolicyReturn, FinishTurn, IntentReturn;
    StepQueue(s, e);
    if !HeadEvent(e) {
      hide Step;
    } else if s.mutations != [] {
      HeadFacts(s);
      if e.HeadStarts? {
        hide Focus;
        StartNeverReplaces(s, e.uuids);
      } else if e.TargetDrained? && s.mutations[0].phase.AwaitingTarget? {
        hide Install;
        InstallSettles(s, e.install);
      }
    }
  }

  lemma InstallSettles(s: Host, outcome: InstallOutcome)
    requires Owned(s) && s.mutations != [] && s.mutations[0].phase.AwaitingTarget?
    ensures Install(s, outcome) == s || Install(s, outcome).mutations == s.mutations[1..]
  {
    InstallMoves(s, outcome);
    var p := s.mutations[0].phase;
    if p.reused.Some? {
      RetargetMoves(s, p.reused.value, p.switch, outcome);
    } else {
      SpawnKeepsOwned(s, FreshRuntime(p.switch.target));
      RetargetMoves(s.(runtimes := s.runtimes + [FreshRuntime(p.switch.target)]), |s.runtimes|, p.switch, outcome);
    }
    hide Retarget, PoolOwned, TurnsPooled, LatchesOwned, MutationsSerial, DrainsHonest, LaunchesResolve, Wf;
  }

  lemma StartNeverReplaces(s: Host, uuids: seq<string>)
    requires Owned(s) && s.mutations != []
    ensures s.mutations[0].phase.Waiting? ==> !ReplacingHead(StartHead(s, uuids))
  {
    hide Wf, PoolOwned, TurnsPooled, LatchesOwned, MutationsSerial, DrainsHonest, LaunchesResolve, Focus;
    if s.mutations[0].phase.Waiting? {
      HeadFacts(s);
      var minted := Mint(s, uuids, MINT_ATTEMPTS);
      match s.mutations[0].request {
        case NewSession => if minted.Some? { FocusNeverReplaces(s, Switch(minted.value, FreshStart)); }
        case ResumeSession(key) =>
          FocusNeverReplaces(s, Switch(key, LazyResume));
          FocusNeverReplaces(s, Switch(key, FreshStart));
        case DeferredSwitch(switch) => FocusNeverReplaces(s, switch);
        case _ =>
      }
    }
  }

  /** `createReplacement` is called with no turn in flight anywhere, the pool emptied and no checkpoint pending. */
  lemma ReplacementBetweenTurns(s: Host, es: seq<Event>, e: Event)
    requires Owned(s) && !ReplacingHead(Run(s, es)) && ReplacingHead(Step(Run(s, es), e))
    ensures var r := Run(s, es);
      && NoTurnInFlight(r) && NoTurnInFlight(Step(r, e))
      && r.drains == {} && r.tenantRebinding && Step(r, e).pool == map[]
  {
    var r := Run(s, es);
    ReplacingOnlyAfterDrain(r, e);
    assert PhaseHolds(r, r.mutations[0]);
  }

  /** The learning mutation waits while a turn is in flight, and then binds the whole pool at once. */
  lemma LearningBetweenTurns(s: Host, es: seq<Event>)
    requires Owned(s)
    requires var r := Run(s, es); r.mutations != [] && r.mutations[0].phase.AwaitingIdle?
    ensures var r := Run(s, es); var r' := Step(r, LearningPoll);
      && |r'.runtimes| == |r.runtimes|
      && (NoTurnInFlight(r) ==> r'.mutations == r.mutations[1..] && forall k <- r.pool ::
          r'.runtimes[r.pool[k]].agent.learning == r.mutations[0].phase.binding)
      && (!NoTurnInFlight(r) ==> r' == r)
      && r.mutations[0].request == BindLearning(r.mutations[0].phase.binding)
  {
    var r := Run(s, es);
    assert PhaseHolds(r, r.mutations[0]);
    if !PoolRunning(r) {
      QuietPoolHasNoTurn(r);
    } else {
      var k :| k in r.pool && r.runtimes[r.pool[k]].Running();
      assert InFlight(r.tasks[r.runtimes[r.pool[k]].turn.value]);
    }
  }

  /**
   * An agent is given another session only while it is out of the pool, runs no turn, and has no
   * checkpoint pending; and no checkpoint of the target session is pending either.
   */
  lemma RetargetOnlyAtRest(s: Host, es: seq<Event>, e: Event, id: RuntimeId)
    requires Owned(s)
    requires var r := Run(s, es);
      id < |r.runtimes| && id < |Step(r, e).runtimes|
      && Step(r, e).runtimes[id].agent.sessionKey != r.runtimes[id].agent.sessionKey
    ensures var r := Run(s, es);
      && Unpooled(r, id) && r.runtimes[id].turn == None
      && (forall t :: 0 <= t < |r.tasks| && InFlight(r.tasks[t]) ==> r.tasks[t].rt != id)
      && (forall d <- r.drains :: d.rt != id && d.key != Step(r, e).runtimes[id].agent.sessionKey)
  {
    var r := Run(s, es);
    KeyChangesOnlyAtInstall(r, e, id);
    var p := r.mutations[0].phase;
    assert PhaseHolds(r, r.mutations[0]);
    if r.runtimes[id].turn.Some? { LatchOf(r, r.runtimes[id].turn.value); }
    forall t | 0 <= t < |r.tasks| && InFlight(r.tasks[t]) ensures r.tasks[t].rt != id { LatchOf(r, t); }
    assert DrainsFor(r, p.switch.target) == {};
    assert forall d <- r.drains :: d.key == p.switch.target ==> d in DrainsFor(r, p.switch.target);
  }

  /** Neither beginning a turn, nor the disk, nor the tenant switch touches an existing agent's key or binding. */
  lemma BeginKeys(s: Host, e: Event, id: RuntimeId)
    requires Owned(s) && id < |s.runtimes|
    requires BeginsTurn(s, e) || TouchesDisk(e) || e.PoolDrained? || e.ReplacementReturned?
    ensures id < |Step(s, e).runtimes|
    ensures Step(s, e).runtimes[id].agent.sessionKey == s.runtimes[id].agent.sessionKey
    ensures Step(s, e).runtimes[id].agent.learning == s.runtimes[id].agent.learning
  {
    hide PoolOwned, TurnsPooled, LatchesOwned, MutationsSerial, DrainsHonest, StartHead, Install, PollTurns, Abandon;
    hide DeliverInput, DeliverPeer, WakePeer, AutoResume, PublishExternal, BeginReviewed, Reserve, StartTurn;
    hide FinishTurn, IntentReturn, ParkedCurrent, PollLearning;
  }

  /** The only step that rewrites an agent's key, and the only event that changes a binding. */
  lemma KeyChangesOnlyAtInstall(s: Host, e: Event, id: RuntimeId)
    requires Owned(s) && id < |s.runtimes|
    ensures id < |Step(s, e).runtimes|
    ensures Step(s, e).runtimes[id].agent.sessionKey != s.runtimes[id].agent.sessionKey ==>
      && e.TargetDrained? && s.mutations != [] && s.mutations[0].phase.AwaitingTarget?
      && s.mutations[0].phase.reused == Some(id) && s.mutations[0].phase.snapshot !! s.drains
      && Step(s, e).runtimes[id].agent.sessionKey == s.mutations[0].phase.switch.target
    ensures !e.LearningPoll? ==> Step(s, e).runtimes[id].agent.learning == s.runtimes[id].agent.learning
  {
    hide PoolOwned, TurnsPooled, LatchesOwned, MutationsSerial, DrainsHonest, StartHead, Install;
    if BeginsTurn(s, e) || TouchesDisk(e) || e.PoolDrained? || e.ReplacementReturned? {
      BeginKeys(s, e, id);
      hide Step;
    } else if !MovesSessions(e) {
      StepOrdinary(s, e);
      hide Step;
    } else if e.HeadStarts? && s.mutations != [] && s.mutations[0].phase.Waiting? {
      StartHeadKeys(s, e.uuids, id);
    } else if e.TargetDrained? && s.mutations != [] && s.mutations[0].phase.AwaitingTarget? {
      InstallKeys(s, e.install, id);
    }
  }

  lemma ExternalKeys(s: Host, key: Key, id: RuntimeId)
    requires Wf(s) && id < |s.runtimes|
    ensures |DeliverExternal(s, key).runtimes| == |s.runtimes|
    ensures DeliverExternal(s, key).runtimes[id].agent.sessionKey == s.runtimes[id].agent.sessionKey
    ensures DeliverExternal(s, key).runtimes[id].agent.learning == s.runtimes[id].agent.learning
  {
    PassiveExternal(s, key);
    ExternalOrdinary(s, key);
    hide DeliverExternal;
  }

  lemma FocusKeys(s: Host, switch: Switch, id: RuntimeId)
    requires Wf(s) && s.mutations != [] && id < |s.runtimes|
    ensures |Focus(s, switch).runtimes| == |s.runtimes|
    ensures Focus(s, switch).runtimes[id].agent.sessionKey == s.runtimes[id].agent.sessionKey
    ensures Focus(s, switch).runtimes[id].agent.learning == s.runtimes[id].agent.learning
  {
    ExternalKeys(s.(activeKey := switch.target), switch.target, id);
    hide DeliverExternal, Wf;
  }

  lemma StartHeadKeys(s: Host, uuids: seq<string>, id: RuntimeId)
    requires Wf(s) && s.mutations != [] && s.mutations[0].phase.Waiting? && id < |s.runtimes|
    ensures |StartHead(s, uuids).runtimes| == |s.runtimes|
    ensures StartHead(s, uuids).runtimes[id].agent.sessionKey == s.runtimes[id].agent.sessionKey
    ensures StartHead(s, uuids).runtimes[id].agent.learning == s.runtimes[id].agent.learning
  {
    hide Wf, Focus;
    var minted := Mint(s, uuids, MINT_ATTEMPTS);
    match s.mutations[0].request {
      case NewSession => if minted.Some? { FocusKeys(s, Switch(minted.value, FreshStart), id); }
      case ResumeSession(key) =>
        FocusKeys(s, Switch(key, LazyResume), id);
        FocusKeys(s, Switch(key, FreshStart), id);
      case DeferredSwitch(switch) => FocusKeys(s, switch, id);
      case _ =>
    }
  }

  lemma RetargetKeys(s: Host, rt: RuntimeId, switch: Switch, outcome: InstallOutcome, id: RuntimeId)
    requires Wf(s) && s.mutations != [] && rt < |s.runtimes| && id < |s.runtimes|
    ensures |Retarget(s, rt, switch, outcome).runtimes| == |s.runtimes|
    ensures Retarget(s, rt, switch, outcome).runtimes[id].agent.sessionKey ==
      if id == rt then switch.target else s.runtimes[id].agent.sessionKey
    ensures Retarget(s, rt, switch, outcome).runtimes[id].agent.learning == s.runtimes[id].agent.learning
  {
    var s1 := SetRuntime(s, rt, Retargeted(s.runtimes[rt], switch))
      .(pool := s.pool[switch.target := rt], activeKey := switch.target);
    ExternalKeys(s1, switch.target, id);
    hide Wf, DeliverExternal;
  }

  lemma InstallKeys(s: Host, outcome: InstallOutcome, id: RuntimeId)
    requires Owned(s) && s.mutations != [] && s.mutations[0].phase.AwaitingTarget? && id < |s.runtimes|
    ensures id < |Install(s, outcome).runtimes|
    ensures Install(s, outcome).runtimes[id].agent.sessionKey ==
      if s.mutations[0].phase.reused == Some(id) && s.mutations[0].phase.snapshot !! s.drains
      then s.mutations[0].phase.switch.target else s.runtimes[id].agent.sessionKey
    ensures Install(s, outcome).runtimes[id].agent.learning == s.runtimes[id].agent.learning
  {
    hide Retarget, PoolOwned, TurnsPooled, LatchesOwned, MutationsSerial, DrainsHonest, LaunchesResolve;
    var p := s.mutations[0].phase;
    if p.reused.Some? {
      RetargetKeys(s, p.reused.value, p.switch, outcome, id);
    } else {
      SpawnKeepsOwned(s, FreshRuntime(p.switch.target));
      var s1 := s.(runtimes := s.runtimes + [FreshRuntime(p.switch.target)]);
      RetargetKeys(s1, |s.runtimes|, p.switch, outcome, id);
    }
  }

  /**
   * Over every run, whatever the event: a binding that changes does so in a state with no turn in
   * flight anywhere, by the learning mutation at the head of the queue, and then every pooled agent
   * has the binding that mutation asked for.
   */
  lemma BindingChangesOnlyBetweenTurns(s: Host, es: seq<Event>, e: Event, id: RuntimeId)
    requires Owned(s)
    requires var r := Run(s, es);
      id < |r.runtimes| && id < |Step(r, e).runtimes|
      && Step(r, e).runtimes[id].agent.learning != r.runtimes[id].agent.learning
    ensures var r := Run(s, es); var r' := Step(r, e);
      && e.LearningPoll? && NoTurnInFlight(r) && NoTurnInFlight(r') && id in r.pool.Values
      && r.mutations != [] && r.mutations[0].request == BindLearning(r'.runtimes[id].agent.learning)
      && r'.pool == r.pool
      && forall k <- r.pool :: r'.runtimes[r.pool[k]].agent.learning == r'.runtimes[id].agent.learning
  {
    KeyChangesOnlyAtInstall(Run(s, es), e, id);
    LearningBetweenTurns(s, es);
  }

  // ---------------------------------------------------------------------------------------
  // Conversations, order and the viewed session
  // ---------------------------------------------------------------------------------------

  /** Every run of the host, whatever happens to the transcripts, keeps parked histories at home. */
  lemma {:induction false} RunKeepsParked(s: Host, es: seq<Event>)
    requires Owned(s) && ParkedOwn(s)
    ensures ParkedOwn(Run(s, es))
    decreases es
  {
    if es != [] {
      StepKeepsParked(s, es[0]);
      RunKeepsParked(Step(s, es[0]), es[1..]);
    }
  }

  /** In every run a pooled runtime has its own session's history parked, or none; a running one has none. */
  lemma ParkedInEveryRun(key: Key, spawns: bool, transcripts: set<Key>, es: seq<Event>)
    ensures ParkedOwn(FromStart(key, spawns, transcripts, es))
  {
    NewHostOwned(key, spawns, transcripts);
    RunKeepsParked(NewHost(key, spawns, transcripts), es);
  }

  /**
   * In every run: the memory a turn is called with is its session's own exactly when a parked
   * transcript can be read at that moment, or nothing foreign was remembered before.
   */
  lemma TurnStartsOwnExactly(key: Key, spawns: bool, transcripts: set<Key>, es: seq<Event>, t: TaskId)
    requires var r := FromStart(key, spawns, transcripts, es); t < |r.tasks| && r.tasks[t].Validating?
    ensures var r := FromStart(key, spawns, transcripts, es);
      var k, rt := r.tasks[t].key, r.runtimes[r.tasks[t].rt];
      && BeginRun(r, t).runtimes[r.tasks[t].rt].agent.history == LoadedHistory(r, rt) + {k}
      && (LoadedHistory(r, rt) <= {k}
          <==> (rt.pendingHistoryKey.Some? && k in r.transcripts) || rt.agent.history <= {k})
  {
    ParkedInEveryRun(key, spawns, transcripts, es);
    OwnHistoryExactly(FromStart(key, spawns, transcripts, es), t);
  }

  lemma RunPrefix(s: Host, es: seq<Event>, m: nat)
    requires Owned(s) && 0 < m <= |es|
    ensures Owned(Step(s, es[0])) && Run(s, es[..m]) == Run(Step(s, es[0]), es[1..][..m - 1])
  {
    StepKeepsOwned(s, es[0]);
    assert es[..m][1..] == es[1..][..m - 1];
  }

  /** The property holds at every point of the run. */
  ghost predicate Always(s: Host, es: seq<Event>, p: Host -> bool)
    requires Owned(s)
  {
    forall m :: 0 <= m <= |es| ==> p(Run(s, es[..m]))
  }

  lemma AlwaysUnfolds(s: Host, es: seq<Event>, p: Host -> bool)
    requires Owned(s)
    ensures es == [] ==> (Always(s, es, p) <==> p(s))
    ensures es != [] ==> Owned(Step(s, es[0]))
    ensures es != [] ==> (Always(s, es, p) <==> p(s) && Always(Step(s, es[0]), es[1..], p))
    ensures Always(s, es, p) ==> p(s)
  {
    hide Step, PoolOwned, TurnsPooled, LatchesOwned, MutationsSerial, DrainsHonest, Wf;
    assert es[..0] == [];
    if es != [] {
      StepKeepsOwned(s, es[0]);
      var s1 := Step(s, es[0]);
      forall m | Always(s, es, p) && 0 <= m <= |es[1..]| ensures p(Run(s1, es[1..][..m])) {
        RunPrefix(s, es, m + 1);
        assert p(Run(s, es[..m + 1]));
      }
      forall m | p(s) && Always(s1, es[1..], p) && 0 <= m <= |es| ensures p(Run(s, es[..m])) {
        if m > 0 { RunPrefix(s, es, m); }
      }
    }
  }

  ghost predicate Apart(s: Host) {
    Wf(s) && Isolated(s)
  }

  /** No turn of the run is called with its parked transcript gone and another session's memory. */
  ghost predicate NeverLeaks(s: Host, es: seq<Event>)
    requires Owned(s)
    decreases es
  {
    es == [] || (!Leaks(s, es[0]) && (StepKeepsOwned(s, es[0]); NeverLeaks(Step(s, es[0]), es[1..])))
  }

  lemma {:induction false} IsolatedExactly(s: Host, es: seq<Event>)
    requires Owned(s) && ParkedOwn(s) && Isolated(s)
    ensures Always(s, es, Apart) <==> NeverLeaks(s, es)
    decreases es
  {
    hide Step, Leaks, Isolated, ParkedOwn, PoolOwned, TurnsPooled, LatchesOwned, MutationsSerial, DrainsHonest, Wf;
    hide Always;
    AlwaysUnfolds(s, es, Apart);
    if es != [] {
      var s1 := Step(s, es[0]);
      StepKeepsParked(s, es[0]);
      StepIsolatedExactly(s, es[0]);
      if Isolated(s1) { IsolatedExactly(s1, es[1..]); } else { AlwaysUnfolds(s1, es[1..], Apart); }
    }
  }

  ghost predicate NeverLeaksFromStart(key: Key, spawns: bool, transcripts: set<Key>, es: seq<Event>) {
    NewHostOwned(key, spawns, transcripts);
    NeverLeaks(NewHost(key, spawns, transcripts), es)
  }

  /** Memories stay apart throughout a run exactly when none of its turns leaks. */
  lemma MemoriesApartExactly(key: Key, spawns: bool, transcripts: set<Key>, es: seq<Event>)
    ensures (forall m :: 0 <= m <= |es| ==> Isolated(FromStart(key, spawns, transcripts, es[..m])))
      <==> NeverLeaksFromStart(key, spawns, transcripts, es)
  {
    hide Isolated, ParkedOwn, PoolOwned, TurnsPooled, LatchesOwned, MutationsSerial, DrainsHonest, Wf;
    NewHostApart(key, spawns, transcripts);
    var s := NewHost(key, spawns, transcripts);
    IsolatedExactly(s, es);
    forall m | 0 <= m <= |es|
      ensures Isolated(FromStart(key, spawns, transcripts, es[..m])) <==> Apart(Run(s, es[..m]))
    {
      assert FromStart(key, spawns, transcripts, es[..m]) == Run(s, es[..m]);
    }
  }

  lemma NewHostApart(key: Key, spawns: bool, transcripts: set<Key>)
    ensures var s := NewHost(key, spawns, transcripts); Owned(s) && ParkedOwn(s) && Isolated(s)
  {
    NewHostOwned(key, spawns, transcripts);
  }

  /** Over every run without a leaking turn, a running agent remembers its own session only. */
  lemma ConversationsStayApart(key: Key, spawns: bool, transcripts: set<Key>, es: seq<Event>, t: TaskId)
    requires NeverLeaksFromStart(key, spawns, transcripts, es)
    requires var r := FromStart(key, spawns, transcripts, es); t < |r.tasks| && r.tasks[t].Running?
    ensures var r := FromStart(key, spawns, transcripts, es);
      r.runtimes[r.tasks[t].rt].agent.history <= {r.tasks[t].key} && r.tasks[t].sk == r.tasks[t].key
  {
    MemoriesApartExactly(key, spawns, transcripts, es);
    ParkedInEveryRun(key, spawns, transcripts, es);
    assert es[..|es|] == es;
    RunningTurnIsIsolated(FromStart(key, spawns, transcripts, es), t);
  }

  /** No event deletes a transcript that a parked history or a pending resume still needs. */
  ghost predicate KeepsTranscripts(s: Host, es: seq<Event>)
    requires Owned(s)
    decreases es
  {
    es == [] ||
    (&& (es[0].TranscriptLost? ==> !Needed(s, es[0].key))
     && (StepKeepsOwned(s, es[0]); KeepsTranscripts(Step(s, es[0]), es[1..])))
  }

  /** A run that keeps needed transcripts has no leaking turn. */
  lemma {:induction false} KeptTranscriptsNeverLeak(s: Host, es: seq<Event>)
    requires Owned(s) && Conversations(s) && KeepsTranscripts(s, es)
    ensures NeverLeaks(s, es) && Conversations(Run(s, es))
    decreases es
  {
    hide Step, Leaks, Conversations, Needed;
    if es != [] {
      StepKeepsOwned(s, es[0]);
      StepConversationsExactly(s, es[0]);
      assert !Leaks(s, es[0]) by { ConversationsNeverLeak(s, es[0]); }
      KeptTranscriptsNeverLeak(Step(s, es[0]), es[1..]);
    }
  }

  lemma ConversationsNeverLeak(s: Host, e: Event)
    requires Owned(s) && Conversations(s)
    ensures !Leaks(s, e)
  {
    ReadableNeverLeaks(s, e);
  }

  lemma {:induction false} RunKeepsFifo(s: Host, es: seq<Event>)
    requires Owned(s) && Fifo(s)
    ensures Fifo(Run(s, es)) && s.submitted <= Run(s, es).submitted && s.settled <= Run(s, es).settled
    decreases es
  {
    if es != [] {
      StepKeepsOwned(s, es[0]);
      StepKeepsFifo(s, es[0]);
      RunKeepsFifo(Step(s, es[0]), es[1..]);
    }
  }

  /**
   * Mutations run one at a time in submission order, failed ones included: whichever has begun is
   * the oldest unsettled submission, and the queue length counts the unsettled ones.
   */
  lemma MutationsRunInOrder(s: Host, es: seq<Event>, i: nat)
    requires Owned(s) && Fifo(s)
    requires var r := Run(s, es); i < |r.mutations| && !r.mutations[i].phase.Waiting?
    ensures var r := Run(s, es);
      && i == 0 && r.settled < |r.submitted| && r.mutations[0].request == r.submitted[r.settled]
      && |r.mutations| == |r.submitted| - r.settled
  {
    RunKeepsFifo(s, es);
  }

  /** No event of the run is one of the two stranding failures. */
  ghost predicate NeverStrands(s: Host, es: seq<Event>)
    requires Owned(s)
    decreases es
  {
    es == [] || (!Strands(s, es[0]) && (StepKeepsOwned(s, es[0]); NeverStrands(Step(s, es[0]), es[1..])))
  }

  /** Throughout a run the viewed session is unpooled only while a mutation holds it, exactly if nothing strands it. */
  lemma {:induction false} ViewedExactly(s: Host, es: seq<Event>)
    requires Owned(s) && ViewedPooled(s)
    ensures Always(s, es, ViewedPooled) <==> NeverStrands(s, es)
    decreases es
  {
    hide Step, Strands, ViewedPooled, PoolOwned, TurnsPooled, LatchesOwned, MutationsSerial, DrainsHonest, Wf, Always;
    AlwaysUnfolds(s, es, ViewedPooled);
    if es != [] {
      var s1 := Step(s, es[0]);
      StepViewed(s, es[0]);
      if ViewedPooled(s1) { ViewedExactly(s1, es[1..]); } else { AlwaysUnfolds(s1, es[1..], ViewedPooled); }
    }
  }

  /** The viewed session is pooled whenever no mutation is outstanding, unless a failure stranded it. */
  lemma {:induction false} ViewedStaysPooled(s: Host, es: seq<Event>)
    requires Owned(s) && ViewedPooled(s) && NeverStrands(s, es)
    ensures ViewedPooled(Run(s, es))
    ensures Run(s, es).mutations == [] ==> Run(s, es).activeKey in Run(s, es).pool
    decreases es
  {
    if es != [] {
      StepKeepsOwned(s, es[0]);
      StepViewed(s, es[0]);
      ViewedStaysPooled(Step(s, es[0]), es[1..]);
    }
  }

  // ---------------------------------------------------------------------------------------
  // Provenance
  // ---------------------------------------------------------------------------------------

  lemma {:induction false} RunKeepsClean(s: Host, es: seq<Event>)
    requires Owned(s) && Clean(s, ANY)
    ensures Clean(Run(s, es), ANY)
    decreases es
  {
    if es != [] {
      StepKeepsOwned(s, es[0]);
      StepKeepsClean(s, es[0], ANY);
      RunKeepsClean(Step(s, es[0]), es[1..]);
    }
  }

  /** In every run, no peer text is queued as an input, and no turn is called with one as its prompt. */
  lemma PeerTextIsNeverAPrompt(key: Key, spawns: bool, transcripts: set<Key>, es: seq<Event>)
    ensures var r := FromStart(key, spawns, transcripts, es);
      && (forall id, i :: 0 <= id < |r.runtimes| && 0 <= i < |r.runtimes[id].queue| ==>
          r.runtimes[id].queue[i].text.origin != Peer)
      && (forall t :: 0 <= t < |r.tasks| && !r.tasks[t].Done? ==> r.tasks[t].text.origin != Peer)
  {
    NewHostOwned(key, spawns, transcripts);
    var s := NewHost(key, spawns, transcripts);
    assert Clean(s, ANY);
    RunKeepsClean(s, es);
    var r := Run(s, es);
    forall id, i | 0 <= id < |r.runtimes| && 0 <= i < |r.runtimes[id].queue|
      ensures r.runtimes[id].queue[i].text.origin != Peer {
      assert CleanRuntime(r.runtimes[id], ANY);
      assert CleanText(r.runtimes[id].queue[i].text, r.runtimes[id].agent.sessionKey, ANY);
    }
    forall t | 0 <= t < |r.tasks| && !r.tasks[t].Done? ensures r.tasks[t].text.origin != Peer {
      assert CleanTask(r.tasks[t], ANY);
    }
  }

  /** No step of the run hands a runtime with leftover inputs to another session. */
  ghost predicate NeverCarries(s: Host, es: seq<Event>)
    requires Owned(s)
    decreases es
  {
    es == [] || (!Carries(s, es[0]) && (StepKeepsOwned(s, es[0]); NeverCarries(Step(s, es[0]), es[1..])))
  }

  ghost predicate AtHome(s: Host) {
    Clean(s, HOME)
  }

  /** Every input stays with its own session throughout a run exactly when no step carries leftovers over. */
  lemma {:induction false} AtHomeExactly(s: Host, es: seq<Event>)
    requires Owned(s) && Clean(s, HOME)
    ensures Always(s, es, AtHome) <==> NeverCarries(s, es)
    decreases es
  {
    hide Step, Carries, Clean, PoolOwned, TurnsPooled, LatchesOwned, MutationsSerial, DrainsHonest, Wf, Always;
    AlwaysUnfolds(s, es, AtHome);
    if es != [] {
      var s1 := Step(s, es[0]);
      StepAddressedExactly(s, es[0]);
      if Clean(s1, HOME) { AtHomeExactly(s1, es[1..]); } else { AlwaysUnfolds(s1, es[1..], AtHome); }
    }
  }

  /** Every prompt then runs in the session it was addressed to. */
  lemma {:induction false} PromptsStayHome(s: Host, es: seq<Event>)
    requires Owned(s) && Clean(s, HOME) && NeverCarries(s, es)
    ensures Clean(Run(s, es), HOME)
    ensures forall t :: 0 <= t < |Run(s, es).tasks| && Run(s, es).tasks[t].Running? ==>
      Run(s, es).tasks[t].text.addressed == Run(s, es).tasks[t].key
    decreases es
  {
    if es != [] {
      StepKeepsOwned(s, es[0]);
      StepKeepsClean(s, es[0], HOME);
      PromptsStayHome(Step(s, es[0]), es[1..]);
    } else {
      assert forall t :: 0 <= t < |s.tasks| ==> CleanTask(s.tasks[t], HOME);
    }
  }
}
