/**
 * What a resumed session is promised: its transcript is parked when its runtime is installed, stays
 * parked until a turn of it is called, and is loaded by that turn if it can still be read.
 */
module HostResume {
  import opened Common
  import opened HostModel
  import opened HostInvariants
  import opened HostSteps
  import opened HostConversations
  import opened HostQueue
  import opened HostRuns
  import opened HostTasks

  /** The session is pooled with its own transcript parked. */
  ghost predicate Parked(s: Host, k: Key)
    requires Wf(s)
  {
    k in s.pool && s.runtimes[s.pool[k]].pendingHistoryKey == Some(k)
  }

  // ---------------------------------------------------------------------------------------
  // Installing a runtime
  // ---------------------------------------------------------------------------------------

  /** The switch at the head is carried out, rather than waiting on or failing. */
  predicate Lands(s: Host, outcome: InstallOutcome)
    requires s.mutations != [] && s.mutations[0].phase.AwaitingTarget?
  {
    && s.mutations[0].phase.snapshot !! s.drains
    && outcome != ConfigThrew
    && (outcome == SpawnThrew ==> s.mutations[0].phase.reused.Some?)
  }

  /** Extension results and the settled mutation leave pool, view, memories and the new runtime's latch alone. */
  lemma TailKeeps(s: Host, key: Key, id: RuntimeId)
    requires Wf(s) && s.mutations != [] && id < |s.runtimes|
    ensures var s' := Settle(DeliverExternal(s, key));
      && Wf(s') && s'.pool == s.pool && s'.activeKey == s.activeKey && |s'.runtimes| == |s.runtimes|
      && s'.mutations == s.mutations[1..] && (key in s.pool ==> key in s'.inbox ==> s'.inbox[key] == [])
      && SameMemory(s.runtimes[id], s'.runtimes[id]) && s'.runtimes[id].turn == s.runtimes[id].turn
  {
    TailCalm(s, key);
    PassiveExternal(s, key);
    ExternalOrdinary(s, key);
    hide Wf, DeliverExternal;
  }

  lemma RetargetExactly(s: Host, id: RuntimeId, switch: Switch, outcome: InstallOutcome)
    requires Wf(s) && s.mutations != [] && id < |s.runtimes| && switch.target !in s.pool
    ensures var s' := Retarget(s, id, switch, outcome);
      && Wf(s') && |s'.runtimes| == |s.runtimes| && s'.mutations == s.mutations[1..]
      && (outcome == ConfigThrew ==> s'.pool == s.pool)
      && (outcome != ConfigThrew ==>
            && (switch.target in s'.inbox ==> s'.inbox[switch.target] == [])
            && s'.pool == s.pool[switch.target := id] && s'.activeKey == switch.target
            && s'.runtimes[id].pendingHistoryKey == (if switch.init.LazyResume? then Some(switch.target) else None)
            && s'.runtimes[id].agent.history == (if switch.init.LazyResume? then s.runtimes[id].agent.history else {})
            && s'.runtimes[id].agent.sessionKey == switch.target)
  {
    var s1 := SetRuntime(s, id, Retargeted(s.runtimes[id], switch))
      .(pool := s.pool[switch.target := id], activeKey := switch.target);
    assert Wf(s1);
    TailKeeps(s1, switch.target, id);
    hide DeliverExternal;
  }

  lemma TargetUnpooled(s: Host)
    requires Owned(s) && s.mutations != [] && s.mutations[0].phase.AwaitingTarget?
    ensures var p := s.mutations[0].phase;
      p.switch.target !in s.pool && (p.reused.Some? ==> p.reused.value < |s.runtimes|)
  {
    assert PhaseHolds(s, s.mutations[0]);
  }

  /**
   * The end of a switch, once the awaited checkpoints are done: the mutation is over, and unless that
   * failed, on a reused runtime and on a spawned one alike, the target is pooled and viewed with its
   * transcript parked exactly for a resume, with no memory after a fresh start, and with no extension
   * result left undelivered.
   */
  lemma InstallExactly(s: Host, outcome: InstallOutcome)
    requires Owned(s) && s.mutations != [] && s.mutations[0].phase.AwaitingTarget?
    ensures var p, s' := s.mutations[0].phase, Install(s, outcome); var k := p.switch.target;
      && Wf(s') && (!Lands(s, outcome) ==> s'.pool == s.pool)
      && (if p.snapshot !! s.drains then s'.mutations == s.mutations[1..] else s' == s)
      && (Lands(s, outcome) ==>
            && s'.pool == s.pool[k := if p.reused.Some? then p.reused.value else |s.runtimes|] && s'.activeKey == k
            && s'.runtimes[s'.pool[k]].agent.sessionKey == k
            && (Parked(s', k) <==> p.switch.init.LazyResume?)
            && (k in s'.inbox ==> s'.inbox[k] == [])
            && (p.switch.init.FreshStart? ==>
                  s'.runtimes[s'.pool[k]].agent.history == {} && s'.runtimes[s'.pool[k]].pendingHistoryKey == None))
  {
    hide Retarget, PoolOwned, TurnsPooled, LatchesOwned, MutationsSerial, DrainsHonest, LaunchesResolve, Wf;
    var p := s.mutations[0].phase;
    TargetUnpooled(s);
    SettleWf(s);
    if p.reused.Some? {
      RetargetExactly(s, p.reused.value, p.switch, outcome);
    } else {
      SpawnKeepsOwned(s, FreshRuntime(p.switch.target));
      RetargetExactly(s.(runtimes := s.runtimes + [FreshRuntime(p.switch.target)]), |s.runtimes|, p.switch, outcome);
    }
  }

  /** A reused runtime waits for its own checkpoint, and then for those of the target session. */
  lemma ParkingEndsExactly(s: Host)
    requires Owned(s) && s.mutations != [] && s.mutations[0].phase.ParkingCurrent?
    ensures var p, s' := s.mutations[0].phase, Step(s, CurrentDrained);
      if Drain(p.rt, s.runtimes[p.rt].agent.sessionKey) in s.drains then s' == s
      else
        var next := AwaitingTarget(Some(p.rt), p.switch, set d <- s.drains | d.key == p.switch.target);
        s' == s.(mutations := s.mutations[0 := Mutation(s.mutations[0].request, next)])
  {
    hide PoolOwned, TurnsPooled, LatchesOwned, MutationsSerial, DrainsHonest, LaunchesResolve;
  }

  /** The tenant's replacement is pooled alone, with its transcript parked exactly when there is one. */
  lemma ReplacementExactly(s: Host, installed: bool)
    requires Owned(s) && s.mutations != [] && s.mutations[0].phase.Replacing?
    ensures var home, s' := s.mutations[0].phase.home, InstallReplacement(s, installed);
      && Wf(s') && !s'.tenantRebinding && s'.mutations == s.mutations[1..] && (!installed ==> s'.pool == map[])
      && (installed ==>
            && s'.pool == map[home := |s.runtimes|] && s'.activeKey == home
            && s'.runtimes[|s.runtimes|].agent.history == {} && s'.runtimes[|s.runtimes|].agent.sessionKey == home
            && s'.runtimes[|s.runtimes|].pendingHistoryKey == (if home in s.transcripts then Some(home) else None))
  {
    assert s.pool == map[] by { assert PhaseHolds(s, s.mutations[0]); }
    ReplacementKeeps(s, installed);
    hide PoolOwned, TurnsPooled, LatchesOwned, MutationsSerial, DrainsHonest, LaunchesResolve;
  }

  /** A session that was not pooled is pooled now. */
  ghost predicate Installs(s: Host, e: Event, k: Key)
    requires Owned(s)
  {
    k !in s.pool && k in Step(s, e).pool
  }

  /** The event ends a resume, or installs a tenant's replacement that has a transcript. */
  ghost predicate Resumes(s: Host, e: Event, k: Key) {
    && s.mutations != []
    && ((e.TargetDrained? && s.mutations[0].phase.AwaitingTarget?
        && s.mutations[0].phase.switch == Switch(k, LazyResume))
        || (e.ReplacementReturned? && s.mutations[0].phase.Replacing? && k in s.transcripts))
  }

  /** The other runtimes keep their session and what they remember and have parked. */
  lemma RetargetSpares(s: Host, id: RuntimeId, switch: Switch, outcome: InstallOutcome, other: RuntimeId)
    requires Wf(s) && s.mutations != [] && id < |s.runtimes| && other < |s.runtimes| && other != id
    ensures var s' := Retarget(s, id, switch, outcome);
      |s'.runtimes| == |s.runtimes| && SameMemory(s.runtimes[other], s'.runtimes[other])
  {
    var s1 := SetRuntime(s, id, Retargeted(s.runtimes[id], switch))
      .(pool := s.pool[switch.target := id], activeKey := switch.target);
    assert Wf(s1);
    TailKeeps(s1, switch.target, other);
    hide DeliverExternal, Wf;
  }

  lemma InstallSpares(s: Host, outcome: InstallOutcome, other: RuntimeId)
    requires Owned(s) && s.mutations != [] && s.mutations[0].phase.AwaitingTarget? && other < |s.runtimes|
    requires s.mutations[0].phase.reused != Some(other)
    ensures var s' := Install(s, outcome);
      |s.runtimes| <= |s'.runtimes| && SameMemory(s.runtimes[other], s'.runtimes[other])
  {
    hide Retarget, PoolOwned, TurnsPooled, LatchesOwned, MutationsSerial, DrainsHonest, LaunchesResolve;
    var p := s.mutations[0].phase;
    if p.reused.Some? {
      RetargetSpares(s, p.reused.value, p.switch, outcome, other);
    } else {
      SpawnKeepsOwned(s, FreshRuntime(p.switch.target));
      var s1 := s.(runtimes := s.runtimes + [FreshRuntime(p.switch.target)]);
      RetargetSpares(s1, |s.runtimes|, p.switch, outcome, other);
    }
  }

  /** The end of a switch, or a replacement: the only two steps that can add to the pool. */
  predicate AddsSession(s: Host, e: Event) {
    && s.mutations != []
    && ((e.TargetDrained? && s.mutations[0].phase.AwaitingTarget?)
        || (e.ReplacementReturned? && s.mutations[0].phase.Replacing?))
  }

  ghost predicate SubPool(s: Host, s': Host) {
    forall k <- s'.pool :: k in s.pool && s'.pool[k] == s.pool[k]
  }

  lemma BeginKeepsPool(s: Host, e: Event)
    requires Owned(s) && (BeginsTurn(s, e) || TouchesDisk(e))
    ensures Step(s, e).pool == s.pool
    ensures TouchesDisk(e) ==> Step(s, e).runtimes == s.runtimes
  {
    hide Wf, PoolOwned, TurnsPooled, LatchesOwned, MutationsSerial, DrainsHonest, LaunchesResolve;
    hide DeliverInput, DeliverPeer, WakePeer, AutoResume, PublishExternal, BeginReviewed, Reserve, StartTurn, Abandon;
    hide FinishTurn, IntentReturn, StartHead, Install, ParkedCurrent, PollTurns, PollLearning, RequestReplacement;
    hide InstallReplacement, LoadedHistory;
  }

  /** Every other step only drops sessions, and unless it calls a turn it loads and parks nothing. */
  lemma OtherwiseShrinks(s: Host, e: Event)
    requires Owned(s) && !AddsSession(s, e)
    ensures SubPool(s, Step(s, e)) && (!BeginsTurn(s, e) ==> MemoryKept(s, Step(s, e)))
  {
    hide PoolOwned, TurnsPooled, LatchesOwned, MutationsSerial, DrainsHonest, LaunchesResolve, Wf, TasksExtend;
    hide StartHead, Install, RequestReplacement, InstallReplacement, PendingSwitches;
    if BeginsTurn(s, e) || TouchesDisk(e) {
      BeginKeepsPool(s, e);
      hide Step;
    } else if MovesSessions(e) {
      if e.HeadStarts? && s.mutations != [] && s.mutations[0].phase.Waiting? {
        StartHeadCalm(s, e.uuids);
      } else if e.PoolDrained? && s.mutations != [] && s.mutations[0].phase.DrainingPool? {
        RequestCalm(s);
      }
    } else {
      hide Step;
      StepOrdinary(s, e);
    }
  }

  /** A session enters the pool only by the end of its switch or as a replacement, parked exactly if it resumes. */
  lemma InstalledExactly(s: Host, e: Event, k: Key)
    requires Owned(s) && Installs(s, e, k)
    ensures Owned(Step(s, e)) && AddsSession(s, e) && (Parked(Step(s, e), k) <==> Resumes(s, e, k))
    ensures !Parked(Step(s, e), k) ==> Step(s, e).runtimes[Step(s, e).pool[k]].agent.history == {}
    ensures if e.TargetDrained? then s.mutations[0].phase.switch.target == k else s.mutations[0].phase.home == k
  {
    hide PoolOwned, TurnsPooled, LatchesOwned, MutationsSerial, DrainsHonest, LaunchesResolve, Wf;
    hide Install, InstallReplacement;
    StepKeepsOwned(s, e);
    if !AddsSession(s, e) {
      hide Step;
      OtherwiseShrinks(s, e);
    } else if e.TargetDrained? {
      InstallExactly(s, e.install);
    } else {
      EmptyWhileReplacing(s);
      ReplacementExactly(s, e.installed);
    }
  }

  lemma EmptyWhileReplacing(s: Host)
    requires Owned(s) && s.mutations != [] && s.mutations[0].phase.Replacing?
    ensures s.pool == map[]
  {
    assert PhaseHolds(s, s.mutations[0]);
  }

  // ---------------------------------------------------------------------------------------
  // Until the first turn
  // ---------------------------------------------------------------------------------------

  /** The event calls a turn of this session. */
  ghost predicate CallsTurnOf(s: Host, e: Event, k: Key)
    requires Owned(s)
  {
    BeginsTurn(s, e) && s.tasks[e.task].key == k
  }

  lemma OtherTurnKeeps(s: Host, e: Event, k: Key)
    requires Owned(s) && Parked(s, k) && BeginsTurn(s, e) && s.tasks[e.task].key != k
    ensures Owned(Step(s, e)) && Parked(Step(s, e), k) && Step(s, e).pool[k] == s.pool[k]
  {
    LatchOf(s, e.task);
    assert s.tasks[e.task].rt != s.pool[k];
    StepKeepsOwned(s, e);
    hide PoolOwned, TurnsPooled, LatchesOwned, MutationsSerial, DrainsHonest, LaunchesResolve, LoadedHistory;
  }

  /** Whatever happens, a parked session stays parked on its runtime until it leaves the pool or its turn is called. */
  lemma StepStaysParked(s: Host, e: Event, k: Key)
    requires Owned(s) && Parked(s, k)
    ensures Owned(Step(s, e))
    ensures || k !in Step(s, e).pool
            || CallsTurnOf(s, e, k)
            || (Parked(Step(s, e), k) && Step(s, e).pool[k] == s.pool[k])
  {
    hide TurnsPooled, LatchesOwned, DrainsHonest, LaunchesResolve;
    StepKeepsOwned(s, e);
    if BeginsTurn(s, e) {
      if s.tasks[e.task].key != k { OtherTurnKeeps(s, e, k); }
    } else {
      hide Step;
      if !AddsSession(s, e) {
        OtherwiseShrinks(s, e);
      } else {
        AddingKeeps(s, e, k);
      }
    }
  }

  lemma AddingKeeps(s: Host, e: Event, k: Key)
    requires Owned(s) && Parked(s, k) && AddsSession(s, e)
    ensures Owned(Step(s, e)) && Parked(Step(s, e), k) && Step(s, e).pool[k] == s.pool[k]
  {
    hide TurnsPooled, LatchesOwned, DrainsHonest, LaunchesResolve, Install, InstallReplacement;
    StepKeepsOwned(s, e);
    assert PhaseHolds(s, s.mutations[0]);
    if e.TargetDrained? {
      InstallExactly(s, e.install);
      InstallSpares(s, e.install, s.pool[k]);
    }
  }

  /**
   * The turn called on a parked session loads its transcript exactly if it can be read, and then remembers
   * nothing else.
   */
  lemma CallLoads(s: Host, e: Event, k: Key)
    requires Owned(s) && Parked(s, k) && CallsTurnOf(s, e, k)
    ensures var s' := Step(s, e);
      && |s'.tasks| == |s.tasks| && s'.tasks[e.task].Running? && |s'.runtimes| == |s.runtimes|
      && s'.tasks[e.task].loaded == (if k in s.transcripts then Some(k) else None)
      && s'.runtimes[s.pool[k]].agent.history ==
          (if k in s.transcripts then {k} else s.runtimes[s.pool[k]].agent.history + {k})
      && s'.runtimes[s.pool[k]].pendingHistoryKey == None
  {
    LatchOf(s, e.task);
    hide PoolOwned, TurnsPooled, LatchesOwned, MutationsSerial, DrainsHonest, LaunchesResolve;
  }

  /** No event of the run takes the session out of the pool or calls a turn of it. */
  ghost predicate Undisturbed(s: Host, es: seq<Event>, k: Key)
    requires Owned(s)
    decreases es
  {
    es == [] ||
    (&& !CallsTurnOf(s, es[0], k) && k in Step(s, es[0]).pool
     && (StepKeepsOwned(s, es[0]); Undisturbed(Step(s, es[0]), es[1..], k)))
  }

  lemma {:induction false} RunStaysParked(s: Host, es: seq<Event>, k: Key)
    requires Owned(s) && Parked(s, k) && Undisturbed(s, es, k)
    ensures Parked(Run(s, es), k) && Run(s, es).pool[k] == s.pool[k]
    decreases es
  {
    hide Step, CallsTurnOf, PoolOwned, TurnsPooled, LatchesOwned, MutationsSerial, DrainsHonest;
    if es != [] {
      StepStaysParked(s, es[0], k);
      RunStaysParked(Step(s, es[0]), es[1..], k);
    }
  }

  /**
   * Over every run: once a resume or a replacement with a transcript installed its session, reused or
   * spawned, its transcript is parked until the session leaves the pool or a turn of it is called;
   * and that first turn loads it, if it can still be read, and remembers nothing else.
   */
  lemma ResumedSessionLoads(s0: Host, before: seq<Event>, e: Event, during: seq<Event>, call: Event, k: Key)
    requires Owned(s0) && Installs(Run(s0, before), e, k) && Resumes(Run(s0, before), e, k)
    requires Owned(Step(Run(s0, before), e)) && Undisturbed(Step(Run(s0, before), e), during, k)
    ensures var r := Run(Step(Run(s0, before), e), during);
      && r == Run(s0, before + [e] + during)
      && Parked(r, k) && r.pool[k] == Step(Run(s0, before), e).pool[k]
      && (CallsTurnOf(r, call, k) ==>
            && Step(r, call).tasks[call.task].Running?
            && Step(r, call).tasks[call.task].loaded == (if k in r.transcripts then Some(k) else None)
            && (k in r.transcripts ==> Step(r, call).runtimes[r.pool[k]].agent.history == {k}))
  {
    hide Step, CallsTurnOf, Installs, Resumes, PoolOwned, TurnsPooled, LatchesOwned, MutationsSerial, DrainsHonest;
    var r0 := Run(s0, before);
    var r1 := Step(r0, e);
    InstalledExactly(r0, e, k);
    RunStaysParked(r1, during, k);
    RunAppend(s0, before, [e]);
    assert Run(r0, [e]) == Run(r1, []);
    RunAppend(s0, before + [e], during);
    if CallsTurnOf(Run(r1, during), call, k) { CallLoads(Run(r1, during), call, k); }
  }

  // ---------------------------------------------------------------------------------------
  // What a switch will do was decided by the disk
  // ---------------------------------------------------------------------------------------

  /**
   * The mutation that begins asks for this session, which is not pooled: it will be resumed exactly
   * if it has a transcript at this moment, and is otherwise started fresh, which needs an unsaved new key.
   */
  predicate Decides(s: Host, e: Event, w: Switch) {
    && e.HeadStarts? && s.mutations != [] && s.mutations[0].phase.Waiting?
    && w.target !in s.pool
    && (w.init.LazyResume? <==> w.target in s.transcripts)
    && ((s.mutations[0].request == ResumeSession(w.target) && (w.init.LazyResume? || IsUnsavedNew(w.target)))
        || (s.mutations[0].request.NewSession? && Mint(s, e.uuids, MINT_ATTEMPTS) == Some(w.target)))
  }

  lemma {:induction false} MintIsUnused(s: Host, uuids: seq<string>, attempts: nat)
    ensures var m := Mint(s, uuids, attempts); m.Some? ==> m.value !in s.pool && m.value !in s.transcripts
    decreases attempts
  {
    if attempts > 0 && uuids != [] { MintIsUnused(s, uuids[1..], attempts - 1); }
  }

  lemma TailSwitches(s: Host, key: Key)
    requires Wf(s) && s.mutations != []
    ensures PendingSwitches(Settle(DeliverExternal(s, key))) <= PendingSwitches(s)
  {
    PassiveExternal(s, key);
    ExternalOrdinary(s, key);
    SettleOrdinary(DeliverExternal(s, key));
    hide DeliverExternal, Settle, PendingSwitches;
  }

  lemma ViewedSwitches(s: Host, switch: Switch)
    requires Wf(s) && s.mutations != [] && switch.target in s.pool
    ensures PendingSwitches(Focus(s, switch)) <= PendingSwitches(s)
  {
    var s1 := s.(activeKey := switch.target);
    TailSwitches(s1, switch.target);
    assert PendingSwitches(s1) == PendingSwitches(s);
    hide PendingSwitches, DeliverExternal, Settle;
  }

  lemma FocusDecides(s: Host, switch: Switch, w: Switch)
    requires Wf(s) && s.mutations != [] && w in PendingSwitches(Focus(s, switch))
    ensures w in PendingSwitches(s) || (w == switch && switch.target !in s.pool)
  {
    if switch.target in s.pool { ViewedSwitches(s, switch); } else { FocusSwitches(s, switch); }
    hide Focus, PendingSwitches;
  }

  lemma StartHeadDecides(s: Host, uuids: seq<string>, w: Switch)
    requires Wf(s) && s.mutations != [] && s.mutations[0].phase.Waiting? && w in PendingSwitches(StartHead(s, uuids))
    ensures w in PendingSwitches(s) || Decides(s, HeadStarts(uuids), w)
  {
    hide Focus, PendingSwitches, Wf, Calm, Ordinary;
    SettleOrdinarySwitches(s);
    MintIsUnused(s, uuids, MINT_ATTEMPTS);
    match s.mutations[0].request
    case NewSession =>
      var minted := Mint(s, uuids, MINT_ATTEMPTS);
      if minted.Some? { FocusDecides(s, Switch(minted.value, FreshStart), w); }
    case ResumeSession(key) =>
      if key in s.pool || key in s.transcripts { FocusDecides(s, Switch(key, LazyResume), w); }
      else if IsUnsavedNew(key) { FocusDecides(s, Switch(key, FreshStart), w); }
    case DeferredSwitch(switch) =>
      FocusDecides(s, switch, w);
      HeadSwitchPending(s, switch);
    case RebindTenant => RebindStartSwitches(s);
    case BindLearning(binding) => PhaseSwitches(s, AwaitingIdle(binding));
  }

  lemma SettleOrdinarySwitches(s: Host)
    requires s.mutations != []
    ensures PendingSwitches(Settle(s)) <= PendingSwitches(s)
  {
    SettleOrdinary(s);
    hide PendingSwitches, Settle;
  }

  lemma PhaseSwitches(s: Host, p: Phase)
    requires s.mutations != [] && !p.ParkingCurrent? && !p.AwaitingTarget?
    ensures PendingSwitches(SetPhase(s, p)) <= PendingSwitches(s)
  {
    PhaseOrdinary(s, p);
    hide PendingSwitches, SetPhase;
  }

  lemma RebindStartSwitches(s: Host)
    requires s.mutations != []
    ensures PendingSwitches(SetPhase(ClearQueues(s).(tenantRebinding := true, pendingSwitch := None),
      StoppingTurns(s.activeKey))) <= PendingSwitches(s)
  {
    var s1 := ClearQueues(s).(tenantRebinding := true, pendingSwitch := None);
    PhaseSwitches(s1, StoppingTurns(s.activeKey));
    assert PendingSwitches(s1) <= PendingSwitches(s);
    hide PendingSwitches, SetPhase, ClearQueues;
  }

  lemma RetargetSwitches(s: Host, id: RuntimeId, switch: Switch, outcome: InstallOutcome)
    requires Wf(s) && s.mutations != [] && id < |s.runtimes|
    ensures PendingSwitches(Retarget(s, id, switch, outcome)) <= PendingSwitches(s)
  {
    var r := s.runtimes[id];
    var s1 := SetRuntime(s, id, r.(agent := r.agent.(sessionKey := switch.target), pendingHistoryKey := None));
    var s2 := SetRuntime(s, id, Retargeted(r, switch))
      .(pool := s.pool[switch.target := id], activeKey := switch.target);
    assert Wf(s2);
    assert PendingSwitches(s1) == PendingSwitches(s) && PendingSwitches(s2) == PendingSwitches(s);
    SettleOrdinarySwitches(s1);
    TailSwitches(s2, switch.target);
    hide PendingSwitches, Settle, DeliverExternal, Wf;
  }

  lemma InstallSwitches(s: Host, outcome: InstallOutcome)
    requires Owned(s) && s.mutations != [] && s.mutations[0].phase.AwaitingTarget?
    ensures PendingSwitches(Install(s, outcome)) <= PendingSwitches(s)
  {
    hide Retarget, PoolOwned, TurnsPooled, LatchesOwned, MutationsSerial, DrainsHonest, LaunchesResolve, Wf;
    var p := s.mutations[0].phase;
    TargetUnpooled(s);
    SettleOrdinarySwitches(s);
    if p.reused.Some? {
      RetargetSwitches(s, p.reused.value, p.switch, outcome);
    } else {
      SpawnKeepsOwned(s, FreshRuntime(p.switch.target));
      var s1 := s.(runtimes := s.runtimes + [FreshRuntime(p.switch.target)]);
      assert PendingSwitches(s1) == PendingSwitches(s);
      RetargetSwitches(s1, |s.runtimes|, p.switch, outcome);
    }
    hide PendingSwitches, Settle;
  }

  /** A switch that is pending after a step was pending before, or the step decided it. */
  lemma StepDecides(s: Host, e: Event, w: Switch)
    requires Owned(s) && w in PendingSwitches(Step(s, e))
    ensures w in PendingSwitches(s) || Decides(s, e, w)
  {
    hide PoolOwned, TurnsPooled, LatchesOwned, MutationsSerial, DrainsHonest, LaunchesResolve, Wf, Decides;
    hide StartHead, Install, RequestReplacement, InstallReplacement, PendingSwitches;
    if BeginsTurn(s, e) || TouchesDisk(e) {
      BeginSwitches(s, e);
    } else if MovesSessions(e) {
      if s.mutations != [] {
        match e
        case HeadStarts(uuids) => if s.mutations[0].phase.Waiting? { StartHeadDecides(s, uuids, w); }
        case TargetDrained(outcome) => if s.mutations[0].phase.AwaitingTarget? { InstallSwitches(s, outcome); }
        case PoolDrained => if s.mutations[0].phase.DrainingPool? { RequestSwitches(s); }
        case ReplacementReturned(installed) => if s.mutations[0].phase.Replacing? { ReplacementSwitches(s, installed); }
      }
    } else {
      hide Step;
      StepOrdinary(s, e);
    }
  }

  lemma BeginSwitches(s: Host, e: Event)
    requires Owned(s) && (BeginsTurn(s, e) || TouchesDisk(e))
    ensures PendingSwitches(Step(s, e)) == PendingSwitches(s)
  {
    if BeginsTurn(s, e) { BeginRunSwitches(s, e.task); }
    hide Wf, PoolOwned, TurnsPooled, LatchesOwned, MutationsSerial, DrainsHonest, LaunchesResolve, BeginRun;
    hide DeliverInput, DeliverPeer, WakePeer, AutoResume, PublishExternal, BeginReviewed, Reserve, StartTurn, Abandon;
    hide FinishTurn, IntentReturn, StartHead, Install, ParkedCurrent, PollTurns, PollLearning, RequestReplacement;
    hide InstallReplacement;
  }

  lemma RequestSwitches(s: Host)
    requires Wf(s) && s.mutations != [] && s.mutations[0].phase.DrainingPool?
    ensures PendingSwitches(RequestReplacement(s)) <= PendingSwitches(s)
  {
    var s1 := s.(pool := map[]);
    assert PendingSwitches(s1) == PendingSwitches(s);
    PhaseSwitches(s1, Replacing(s.mutations[0].phase.home));
    hide PendingSwitches, SetPhase;
  }

  /** The event begins this switch to a session that is not pooled: one decided now, or one deferred before. */
  predicate BeginsSwitch(s: Host, e: Event, w: Switch) {
    || Decides(s, e, w)
    || (e.HeadStarts? && s.mutations != [] && s.mutations[0].phase.Waiting?
        && s.mutations[0].request == DeferredSwitch(w) && w.target !in s.pool)
  }

  /** The viewed session is pooled and idle, with no steer and no wake pending. */
  predicate ViewedIsFree(s: Host)
    requires Wf(s)
  {
    && s.activeKey in s.pool && s.activeKey !in s.peerWakes
    && s.runtimes[s.pool[s.activeKey]].turn == None && s.runtimes[s.pool[s.activeKey]].agent.steering == []
  }

  lemma FocusExactly(s: Host, w: Switch)
    requires Owned(s) && s.mutations != [] && w.target !in s.pool
    ensures var s', q := Focus(s, w), s.mutations[0].request;
      if ViewedIsFree(s) then
        var id := s.pool[s.activeKey];
        s' == s.(pool := s.pool - {s.activeKey}, drains := s.drains + {Drain(id, s.activeKey)},
          mutations := s.mutations[0 := Mutation(q, ParkingCurrent(id, w))])
      else if s.spawns then
        s' == s.(mutations := s.mutations[0 := Mutation(q, AwaitingTarget(None, w, DrainsFor(s, w.target)))])
      else
        s' == s.(pendingSwitch := Some(w), mutations := s.mutations[1..], settled := s.settled + 1)
  {
    hide TurnsPooled, LatchesOwned, MutationsSerial, DrainsHonest, LaunchesResolve, DeliverExternal;
  }

  lemma SwitchFocuses(s: Host, e: Event, w: Switch)
    requires Owned(s) && BeginsSwitch(s, e, w)
    ensures Step(s, e) == Focus(s, w) && w.target !in s.pool
  {
    MintIsUnused(s, e.uuids, MINT_ATTEMPTS);
    hide PoolOwned, TurnsPooled, LatchesOwned, MutationsSerial, DrainsHonest, LaunchesResolve, Focus, Mint, Wf;
    hide DeliverInput, DeliverPeer, WakePeer, AutoResume, PublishExternal, BeginReviewed, Reserve, StartTurn;
    hide PolicyReturn, FinishTurn, IntentReturn, ParkedCurrent, Install, PollTurns, RequestReplacement;
    hide InstallReplacement, PollLearning;
  }

  /**
   * How a switch begins: the viewed runtime is taken over, with its checkpoint started, exactly if it
   * is pooled and idle, with no steer and no wake pending; otherwise a runtime will be spawned, or,
   * on a host that cannot spawn, the switch is deferred.
   */
  lemma SwitchBeginsExactly(s: Host, e: Event, w: Switch)
    requires Owned(s) && BeginsSwitch(s, e, w)
    ensures var s', q := Step(s, e), s.mutations[0].request;
      if ViewedIsFree(s) then
        var id := s.pool[s.activeKey];
        s' == s.(pool := s.pool - {s.activeKey}, drains := s.drains + {Drain(id, s.activeKey)},
          mutations := s.mutations[0 := Mutation(q, ParkingCurrent(id, w))])
      else if s.spawns then
        s' == s.(mutations := s.mutations[0 := Mutation(q, AwaitingTarget(None, w, DrainsFor(s, w.target)))])
      else
        s' == s.(pendingSwitch := Some(w), mutations := s.mutations[1..], settled := s.settled + 1)
  {
    hide PoolOwned, TurnsPooled, LatchesOwned, MutationsSerial, DrainsHonest, LaunchesResolve, Focus, Step;
    SwitchFocuses(s, e, w);
    FocusExactly(s, w);
  }

  /** A switch to a pooled session just views it, and the mutation is over. */
  lemma RefocusExactly(s: Host, e: Event, k: Key)
    requires Owned(s) && e.HeadStarts? && s.mutations != [] && s.mutations[0].phase.Waiting? && k in s.pool
    requires var q := s.mutations[0].request; q == ResumeSession(k) || (q.DeferredSwitch? && q.switch.target == k)
    ensures var s' := Step(s, e);
      s'.activeKey == k && s'.pool == s.pool && s'.drains == s.drains && s'.mutations == s.mutations[1..]
  {
    ViewKeepsOwned(s, k);
    PassiveExternal(s.(activeKey := k), k);
    hide PoolOwned, TurnsPooled, LatchesOwned, MutationsSerial, DrainsHonest, LaunchesResolve, DeliverExternal, Wf;
  }

  /** A resume of a session that is neither pooled, nor on disk, nor an unsaved new one is refused. */
  lemma UnknownResumeIsRefused(s: Host, e: Event, k: Key)
    requires Owned(s) && e.HeadStarts? && s.mutations != [] && s.mutations[0].phase.Waiting?
    requires s.mutations[0].request == ResumeSession(k) && k !in s.pool && k !in s.transcripts && !IsUnsavedNew(k)
    ensures Step(s, e) == s.(mutations := s.mutations[1..], settled := s.settled + 1)
  {
    hide PoolOwned, TurnsPooled, LatchesOwned, MutationsSerial, DrainsHonest, LaunchesResolve, Focus, Wf;
  }

  /** This point of the run decided the switch. */
  ghost predicate DecidedAt(key: Key, spawns: bool, transcripts: set<Key>, es: seq<Event>, n: nat, w: Switch)
    requires n < |es|
  {
    Decides(FromStart(key, spawns, transcripts, es[..n]), es[n], w)
  }

  lemma NewHostDecidesNothing(key: Key, spawns: bool, transcripts: set<Key>)
    ensures PendingSwitches(FromStart(key, spawns, transcripts, [])) == {}
  {
    NewHostOwned(key, spawns, transcripts);
  }

  /** Over every run each pending switch was decided by what was on disk when its mutation began. */
  lemma {:induction false} EverySwitchWasDecided(key: Key, spawns: bool, transcripts: set<Key>, es: seq<Event>,
      w: Switch)
    requires w in PendingSwitches(FromStart(key, spawns, transcripts, es))
    ensures exists n :: 0 <= n < |es| && DecidedAt(key, spawns, transcripts, es, n, w)
    decreases |es|
  {
    hide PoolOwned, TurnsPooled, LatchesOwned, MutationsSerial, DrainsHonest, LaunchesResolve, Wf, Step, Decides;
    if es == [] {
      NewHostDecidesNothing(key, spawns, transcripts);
    } else {
      hide PendingSwitches;
      var init, e := es[..|es| - 1], es[|es| - 1];
      assert es == init + [e];
      RunLast(key, spawns, transcripts, init, e);
      var s := FromStart(key, spawns, transcripts, init);
      StepDecides(s, e, w);
      if w in PendingSwitches(s) {
        EverySwitchWasDecided(key, spawns, transcripts, init, w);
        var n :| 0 <= n < |init| && DecidedAt(key, spawns, transcripts, init, n, w);
        assert es[..n] == init[..n];
        assert DecidedAt(key, spawns, transcripts, es, n, w);
      } else {
        assert DecidedAt(key, spawns, transcripts, es, |init|, w);
      }
    }
  }

  /** Over every run a session whose transcript was there all along is installed with that transcript parked. */
  lemma KeptTranscriptIsParked(key: Key, spawns: bool, transcripts: set<Key>, es: seq<Event>, e: Event, k: Key)
    requires forall n :: 0 <= n <= |es| ==> k in FromStart(key, spawns, transcripts, es[..n]).transcripts
    requires Installs(FromStart(key, spawns, transcripts, es), e, k)
    ensures var r := FromStart(key, spawns, transcripts, es); Owned(Step(r, e)) && Parked(Step(r, e), k)
  {
    hide FromStart, PoolOwned, TurnsPooled, LatchesOwned, MutationsSerial, DrainsHonest, LaunchesResolve, Installs;
    hide Parked, Step;
    var r := FromStart(key, spawns, transcripts, es);
    assert es[..|es|] == es;
    InstalledExactly(r, e, k);
    if e.TargetDrained? {
      var w := r.mutations[0].phase.switch;
      HeadSwitchPending(r, w);
      EverySwitchWasDecided(key, spawns, transcripts, es, w);
      var n :| 0 <= n < |es| && DecidedAt(key, spawns, transcripts, es, n, w);
      assert k in FromStart(key, spawns, transcripts, es[..n]).transcripts;
    }
  }
}
