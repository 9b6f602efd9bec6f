/**
 * What lasts: shutdown, the ability to spawn, and the delivery of extension results.
 */
module HostLifecycle {
  import opened Common
  import opened HostModel
  import opened HostInvariants
  import opened HostSteps
  import opened HostConversations
  import opened HostQueue
  import opened HostRuns
  import opened HostFence
  import opened HostTasks
  import opened HostResume

  function Results(inbox: map<Key, seq<Text>>, k: Key): seq<Text> {
    if k in inbox then inbox[k] else []
  }

  /** Extension results wait for the session. */
  predicate Undelivered(s: Host, k: Key) {
    Results(s.inbox, k) != []
  }

  /**
   * Nothing starts or ends a shutdown, nothing changes whether the host can spawn, a host that can
   * does not begin to defer a switch, and no session gains waiting results.
   */
  ghost predicate Lasts(s: Host, s': Host) {
    && s'.shuttingDown == s.shuttingDown && s'.spawns == s.spawns
    && (s.spawns && s.pendingSwitch == None ==> s'.pendingSwitch == None)
    && (forall k :: Undelivered(s', k) ==> Undelivered(s, k))
  }

  lemma LastsTransitive(a: Host, b: Host, c: Host)
    requires Lasts(a, b) && Lasts(b, c)
    ensures Lasts(a, c)
  {}

  lemma StartLasts(s: Host, key: Key, text: Text, launch: Option<Launch>)
    requires Wf(s) && (launch.Some? ==> launch.value.rt < |s.runtimes|)
    ensures Lasts(s, StartTurn(s, key, text, launch)) && Lasts(s, Reserve(s, key, text, launch))
  {
    hide LaunchIsCurrent, Wf;
  }

  /** Delivery leaves a pooled session no waiting result. */
  lemma ExternalLasts(s: Host, key: Key)
    requires Wf(s)
    ensures Lasts(s, DeliverExternal(s, key)) && (key in s.pool ==> !Undelivered(DeliverExternal(s, key), key))
    ensures DeliverExternal(s, key).mutations == s.mutations && DeliverExternal(s, key).pool == s.pool
  {
    hide Wf, Fitting, AsQueued, AsSteers;
  }

  lemma FinishTurnLasts(s: Host, t: TaskId)
    requires Wf(s) && t < |s.tasks| && s.tasks[t].Running?
    ensures Lasts(s, FinishTurn(s, t))
  {
    hide Wf, Route;
  }

  lemma PolicyLasts(s: Host, t: TaskId, outcome: PolicyOutcome)
    requires Wf(s) && LaunchesResolve(s) && t < |s.tasks| && s.tasks[t].Validating?
    ensures Lasts(s, PolicyReturn(s, t, outcome))
  {
    hide Wf, LaunchIsCurrent, LoadedHistory, Results, Abandon;
    AbandonLasts(s, t);
  }

  lemma AbandonLasts(s: Host, t: TaskId)
    requires Wf(s) && t < |s.tasks| && s.tasks[t].Validating?
    ensures Lasts(s, Abandon(s, t))
  {
    hide Wf, Results;
  }

  lemma ContinuationLasts(s: Host, e: Event)
    requires Owned(s)
    requires (e.TailSettled? || e.PolicyReturned? || e.TurnReturned? || e.ScheduledStart? || e.IntentIssued?)
    ensures Lasts(s, Step(s, e))
  {
    hide PoolOwned, TurnsPooled, LatchesOwned, MutationsSerial, DrainsHonest, Wf, StartTurn, Reserve, LaunchIsCurrent;
    hide FinishTurn, PolicyReturn, Results;
    if e.task < |s.tasks| {
      var task := s.tasks[e.task];
      if !InFlight(task) { ResumeKeepsOwned(s, e.task); }
      match task
      case WaitingStart(key, text, launch, _) => StartLasts(Finish(s, e.task), key, text, launch);
      case Scheduled(key, text) => StartLasts(Finish(s, e.task), key, text, None);
      case Issuing(key, rt, text, at) => StartLasts(Finish(s, e.task), key, text, Some(Launch(rt, at, e.task)));
      case Validating(_, _, _, _, _) => if e.PolicyReturned? { PolicyLasts(s, e.task, e.outcome); }
      case Running(_, _, _, _, _, _, _) => FinishTurnLasts(s, e.task);
      case Done =>
    }
  }

  lemma WakeLasts(s: Host, key: Key)
    requires Wf(s) && key in s.peerWakes
    ensures Lasts(s, WakePeer(s, key))
  {
    var s1 := s.(peerWakes := s.peerWakes - {key});
    assert Wf(s1);
    hide Wf, StartTurn;
    StartLasts(s1, key, Text(HostPrompt, key, WAKE_PROMPT), None);
  }

  /** A published result waits exactly if it is accepted for a session that is not pooled. */
  lemma PublishedExactly(s: Host, key: Key, body: string)
    requires Owned(s)
    ensures var s' := Step(s, Publish(key, body)); var waiting := if key in s.inbox then s.inbox[key] else [];
      && (|waiting| >= MAX_PENDING_SESSION_INPUTS ==> s' == s)
      && (|waiting| < MAX_PENDING_SESSION_INPUTS && key !in s.pool ==>
            s' == s.(inbox := s.inbox[key := waiting + [Text(Extension, key, body)]]))
      && (|waiting| < MAX_PENDING_SESSION_INPUTS && key in s.pool ==> !Undelivered(s', key))
      && (forall k :: k != key && Undelivered(s', k) ==> Undelivered(s, k))
      && s'.pool == s.pool && s'.shuttingDown == s.shuttingDown && s'.spawns == s.spawns
      && (s.spawns && s.pendingSwitch == None ==> s'.pendingSwitch == None)
  {
    var waiting := if key in s.inbox then s.inbox[key] else [];
    var s1 := s.(inbox := s.inbox[key := waiting + [Text(Extension, key, body)]]);
    assert Wf(s1);
    ExternalLasts(s1, key);
    if key !in s.pool { UnpooledStays(s1, key); }
    hide PoolOwned, TurnsPooled, LatchesOwned, MutationsSerial, DrainsHonest, LaunchesResolve, Wf, DeliverExternal;
  }

  lemma UnpooledStays(s: Host, key: Key)
    requires Wf(s) && key !in s.pool
    ensures DeliverExternal(s, key) == s
  {}

  lemma InputLasts(s: Host, e: Event)
    requires Owned(s)
    requires e.Deliver? || e.AgentAdmits? || e.PeerMessage? || e.PeerWake? || e.ResumeTimer? || e.ReviewedStart?
    ensures Lasts(s, Step(s, e))
  {
    hide PoolOwned, TurnsPooled, LatchesOwned, MutationsSerial, DrainsHonest, LaunchesResolve, StartTurn, Wf, WakePeer;
    match e
    case Deliver(mode, body) => StartLasts(s, s.activeKey, Text(User, s.activeKey, body), None);
    case PeerWake(key) => if key in s.peerWakes { WakeLasts(s, key); }
    case ResumeTimer(body) => StartLasts(s, s.activeKey, Text(HostPrompt, s.activeKey, body), None);
    case _ =>
  }

  lemma FocusLasts(s: Host, switch: Switch)
    requires Wf(s) && s.mutations != []
    ensures Lasts(s, Focus(s, switch))
  {
    ExternalLasts(s.(activeKey := switch.target), switch.target);
    hide DeliverExternal, Wf;
  }

  lemma StartHeadLasts(s: Host, uuids: seq<string>)
    requires Wf(s) && s.mutations != [] && s.mutations[0].phase.Waiting?
    ensures Lasts(s, StartHead(s, uuids))
  {
    hide Wf, Focus;
    var minted := Mint(s, uuids, MINT_ATTEMPTS);
    match s.mutations[0].request {
      case NewSession => if minted.Some? { FocusLasts(s, Switch(minted.value, FreshStart)); }
      case ResumeSession(key) => FocusLasts(s, Switch(key, LazyResume)); FocusLasts(s, Switch(key, FreshStart));
      case DeferredSwitch(switch) => FocusLasts(s, switch);
      case _ =>
    }
  }

  lemma RetargetLasts(s: Host, id: RuntimeId, switch: Switch, outcome: InstallOutcome)
    requires Wf(s) && s.mutations != [] && id < |s.runtimes|
    ensures Lasts(s, Retarget(s, id, switch, outcome))
  {
    var s1 := SetRuntime(s, id, Retargeted(s.runtimes[id], switch))
      .(pool := s.pool[switch.target := id], activeKey := switch.target);
    assert Wf(s1);
    ExternalLasts(s1, switch.target);
    hide DeliverExternal, Wf;
  }

  lemma InstallLasts(s: Host, outcome: InstallOutcome)
    requires Owned(s) && s.mutations != [] && s.mutations[0].phase.AwaitingTarget?
    ensures Lasts(s, Install(s, outcome))
  {
    hide Retarget, PoolOwned, TurnsPooled, LatchesOwned, MutationsSerial, DrainsHonest, LaunchesResolve;
    var p := s.mutations[0].phase;
    if p.reused.Some? {
      RetargetLasts(s, p.reused.value, p.switch, outcome);
    } else {
      SpawnKeepsOwned(s, FreshRuntime(p.switch.target));
      var s1 := s.(runtimes := s.runtimes + [FreshRuntime(p.switch.target)]);
      RetargetLasts(s1, |s.runtimes|, p.switch, outcome);
    }
  }

  /** The other phases of the mutation at the head. */
  lemma PhaseLasts(s: Host, deadline: bool, installed: bool)
    requires Wf(s) && s.mutations != []
    ensures s.mutations[0].phase.ParkingCurrent? ==> Lasts(s, ParkedCurrent(s))
    ensures s.mutations[0].phase.StoppingTurns? ==> Lasts(s, PollTurns(s, deadline))
    ensures s.mutations[0].phase.DrainingPool? ==> Lasts(s, RequestReplacement(s))
    ensures s.mutations[0].phase.Replacing? ==> Lasts(s, InstallReplacement(s, installed))
    ensures s.mutations[0].phase.AwaitingIdle? ==> Lasts(s, PollLearning(s))
  {
    hide Wf, Results, PoolRunning;
  }

  lemma HeadLasts(s: Host, e: Event)
    requires Owned(s) && HeadEvent(e)
    ensures Lasts(s, Step(s, e))
  {
    hide PoolOwned, TurnsPooled, LatchesOwned, MutationsSerial, DrainsHonest, LaunchesResolve, Wf, StartHead, Install;
    hide Results, PoolRunning, DeliverInput, DeliverPeer, WakePeer, AutoResume, PublishExternal, BeginReviewed;
    hide Reserve, StartTurn, PolicyReturn, FinishTurn, IntentReturn, ParkedCurrent, PollTurns, RequestReplacement;
    hide InstallReplacement, PollLearning;
    if s.mutations != [] {
      PhaseLasts(s, e.RebindPoll? && e.deadline, e.ReplacementReturned? && e.installed);
      if e.HeadStarts? && s.mutations[0].phase.Waiting? {
        StartHeadLasts(s, e.uuids);
      } else if e.TargetDrained? && s.mutations[0].phase.AwaitingTarget? {
        InstallLasts(s, e.install);
      }
    }
  }

  /** Every step but a shutdown and a publication. */
  lemma StepLasts(s: Host, e: Event)
    requires Owned(s) && !e.Shutdown? && !e.Publish?
    ensures Lasts(s, Step(s, e))
  {
    hide PoolOwned, TurnsPooled, LatchesOwned, MutationsSerial, DrainsHonest, LaunchesResolve, Wf;
    hide DeliverInput, DeliverPeer, WakePeer, AutoResume, PublishExternal, BeginReviewed, Reserve, StartTurn;
    hide PolicyReturn, FinishTurn, IntentReturn, StartHead, Install, ParkedCurrent, PollTurns, RequestReplacement;
    hide InstallReplacement, PollLearning;
    if e.TailSettled? || e.PolicyReturned? || e.TurnReturned? || e.ScheduledStart? || e.IntentIssued? {
      ContinuationLasts(s, e);
    } else if e.Deliver? || e.AgentAdmits? || e.PeerMessage? || e.PeerWake? || e.ResumeTimer? || e.ReviewedStart? {
      InputLasts(s, e);
    } else if HeadEvent(e) {
      HeadLasts(s, e);
    }
  }

  // ---------------------------------------------------------------------------------------
  // Shutdown
  // ---------------------------------------------------------------------------------------

  /** A host shuts down by the shutdown command alone, for good, and takes no turn afterwards. */
  lemma StepShutdown(s: Host, e: Event)
    requires Owned(s)
    ensures Step(s, e).shuttingDown <==> s.shuttingDown || e.Shutdown?
    ensures e.Shutdown? ==> Step(s, e) == s.(shuttingDown := true, pendingSwitch := None)
    ensures Step(s, e).spawns == s.spawns
    ensures s.spawns && s.pendingSwitch == None ==> Step(s, e).pendingSwitch == None
  {
    hide PoolOwned, TurnsPooled, LatchesOwned, MutationsSerial, DrainsHonest, LaunchesResolve, Wf;
    hide DeliverInput, DeliverPeer, WakePeer, AutoResume, PublishExternal, BeginReviewed, Reserve, StartTurn;
    hide PolicyReturn, FinishTurn, IntentReturn, StartHead, Install, ParkedCurrent, PollTurns, RequestReplacement;
    hide InstallReplacement, PollLearning;
    if e.Publish? {
      hide Step;
      PublishedExactly(s, e.key, e.body);
    } else if !e.Shutdown? {
      hide Step;
      StepLasts(s, e);
    }
  }

  /** The number of turns that have taken a latch and not been called yet only shrinks. */
  ghost predicate NoNewTurn(s: Host, s': Host) {
    forall t :: 0 <= t < |s'.tasks| && InFlight(s'.tasks[t]) ==> t < |s.tasks| && InFlight(s.tasks[t])
  }

  lemma StepAfterShutdown(s: Host, e: Event)
    requires Owned(s) && s.shuttingDown
    ensures NoNewTurn(s, Step(s, e))
  {
    hide Step, PoolOwned, TurnsPooled, LatchesOwned, MutationsSerial, DrainsHonest, LaunchesResolve, Wf;
    StepAdmits(s, e);
    OldTurns(s, e);
  }

  lemma OldTurns(s: Host, e: Event)
    requires Owned(s)
    ensures |s.tasks| <= |Step(s, e).tasks|
    ensures forall t :: 0 <= t < |s.tasks| && InFlight(Step(s, e).tasks[t]) ==> InFlight(s.tasks[t])
  {
    hide PoolOwned, TurnsPooled, LatchesOwned, MutationsSerial, DrainsHonest, LaunchesResolve;
    if !BeginsTurn(s, e) {
      hide Step;
      if MovesSessions(e) || TouchesDisk(e) { MoveSpares(s, e); } else { StepOrdinary(s, e); }
    }
  }

  /** Over every run: after a shutdown the host stays shut down, and no new turn ever takes a latch. */
  lemma {:induction false} ShutdownIsFinal(s: Host, es: seq<Event>)
    requires Owned(s) && s.shuttingDown
    ensures Run(s, es).shuttingDown && NoNewTurn(s, Run(s, es))
    decreases es
  {
    hide Step, PoolOwned, TurnsPooled, LatchesOwned, MutationsSerial, DrainsHonest, LaunchesResolve, Wf;
    if es != [] {
      StepKeepsOwned(s, es[0]);
      StepShutdown(s, es[0]);
      StepAfterShutdown(s, es[0]);
      ShutdownIsFinal(Step(s, es[0]), es[1..]);
    }
  }

  /** Over every run a host that can spawn runtimes never defers a switch. */
  lemma {:induction false} SpawningNeverDefers(s: Host, es: seq<Event>)
    requires Owned(s) && s.spawns && s.pendingSwitch == None
    ensures Run(s, es).spawns && Run(s, es).pendingSwitch == None
    decreases es
  {
    hide Step, PoolOwned, TurnsPooled, LatchesOwned, MutationsSerial, DrainsHonest, LaunchesResolve, Wf;
    if es != [] {
      StepKeepsOwned(s, es[0]);
      StepShutdown(s, es[0]);
      SpawningNeverDefers(Step(s, es[0]), es[1..]);
    }
  }

  // ---------------------------------------------------------------------------------------
  // Extension results
  // ---------------------------------------------------------------------------------------

  /** No pooled session has a result waiting. */
  ghost predicate AllDelivered(s: Host) {
    forall k <- s.pool :: !Undelivered(s, k)
  }

  /** A tenant's replacement is installed for a session that has results waiting. */
  predicate LeavesWaiting(s: Host, e: Event) {
    && e.ReplacementReturned? && e.installed && s.mutations != [] && s.mutations[0].phase.Replacing?
    && Undelivered(s, s.mutations[0].phase.home)
  }

  /** Pooled sessions stay without waiting results over a step exactly if it is no such replacement. */
  lemma StepDeliversExactly(s: Host, e: Event)
    requires Owned(s) && AllDelivered(s)
    ensures AllDelivered(Step(s, e)) <==> !LeavesWaiting(s, e)
  {
    hide PoolOwned, TurnsPooled, LatchesOwned, MutationsSerial, DrainsHonest, LaunchesResolve, Wf, Undelivered;
    hide Install, InstallReplacement, Step;
    if e.Publish? {
      PublishedExactly(s, e.key, e.body);
      FullIsUndelivered(s, e.key);
    } else if !AddsSession(s, e) {
      OtherwiseShrinks(s, e);
      if e.Shutdown? { ShutdownInbox(s); } else { StepLasts(s, e); }
    } else if e.TargetDrained? {
      InstallDelivers(s, e.install);
    } else {
      ReplacementDelivers(s, e.installed);
    }
  }

  lemma FullIsUndelivered(s: Host, key: Key)
    ensures key in s.inbox && |s.inbox[key]| >= MAX_PENDING_SESSION_INPUTS ==> Undelivered(s, key)
  {}

  lemma ShutdownInbox(s: Host)
    requires Owned(s)
    ensures Step(s, Shutdown).inbox == s.inbox
    ensures forall k :: Undelivered(Step(s, Shutdown), k) <==> Undelivered(s, k)
  {
    StepShutdown(s, Shutdown);
  }

  lemma InstallDelivers(s: Host, outcome: InstallOutcome)
    requires Owned(s) && AllDelivered(s) && s.mutations != [] && s.mutations[0].phase.AwaitingTarget?
    ensures AllDelivered(Step(s, TargetDrained(outcome)))
  {
    hide PoolOwned, TurnsPooled, LatchesOwned, MutationsSerial, DrainsHonest, LaunchesResolve, Wf, Install;
    StepLasts(s, TargetDrained(outcome));
    InstallExactly(s, outcome);
  }

  lemma ReplacementDelivers(s: Host, installed: bool)
    requires Owned(s) && AllDelivered(s) && s.mutations != [] && s.mutations[0].phase.Replacing?
    ensures AllDelivered(Step(s, ReplacementReturned(installed))) <==> !LeavesWaiting(s, ReplacementReturned(installed))
  {
    hide PoolOwned, TurnsPooled, LatchesOwned, MutationsSerial, DrainsHonest, LaunchesResolve, Wf;
    EmptyWhileReplacing(s);
    ReplacementExactly(s, installed);
  }

  /** No event of the run is such a replacement. */
  ghost predicate NeverLeavesWaiting(s: Host, es: seq<Event>)
    requires Owned(s)
    decreases es
  {
    es == []
    || (!LeavesWaiting(s, es[0]) && (StepKeepsOwned(s, es[0]); NeverLeavesWaiting(Step(s, es[0]), es[1..])))
  }

  /** Throughout a run every pooled session has its results delivered exactly if no such replacement happens. */
  lemma {:induction false} DeliveredExactly(s: Host, es: seq<Event>)
    requires Owned(s) && AllDelivered(s)
    ensures Always(s, es, AllDelivered) <==> NeverLeavesWaiting(s, es)
    decreases es
  {
    hide Step, LeavesWaiting, AllDelivered, PoolOwned, TurnsPooled, LatchesOwned, MutationsSerial, DrainsHonest, Wf;
    hide Always;
    AlwaysUnfolds(s, es, AllDelivered);
    if es != [] {
      var s1 := Step(s, es[0]);
      StepDeliversExactly(s, es[0]);
      if AllDelivered(s1) { DeliveredExactly(s1, es[1..]); } else { AlwaysUnfolds(s1, es[1..], AllDelivered); }
    }
  }
}
