/**
 * Continuations: which steps start a turn, when a start may go on at once, when it has to wait for
 * session mutations, and what else a step does to the continuations there are.
 */
module HostTasks {
  import opened Common
  import opened HostModel
  import opened HostInvariants
  import opened HostSteps
  import opened HostConversations
  import opened HostQueue
  import opened HostRuns
  import opened HostFence

  /** The policy check of this turn allowed it. */
  predicate Called(t: Task, t': Task) {
    t.Validating? && t'.Running? && t'.key == t.key && t'.rt == t.rt && t'.text == t.text && t'.launch == t.launch
  }

  /** Continuations stay, end, or are called; what is new is a scheduled input. */
  ghost predicate Quiet(s: Host, s': Host) {
    && |s.tasks| <= |s'.tasks|
    && (forall t :: 0 <= t < |s.tasks| ==>
          s'.tasks[t] == s.tasks[t] || s'.tasks[t].Done? || Called(s.tasks[t], s'.tasks[t]))
    && (forall t :: |s.tasks| <= t < |s'.tasks| ==> s'.tasks[t].Scheduled? || s'.tasks[t].Done?)
  }

  // ---------------------------------------------------------------------------------------
  // Steps that start nothing
  // ---------------------------------------------------------------------------------------

  lemma ScheduleAdds(s: Host, key: Key, next: Option<Queued>)
    ensures Quiet(s, ScheduleNext(s, key, next)) && Quiet(s, ScheduleNext(RunPendingSwitch(s), key, next))
  {}

  lemma FinishAdds(s: Host, t: TaskId, s': Host)
    requires t < |s.tasks|
    ensures s'.tasks == s.tasks[t := Done] ==> Quiet(s, s')
  {}

  lemma SameAdds(s: Host, s': Host)
    requires s'.tasks == s.tasks
    ensures Quiet(s, s')
  {}

  lemma QuietTransitive(a: Host, b: Host, c: Host)
    requires Quiet(a, b) && Quiet(b, c)
    ensures Quiet(a, c)
  {}

  lemma ExternalAdds(s: Host, key: Key)
    requires Wf(s)
    ensures Quiet(s, DeliverExternal(s, key))
  {
    hide Wf, Fitting, AsQueued, AsSteers;
  }

  lemma FinishTurnAdds(s: Host, t: TaskId)
    requires Wf(s) && t < |s.tasks| && s.tasks[t].Running?
    ensures Quiet(s, FinishTurn(s, t))
  {
    var task := s.tasks[t];
    var r := s.runtimes[task.rt];
    hide Wf, Route, RunPendingSwitch, ScheduleNext, Quiet;
    var routed := Route(r.agent.steering, Routing(r.queue, [], []), Closing(s));
    var s1 := Finish(SetRuntime(s, task.rt,
      r.(turn := None, queue := routed.queue, agent := r.agent.(steering := routed.steering))), t);
    var s2 := s1.(peerWakes := if Resteered in routed.fates then s1.peerWakes + {task.sk} else s1.peerWakes);
    var (s3, next) := TakeNext(s2, task.rt);
    var s4 := if task.sk != s3.activeKey && s3.spawns && next.None? then Evict(s3, task.sk, task.rt) else s3;
    FinishAdds(s, t, s4);
    ScheduleAdds(s4, task.sk, next);
    QuietTransitive(s, s4, ScheduleNext(RunPendingSwitch(s4), task.sk, next));
    FinishAdds(s, t, s2);
  }

  lemma AbandonAdds(s: Host, t: TaskId)
    requires Wf(s) && t < |s.tasks| && s.tasks[t].Validating?
    ensures Quiet(s, Abandon(s, t))
  {
    var task := s.tasks[t];
    var s1 := Finish(SetRuntime(s, task.rt, s.runtimes[task.rt].(turn := None)), t);
    hide Wf, RunPendingSwitch, ScheduleNext, Quiet;
    var (s2, next) := TakeNext(s1, task.rt);
    var s3 := RunPendingSwitch(s2);
    SwitchKeepsTasks(s2);
    FinishAdds(s, t, s3);
    FinishAdds(s, t, Evict(s3, task.key, task.rt));
    ScheduleAdds(s3, task.key, next);
    ScheduleAdds(Evict(s3, task.key, task.rt), task.key, next);
    QuietTransitive(s, s3, ScheduleNext(s3, task.key, next));
    QuietTransitive(s, Evict(s3, task.key, task.rt), ScheduleNext(Evict(s3, task.key, task.rt), task.key, next));
  }

  lemma SwitchKeepsTasks(s: Host)
    ensures RunPendingSwitch(s).tasks == s.tasks && |RunPendingSwitch(s).runtimes| == |s.runtimes|
  {}

  lemma FocusAdds(s: Host, switch: Switch)
    requires Wf(s) && s.mutations != []
    ensures Quiet(s, Focus(s, switch))
  {
    ExternalAdds(s.(activeKey := switch.target), switch.target);
    hide DeliverExternal, Wf;
  }

  lemma StartHeadAdds(s: Host, uuids: seq<string>)
    requires Wf(s) && s.mutations != [] && s.mutations[0].phase.Waiting?
    ensures Quiet(s, StartHead(s, uuids))
  {
    hide Wf, Focus;
    var minted := Mint(s, uuids, MINT_ATTEMPTS);
    match s.mutations[0].request {
      case NewSession => if minted.Some? { FocusAdds(s, Switch(minted.value, FreshStart)); }
      case ResumeSession(key) => FocusAdds(s, Switch(key, LazyResume)); FocusAdds(s, Switch(key, FreshStart));
      case DeferredSwitch(switch) => FocusAdds(s, switch);
      case _ =>
    }
  }

  lemma RetargetAdds(s: Host, id: RuntimeId, switch: Switch, outcome: InstallOutcome)
    requires Wf(s) && s.mutations != [] && id < |s.runtimes|
    ensures Quiet(s, Retarget(s, id, switch, outcome))
  {
    var s1 := SetRuntime(s, id, Retargeted(s.runtimes[id], switch))
      .(pool := s.pool[switch.target := id], activeKey := switch.target);
    ExternalAdds(s1, switch.target);
    hide DeliverExternal, Wf;
  }

  lemma InstallAdds(s: Host, outcome: InstallOutcome)
    requires Owned(s) && s.mutations != [] && s.mutations[0].phase.AwaitingTarget?
    ensures Quiet(s, Install(s, outcome))
  {
    hide Retarget, PoolOwned, TurnsPooled, LatchesOwned, MutationsSerial, DrainsHonest, LaunchesResolve;
    var p := s.mutations[0].phase;
    if p.reused.Some? {
      RetargetAdds(s, p.reused.value, p.switch, outcome);
    } else {
      SpawnKeepsOwned(s, FreshRuntime(p.switch.target));
      RetargetAdds(s.(runtimes := s.runtimes + [FreshRuntime(p.switch.target)]), |s.runtimes|, p.switch, outcome);
    }
  }

  lemma PublishAdds(s: Host, key: Key, body: string)
    requires Wf(s)
    ensures Quiet(s, PublishExternal(s, key, body))
  {
    var pending := if key in s.inbox then s.inbox[key] else [];
    var s1 := s.(inbox := s.inbox[key := pending + [Text(Extension, key, body)]]);
    assert Wf(s1);
    hide Wf, DeliverExternal;
    ExternalAdds(s1, key);
  }

  lemma HeadAdds(s: Host, e: Event)
    requires Owned(s) && HeadEvent(e)
    ensures Quiet(s, Step(s, e))
  {
    hide PoolOwned, TurnsPooled, LatchesOwned, MutationsSerial, DrainsHonest, LaunchesResolve, Wf, StartHead, Install;
    hide PoolRunning, DeliverInput, DeliverPeer, WakePeer, AutoResume, PublishExternal, BeginReviewed;
    hide Reserve, StartTurn, PolicyReturn, FinishTurn, IntentReturn;
    if s.mutations != [] {
      HeadFacts(s);
      if e.HeadStarts? && s.mutations[0].phase.Waiting? {
        StartHeadAdds(s, e.uuids);
      } else if e.TargetDrained? && s.mutations[0].phase.AwaitingTarget? {
        InstallAdds(s, e.install);
      } else {
        SameAdds(s, Step(s, e));
      }
    }
    SameAdds(s, s);
  }

  /** The turns that end, are abandoned, refused or called. */
  lemma TurnAdds(s: Host, e: Event)
    requires Owned(s) && (e.PolicyReturned? || e.TurnReturned?)
    ensures Quiet(s, Step(s, e))
  {
    hide PoolOwned, TurnsPooled, LatchesOwned, MutationsSerial, DrainsHonest, FinishTurn, Abandon, LaunchIsCurrent;
    if e.task < |s.tasks| {
      if e.TurnReturned? && s.tasks[e.task].Running? { FinishTurnAdds(s, e.task); }
      if e.PolicyReturned? && s.tasks[e.task].Validating? { AbandonAdds(s, e.task); }
    }
  }

  lemma InputAdds(s: Host, e: Event)
    requires Owned(s) && (e.PeerMessage? || e.Publish? || e.AgentAdmits?)
    ensures Quiet(s, Step(s, e))
  {
    hide PoolOwned, TurnsPooled, LatchesOwned, MutationsSerial, DrainsHonest, LaunchesResolve, StartTurn;
    hide DeliverExternal, Wf, PublishExternal;
    match e
    case Publish(key, body) => PublishAdds(s, key, body);
    case _ =>
  }

  /** The events that may start a turn: an input, a timer, a scheduled or waiting continuation, a handle, a review. */
  predicate MayStart(e: Event) {
    || e.Deliver? || e.PeerWake? || e.ResumeTimer? || e.ScheduledStart? || e.TailSettled? || e.IntentIssued?
    || e.ReviewedStart?
  }

  /** No other event starts anything. */
  lemma OthersStartNothing(s: Host, e: Event)
    requires Owned(s) && !MayStart(e)
    ensures Quiet(s, Step(s, e))
  {
    hide PoolOwned, TurnsPooled, LatchesOwned, MutationsSerial, DrainsHonest, LaunchesResolve, Wf;
    hide DeliverInput, DeliverPeer, WakePeer, AutoResume, PublishExternal, BeginReviewed, Reserve, StartTurn;
    hide PolicyReturn, FinishTurn;
    hide IntentReturn, StartHead, Install, ParkedCurrent, PollTurns, RequestReplacement, InstallReplacement;
    hide PollLearning;
    if e.PolicyReturned? || e.TurnReturned? {
      TurnAdds(s, e);
    } else if e.PeerMessage? || e.Publish? || e.AgentAdmits? {
      InputAdds(s, e);
    } else if HeadEvent(e) {
      HeadAdds(s, e);
    }
  }

  // ---------------------------------------------------------------------------------------
  // Starts
  // ---------------------------------------------------------------------------------------

  /** A turn that takes its latch: the host is open and the session pooled and free; an intent meets the fence. */
  ghost predicate Reserves(s: Host, x: Task, key: Key, text: Text, launch: Option<Launch>)
    requires Wf(s) && (launch.Some? ==> launch.value.rt < |s.runtimes|)
  {
    && x.Validating? && x.key == key && x.text == text && x.launch == launch
    && !Closing(s) && key in s.pool && x.rt == s.pool[key] && !s.runtimes[x.rt].Running()
    && (launch.Some? ==> LaunchIsCurrent(s, key, launch.value, launch.value.at))
  }

  /** A start that waits for every mutation submitted so far. */
  predicate Waits(s: Host, x: Task, key: Key, text: Text, launch: Option<Launch>) {
    s.mutations != [] && x == WaitingStart(key, text, launch, s.settled + |s.mutations|)
  }

  /** The start adds at most this continuation. */
  ghost predicate AddsStart(s: Host, s': Host, key: Key, text: Text, launch: Option<Launch>)
    requires Wf(s) && (launch.Some? ==> launch.value.rt < |s.runtimes|)
  {
    || s'.tasks == s.tasks
    || (&& |s'.tasks| == |s.tasks| + 1 && s'.tasks[..|s.tasks|] == s.tasks
        && var x := s'.tasks[|s.tasks|];
           Waits(s, x, key, text, launch) || (s.mutations == [] && Reserves(s, x, key, text, launch)))
  }

  lemma StartAdds(s: Host, key: Key, text: Text, launch: Option<Launch>)
    requires Wf(s) && (launch.Some? ==> launch.value.rt < |s.runtimes|)
    ensures AddsStart(s, StartTurn(s, key, text, launch), key, text, launch)
  {
    hide LaunchIsCurrent;
  }

  lemma ReserveAdds(s: Host, key: Key, text: Text, launch: Option<Launch>)
    requires Wf(s) && (launch.Some? ==> launch.value.rt < |s.runtimes|)
    ensures var s' := Reserve(s, key, text, launch);
      || s'.tasks == s.tasks
      || (|s'.tasks| == |s.tasks| + 1 && s'.tasks[..|s.tasks|] == s.tasks
          && Reserves(s, s'.tasks[|s.tasks|], key, text, launch))
  {
    hide LaunchIsCurrent;
  }

  /** The event resumes a start that waited until every mutation it waits for had settled. */
  predicate Resumed(s: Host, e: Event) {
    e.TailSettled? && e.task < |s.tasks| && s.tasks[e.task].WaitingStart? && s.tasks[e.task].until <= s.settled
  }

  /**
   * What a new continuation may be: a turn in a free pooled session of an open host, at once only with
   * no mutation outstanding; a start that waits for the mutations outstanding now; a review.
   */
  ghost predicate Admitted(s: Host, e: Event, x: Task)
    requires Wf(s)
  {
    && !x.Running?
    && (x.Validating? ==>
          && !Closing(s) && x.key in s.pool && x.rt == s.pool[x.key] && !s.runtimes[x.rt].Running()
          && (s.mutations == [] || Resumed(s, e)))
    && (x.WaitingStart? ==> s.mutations != [] && x.until == s.settled + |s.mutations|)
    && (x.Issuing? ==> e.ReviewedStart? && !Closing(s) && s.mutations == [])
  }

  /** The two states admit the same starts. */
  predicate SameGate(s: Host, s1: Host) {
    && s1.mutations == s.mutations && s1.settled == s.settled && s1.pool == s.pool && s1.runtimes == s.runtimes
    && s1.shuttingDown == s.shuttingDown && s1.tenantRebinding == s.tenantRebinding && |s1.tasks| == |s.tasks|
  }

  ghost predicate AllAdmitted(s: Host, e: Event, s': Host)
    requires Wf(s)
  {
    && |s.tasks| <= |s'.tasks|
    && forall t :: |s.tasks| <= t < |s'.tasks| ==> Admitted(s, e, s'.tasks[t])
  }

  lemma StartAdmitted(s: Host, e: Event, s1: Host, key: Key, text: Text, launch: Option<Launch>)
    requires Wf(s) && Wf(s1) && SameGate(s, s1) && (launch.Some? ==> launch.value.rt < |s.runtimes|)
    ensures AllAdmitted(s, e, StartTurn(s1, key, text, launch))
    ensures Resumed(s, e) ==> AllAdmitted(s, e, Reserve(s1, key, text, launch))
  {
    hide StartTurn, Reserve, Wf, LaunchIsCurrent, Admitted, Reserves, Waits, SameGate;
    GateTasks(s, s1);
    StartAdds(s1, key, text, launch);
    ReserveAdds(s1, key, text, launch);
    var s2, s3 := StartTurn(s1, key, text, launch), Reserve(s1, key, text, launch);
    if |s2.tasks| > |s.tasks| { NewIsAdmitted(s, e, s1, s2.tasks[|s.tasks|], key, text, launch); }
    if |s3.tasks| > |s.tasks| && Resumed(s, e) { NewIsAdmitted(s, e, s1, s3.tasks[|s.tasks|], key, text, launch); }
  }

  lemma GateTasks(s: Host, s1: Host)
    requires SameGate(s, s1)
    ensures |s1.tasks| == |s.tasks| && s1.runtimes == s.runtimes
  {}

  lemma NewIsAdmitted(s: Host, e: Event, s1: Host, x: Task, key: Key, text: Text, launch: Option<Launch>)
    requires Wf(s) && Wf(s1) && SameGate(s, s1) && (launch.Some? ==> launch.value.rt < |s.runtimes|)
    requires || Waits(s1, x, key, text, launch)
             || ((s1.mutations == [] || Resumed(s, e)) && Reserves(s1, x, key, text, launch))
    ensures Admitted(s, e, x)
  {
    hide LaunchIsCurrent;
  }

  lemma FinishGate(s: Host, t: TaskId)
    requires Wf(s) && t < |s.tasks|
    ensures Wf(Finish(s, t)) && SameGate(s, Finish(s, t)) && AllAdmitted(s, Interrupt, Finish(s, t))
  {}

  lemma ContinuedAdmitted(s: Host, e: Event)
    requires Owned(s) && (e.ScheduledStart? || e.TailSettled? || e.IntentIssued?)
    ensures AllAdmitted(s, e, Step(s, e))
  {
    hide PoolOwned, TurnsPooled, LatchesOwned, MutationsSerial, DrainsHonest, Wf, StartTurn, Reserve, LaunchIsCurrent;
    hide DeliverInput, DeliverPeer, WakePeer, AutoResume, PublishExternal, BeginReviewed, PolicyReturn, FinishTurn;
    hide StartHead, Install, ParkedCurrent, PollTurns, RequestReplacement, InstallReplacement, PollLearning;
    if e.task < |s.tasks| {
      var task := s.tasks[e.task];
      FinishGate(s, e.task);
      if !InFlight(task) { ResumeKeepsOwned(s, e.task); }
      match task
      case WaitingStart(key, text, launch, until) => StartAdmitted(s, e, Finish(s, e.task), key, text, launch);
      case Scheduled(key, text) => StartAdmitted(s, e, Finish(s, e.task), key, text, None);
      case Issuing(key, rt, text, at) =>
        StartAdmitted(s, e, Finish(s, e.task), key, text, Some(Launch(rt, at, e.task)));
      case _ =>
    }
  }

  lemma WakeAdmitted(s: Host, key: Key)
    requires Owned(s) && key in s.peerWakes
    ensures AllAdmitted(s, PeerWake(key), WakePeer(s, key))
  {
    var s1 := s.(peerWakes := s.peerWakes - {key});
    assert Wf(s1);
    hide Wf, StartTurn, Admitted;
    StartAdmitted(s, PeerWake(key), s1, key,
      Text(HostPrompt, key, WAKE_PROMPT), None);
  }

  lemma InputAdmitted(s: Host, e: Event)
    requires Owned(s) && (e.Deliver? || e.PeerWake? || e.ResumeTimer? || e.ReviewedStart?)
    ensures AllAdmitted(s, e, Step(s, e))
  {
    hide PoolOwned, TurnsPooled, LatchesOwned, MutationsSerial, DrainsHonest, LaunchesResolve, Wf, StartTurn, WakePeer;
    match e
    case Deliver(mode, body) => StartAdmitted(s, e, s, s.activeKey, Text(User, s.activeKey, body), None);
    case PeerWake(key) => if key in s.peerWakes { WakeAdmitted(s, key); }
    case ResumeTimer(body) => StartAdmitted(s, e, s, s.activeKey, Text(HostPrompt, s.activeKey, body), None);
    case ReviewedStart(body) =>
  }

  /**
   * Over any step: a turn takes its latch only in a free pooled session of an open host, and either with
   * no mutation outstanding or after waiting for all it had to; a start waits for exactly the mutations
   * outstanding when it was asked for.
   */
  lemma StepAdmits(s: Host, e: Event)
    requires Owned(s)
    ensures AllAdmitted(s, e, Step(s, e))
  {
    hide PoolOwned, TurnsPooled, LatchesOwned, MutationsSerial, DrainsHonest, LaunchesResolve, Wf, Step;
    if !MayStart(e) {
      OthersStartNothing(s, e);
    } else if e.ScheduledStart? || e.TailSettled? || e.IntentIssued? {
      ContinuedAdmitted(s, e);
    } else {
      InputAdmitted(s, e);
    }
  }

  /** A waiting start stays as it is until it is resumed. */
  lemma StepKeepsWaiting(s: Host, e: Event, t: TaskId)
    requires Owned(s) && t < |s.tasks| && t < |Step(s, e).tasks| && Step(s, e).tasks[t].WaitingStart?
    ensures s.tasks[t] == Step(s, e).tasks[t]
  {
    hide PoolOwned, TurnsPooled, LatchesOwned, MutationsSerial, DrainsHonest, LaunchesResolve, Wf;
    if !BeginsTurn(s, e) {
      hide Step;
      if MovesSessions(e) || TouchesDisk(e) { MoveSpares(s, e); } else { StepOrdinary(s, e); }
    }
  }

  // ---------------------------------------------------------------------------------------
  // What becomes of each continuation
  // ---------------------------------------------------------------------------------------

  /** The session can take a turn now: the host is open, the session pooled and free, and an intent meets its fence. */
  ghost predicate Startable(s: Host, key: Key, launch: Option<Launch>)
    requires Wf(s) && (launch.Some? ==> launch.value.rt < |s.runtimes|)
  {
    && !Closing(s) && key in s.pool && s.runtimes[s.pool[key]].turn == None
    && (launch.Some? ==> LaunchIsCurrent(s, key, launch.value, launch.value.at))
  }

  /** The session's latch is taken by a new turn, as one counted authority event. */
  ghost predicate Latches(s: Host, s': Host, tasks: seq<Task>, key: Key, text: Text, launch: Option<Launch>)
    requires Wf(s) && key in s.pool
  {
    var id := s.pool[key];
    s' == s.(
      tasks := tasks + [Validating(key, id, text, launch, |s.authority| + 1)],
      authority := s.authority + [TurnReserved(key, |tasks|)],
      runtimes := s.runtimes[id := s.runtimes[id].(turn := Some(|tasks|))])
  }

  lemma ReserveExactly(s: Host, key: Key, text: Text, launch: Option<Launch>)
    requires Wf(s) && (launch.Some? ==> launch.value.rt < |s.runtimes|)
    ensures var s' := Reserve(s, key, text, launch);
      if Startable(s, key, launch) then Latches(s, s', s.tasks, key, text, launch) else s' == s
    ensures s.mutations == [] ==> StartTurn(s, key, text, launch) == Reserve(s, key, text, launch)
    ensures s.mutations != [] ==>
      StartTurn(s, key, text, launch) == s
        .(tasks := s.tasks + [WaitingStart(key, text, launch, s.settled + |s.mutations|)])
  {
    hide LaunchIsCurrent;
  }

  /**
   * A waiting start goes on once its mutations settled: it takes the latch if the session can take a turn, or
   * is over.
   */
  lemma WaitingStartExactly(s: Host, t: TaskId)
    requires Owned(s) && t < |s.tasks| && s.tasks[t].WaitingStart?
    ensures var task, s' := s.tasks[t], Step(s, TailSettled(t));
      if task.until > s.settled then s' == s
      else if Startable(s, task.key, task.launch) then
        Latches(s, s', s.tasks[t := Done], task.key, task.text, task.launch)
      else s' == s.(tasks := s.tasks[t := Done])
  {
    hide PoolOwned, TurnsPooled, LatchesOwned, MutationsSerial, DrainsHonest, Reserve, StartTurn, LaunchIsCurrent;
    ResumeKeepsOwned(s, t);
    var task := s.tasks[t];
    ReserveExactly(Finish(s, t), task.key, task.text, task.launch);
    FenceIgnoresTasks(s, t, task.key, task.launch);
  }

  lemma FenceIgnoresTasks(s: Host, t: TaskId, key: Key, launch: Option<Launch>)
    requires t < |s.tasks| && (launch.Some? ==> launch.value.rt < |s.runtimes|)
    ensures launch.Some? ==>
      (LaunchIsCurrent(Finish(s, t), key, launch.value, launch.value.at)
       <==> LaunchIsCurrent(s, key, launch.value, launch.value.at))
  {}

  /** A scheduled follow-up starts its turn, waits for the outstanding mutations, or is dropped. */
  lemma ScheduledStartExactly(s: Host, t: TaskId)
    requires Owned(s) && t < |s.tasks| && s.tasks[t].Scheduled?
    ensures var task, s', rest := s.tasks[t], Step(s, ScheduledStart(t)), s.tasks[t := Done];
      if s.mutations != [] then
        s' == s.(tasks := rest + [WaitingStart(task.key, task.text, None, s.settled + |s.mutations|)])
      else if Startable(s, task.key, None) then Latches(s, s', rest, task.key, task.text, None)
      else s' == s.(tasks := rest)
  {
    hide PoolOwned, TurnsPooled, LatchesOwned, MutationsSerial, DrainsHonest, Reserve, StartTurn, LaunchIsCurrent;
    ResumeKeepsOwned(s, t);
    ReserveExactly(Finish(s, t), s.tasks[t].key, s.tasks[t].text, None);
  }

  /**
   * A peer wake is used up, and starts a hidden turn, or one that waits, only in an idle pooled session of an
   * open host.
   */
  lemma WakeExactly(s: Host, key: Key)
    requires Owned(s) && key in s.peerWakes
    ensures var s1 := s.(peerWakes := s.peerWakes - {key});
      var s', text := Step(s, PeerWake(key)), Text(HostPrompt, key, WAKE_PROMPT);
      && Wf(s1)
      && (if Startable(s, key, None) then
            if s.mutations == [] then Latches(s1, s', s.tasks, key, text, None)
            else s' == s1.(tasks := s.tasks + [WaitingStart(key, text, None, s.settled + |s.mutations|)])
          else s' == s1)
  {
    hide PoolOwned, TurnsPooled, LatchesOwned, MutationsSerial, DrainsHonest, LaunchesResolve, Reserve, StartTurn;
    var s1 := s.(peerWakes := s.peerWakes - {key});
    assert Wf(s1);
    ReserveExactly(s1, key, Text(HostPrompt, key, WAKE_PROMPT), None);
  }

  /** The resume timer starts a hidden turn of an idle viewed session, or one that waits. */
  lemma ResumeTimerExactly(s: Host, body: string)
    requires Owned(s)
    ensures var k, s' := s.activeKey, Step(s, ResumeTimer(body));
      var text := Text(HostPrompt, k, body);
      if k !in s.pool || s.runtimes[s.pool[k]].turn.Some? then s' == s
      else if s.mutations != [] then
        s' == s.(tasks := s.tasks + [WaitingStart(k, text, None, s.settled + |s.mutations|)])
      else if Closing(s) then s' == s
      else Latches(s, s', s.tasks, k, text, None)
  {
    hide PoolOwned, TurnsPooled, LatchesOwned, MutationsSerial, DrainsHonest, LaunchesResolve, Reserve, StartTurn;
    ReserveExactly(s, s.activeKey, Text(HostPrompt, s.activeKey, body), None);
  }

  /**
   * A turn is called exactly when its policy check allows it and an intent still meets its fence; nothing else
   * moves.
   */
  lemma CallExactly(s: Host, t: TaskId)
    requires Owned(s) && ParkedOwn(s)
    requires t < |s.tasks| && s.tasks[t].Validating? && BeginsTurn(s, PolicyReturned(t, Allowed))
    ensures var task, s' := s.tasks[t], Step(s, PolicyReturned(t, Allowed));
      var r := s.runtimes[task.rt];
      s' == s.(
        tasks := s.tasks[t := Running(task.key, task.rt, task.text, task.launch, task.key, |s.authority|,
          Loadable(s, r))],
        runtimes := s.runtimes[task.rt := r.(pendingHistoryKey := None,
          agent := r.agent.(history := (if Loadable(s, r).Some? then {task.key} else r.agent.history) + {task.key}))])
  {
    LatchOf(s, t);
    hide PoolOwned, TurnsPooled, LatchesOwned, MutationsSerial, DrainsHonest, Abandon;
  }

  // ---------------------------------------------------------------------------------------
  // Every run
  // ---------------------------------------------------------------------------------------

  /** The host before and after the last event of a run. */
  lemma RunLast(key: Key, spawns: bool, transcripts: set<Key>, es: seq<Event>, e: Event)
    ensures Owned(FromStart(key, spawns, transcripts, es))
    ensures FromStart(key, spawns, transcripts, es + [e]) == Step(FromStart(key, spawns, transcripts, es), e)
  {
    hide PoolOwned, TurnsPooled, LatchesOwned, MutationsSerial, DrainsHonest, LaunchesResolve, Wf, Step;
    NewHostOwned(key, spawns, transcripts);
    var s := FromStart(key, spawns, transcripts, es);
    RunAppend(NewHost(key, spawns, transcripts), es, [e]);
    StepKeepsOwned(s, e);
    assert Run(s, [e]) == Run(Step(s, e), []);
  }

  /** The start was asked for at this point of the run, where so many mutations had been submitted. */
  ghost predicate AskedAt(key: Key, spawns: bool, transcripts: set<Key>, es: seq<Event>, n: nat, t: TaskId, count: nat)
    requires n < |es|
  {
    var s, s' := FromStart(key, spawns, transcripts, es[..n]), FromStart(key, spawns, transcripts, es[..n + 1]);
    |s.tasks| <= t < |s'.tasks| && count == |s.submitted|
  }

  /** Over every run a waiting start waits for the mutations that had been submitted when it was asked for. */
  lemma {:induction false} EveryWaitWasAsked(key: Key, spawns: bool, transcripts: set<Key>, es: seq<Event>, t: TaskId)
    requires var s := FromStart(key, spawns, transcripts, es); t < |s.tasks| && s.tasks[t].WaitingStart?
    ensures var until := FromStart(key, spawns, transcripts, es).tasks[t].until;
      exists n :: 0 <= n < |es| && AskedAt(key, spawns, transcripts, es, n, t, until)
    decreases |es|
  {
    hide PoolOwned, TurnsPooled, LatchesOwned, MutationsSerial, DrainsHonest, LaunchesResolve, Wf, Step;
    if es == [] {
      NewHostOwned(key, spawns, transcripts);
    } else {
      var init, e := es[..|es| - 1], es[|es| - 1];
      assert es == init + [e] && es[..|es|] == es;
      RunLast(key, spawns, transcripts, init, e);
      var s := FromStart(key, spawns, transcripts, init);
      var until := Step(s, e).tasks[t].until;
      StepAdmits(s, e);
      if t < |s.tasks| {
        StepKeepsWaiting(s, e, t);
        EveryWaitWasAsked(key, spawns, transcripts, init, t);
        var n :| 0 <= n < |init| && AskedAt(key, spawns, transcripts, init, n, t, until);
        assert es[..n] == init[..n] && es[..n + 1] == init[..n + 1];
        assert AskedAt(key, spawns, transcripts, es, n, t, until);
      } else {
        CountsSubmitted(key, spawns, transcripts, init);
        assert AskedAt(key, spawns, transcripts, es, |init|, t, until);
      }
    }
  }

  lemma CountsSubmitted(key: Key, spawns: bool, transcripts: set<Key>, es: seq<Event>)
    ensures var s := FromStart(key, spawns, transcripts, es); s.settled + |s.mutations| == |s.submitted|
  {
    NewHostOwned(key, spawns, transcripts);
    RunKeepsFifo(NewHost(key, spawns, transcripts), es);
  }

  /**
   * Over every run: a start that had to wait takes its latch only when every mutation submitted before
   * it was asked for has settled.
   */
  lemma TurnsWaitForMutations(key: Key, spawns: bool, transcripts: set<Key>, es: seq<Event>, t: TaskId)
    requires var s := FromStart(key, spawns, transcripts, es); t < |s.tasks| && s.tasks[t].WaitingStart?
    requires var s := FromStart(key, spawns, transcripts, es);
      |Step(s, TailSettled(t)).tasks| > |s.tasks| && Step(s, TailSettled(t)).tasks[|s.tasks|].Validating?
    ensures var s := FromStart(key, spawns, transcripts, es);
      exists n, count: nat :: 0 <= n < |es| && AskedAt(key, spawns, transcripts, es, n, t, count) && count <= s.settled
  {
    hide PoolOwned, TurnsPooled, LatchesOwned, MutationsSerial, DrainsHonest, LaunchesResolve, Wf, FromStart, Reserve;
    var s := FromStart(key, spawns, transcripts, es);
    EveryWaitWasAsked(key, spawns, transcripts, es, t);
    var n :| 0 <= n < |es| && AskedAt(key, spawns, transcripts, es, n, t, s.tasks[t].until);
    assert s.tasks[t].until <= s.settled;
  }
}
