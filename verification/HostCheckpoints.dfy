/**
 * Session-end checkpoints and the end of a turn: no session leaves the pool without its
 * checkpoint being started, and a turn that ends loses and reorders none of the inputs it leaves.
 */
module HostCheckpoints {
  import opened Common
  import opened HostModel
  import opened HostInvariants
  import opened HostInputs
  import opened HostQueue

  /**
   * Pending checkpoints stay pending, and every pooled session is still pooled with its runtime or has its own
   * pending.
   */
  ghost predicate Checkpointed(s: Host, s': Host) {
    && s.drains <= s'.drains
    && forall k <- s.pool :: (k in s'.pool && s'.pool[k] == s.pool[k]) || Drain(s.pool[k], k) in s'.drains
  }

  ghost predicate PoolKept(s: Host, s': Host) {
    s'.pool == s.pool && s'.drains == s.drains
  }

  lemma SamePool(s: Host, s': Host)
    requires PoolKept(s, s')
    ensures Checkpointed(s, s')
  {}

  lemma GrownPool(s: Host, s': Host)
    requires s'.pool == s.pool && s.drains <= s'.drains
    ensures Checkpointed(s, s')
  {}

  lemma StartKeepsPool(s: Host, key: Key, text: Text, launch: Option<Launch>)
    requires Wf(s) && (launch.Some? ==> launch.value.rt < |s.runtimes|)
    ensures PoolKept(s, StartTurn(s, key, text, launch)) && PoolKept(s, Reserve(s, key, text, launch))
  {
    hide Wf;
  }

  lemma ExternalKeepsPool(s: Host, key: Key)
    requires Wf(s)
    ensures PoolKept(s, DeliverExternal(s, key))
  {
    hide Wf, Fitting;
  }

  /** The end of this turn drops its session: in the background, on a host that spawns, with nothing to follow. */
  predicate Evicts(s: Host, t: TaskId, routed: Routing)
    requires Wf(s) && t < |s.tasks| && s.tasks[t].Running?
  {
    && |routed.fates| >= |s.runtimes[s.tasks[t].rt].agent.steering|
    && s.tasks[t].sk != s.activeKey && s.spawns
    && (Closing(s) || routed.queue == [])
  }

  /** The end of a turn drops its own session, and then starts that session's checkpoint, or keeps the pool. */
  lemma FinishTurnPool(s: Host, t: TaskId)
    requires Wf(s) && t < |s.tasks| && s.tasks[t].Running?
    ensures var task, r, s' := s.tasks[t], s.runtimes[s.tasks[t].rt], FinishTurn(s, t);
      if Evicts(s, t, Route(r.agent.steering, Routing(r.queue, [], []), Closing(s))) then
        s'.pool == s.pool - {task.sk} && s'.drains == s.drains + {Drain(task.rt, r.agent.sessionKey)}
      else PoolKept(s, s')
  {
    var r := s.runtimes[s.tasks[t].rt];
    hide Wf, Route, RunPendingSwitch, ScheduleNext, TakeNext;
    var routed := Route(r.agent.steering, Routing(r.queue, [], []), Closing(s));
    var s1 := Finish(SetRuntime(s, s.tasks[t].rt,
      r.(turn := None, queue := routed.queue, agent := r.agent.(steering := routed.steering))), t);
    var s2 := s1.(peerWakes := if Resteered in routed.fates then s1.peerWakes + {s.tasks[t].sk} else s1.peerWakes);
    NextKeepsPool(s2, s.tasks[t].rt);
    var (s3, next) := TakeNext(s2, s.tasks[t].rt);
    var s4 := if s.tasks[t].sk != s3.activeKey && s3.spawns && next.None?
      then Evict(s3, s.tasks[t].sk, s.tasks[t].rt) else s3;
    FollowKeepsPool(s4, s.tasks[t].sk, next);
  }

  lemma NextKeepsPool(s: Host, id: RuntimeId)
    requires id < |s.runtimes|
    ensures var s' := TakeNext(s, id).0;
      && PoolKept(s, s') && |s'.runtimes| == |s.runtimes| && s'.activeKey == s.activeKey && s'.spawns == s.spawns
      && s'.runtimes[id].agent.sessionKey == s.runtimes[id].agent.sessionKey
      && (TakeNext(s, id).1.None? <==> Closing(s) || s.runtimes[id].queue == [])
  {}

  lemma FollowKeepsPool(s: Host, key: Key, next: Option<Queued>)
    ensures var s' := ScheduleNext(RunPendingSwitch(s), key, next);
      && s'.pool == s.pool && s'.drains == s.drains && s'.runtimes == s.runtimes && s'.peerWakes == s.peerWakes
      && s'.tasks == s.tasks + (if next.Some? then [Scheduled(key, next.value.text)] else [])
  {}

  lemma FinishTurnCheckpoints(s: Host, t: TaskId)
    requires Owned(s) && t < |s.tasks| && s.tasks[t].Running?
    ensures Checkpointed(s, FinishTurn(s, t))
  {
    hide PoolOwned, TurnsPooled, LatchesOwned, MutationsSerial, DrainsHonest, LaunchesResolve, FinishTurn, Wf;
    LatchOf(s, t);
    FinishTurnPool(s, t);
  }

  lemma AbandonCheckpoints(s: Host, t: TaskId)
    requires Owned(s) && t < |s.tasks| && s.tasks[t].Validating?
    ensures Checkpointed(s, Abandon(s, t))
  {
    LatchOf(s, t);
    hide PoolOwned, TurnsPooled, LatchesOwned, MutationsSerial, DrainsHonest, LaunchesResolve, Wf;
  }

  lemma PolicyCheckpoints(s: Host, t: TaskId, outcome: PolicyOutcome)
    requires Owned(s) && t < |s.tasks| && s.tasks[t].Validating?
    ensures Checkpointed(s, PolicyReturn(s, t, outcome))
  {
    AbandonCheckpoints(s, t);
    hide PoolOwned, TurnsPooled, LatchesOwned, MutationsSerial, DrainsHonest, Abandon;
  }

  lemma FinishKeepsPool(s: Host, t: TaskId)
    requires Owned(s) && t < |s.tasks| && !InFlight(s.tasks[t])
    ensures Wf(Finish(s, t)) && PoolKept(s, Finish(s, t))
  {
    FinishWf(s, t);
  }

  lemma ContinuationCheckpoints(s: Host, e: Event)
    requires Owned(s)
    requires e.TailSettled? || e.PolicyReturned? || e.TurnReturned? || e.ScheduledStart? || e.IntentIssued?
    ensures Checkpointed(s, Step(s, e))
  {
    hide PoolOwned, TurnsPooled, LatchesOwned, MutationsSerial, DrainsHonest, LaunchesResolve, Wf, Checkpointed;
    hide StartTurn, Reserve, FinishTurn, PolicyReturn;
    SamePool(s, s);
    if e.task < |s.tasks| {
      if InFlight(s.tasks[e.task]) {
        if e.TurnReturned? && s.tasks[e.task].Running? { FinishTurnCheckpoints(s, e.task); }
        if e.PolicyReturned? && s.tasks[e.task].Validating? { PolicyCheckpoints(s, e.task, e.outcome); }
      } else {
        ResumeKeepsOwned(s, e.task);
        FinishKeepsPool(s, e.task);
        ResumedKeepsPool(s, e);
        SamePool(s, Step(s, e));
      }
    }
  }

  lemma ResumedKeepsPool(s: Host, e: Event)
    requires Owned(s)
    requires e.TailSettled? || e.PolicyReturned? || e.TurnReturned? || e.ScheduledStart? || e.IntentIssued?
    requires e.task < |s.tasks| && !InFlight(s.tasks[e.task])
    ensures PoolKept(s, Step(s, e))
  {
    hide PoolOwned, TurnsPooled, LatchesOwned, MutationsSerial, DrainsHonest, LaunchesResolve, Wf, StartTurn, Reserve;
    ResumeKeepsOwned(s, e.task);
    FinishKeepsPool(s, e.task);
    var s1 := Finish(s, e.task);
    match s.tasks[e.task]
    case WaitingStart(key, text, launch, _) => StartKeepsPool(s1, key, text, launch);
    case Issuing(key, rt, text, at) => StartKeepsPool(s1, key, text, Some(Launch(rt, at, e.task)));
    case Scheduled(key, text) => StartKeepsPool(s1, key, text, None);
    case Done =>
  }

  lemma InputKeepsPool(s: Host, e: Event)
    requires Wf(s) && LaunchesResolve(s)
    requires e.Deliver? || e.AgentAdmits? || e.PeerMessage? || e.PeerWake? || e.Publish? || e.ResumeTimer?
      || e.ReviewedStart?
    ensures PoolKept(s, Step(s, e))
  {
    hide Wf, LaunchesResolve, StartTurn, DeliverExternal;
    match e
    case Deliver(mode, body) => StartKeepsPool(s, s.activeKey, Text(User, s.activeKey, body), None);
    case PeerWake(key) => WakeKeepsPool(s, key);
    case Publish(key, body) => PublishKeepsPool(s, key, body);
    case ResumeTimer(body) => StartKeepsPool(s, s.activeKey, Text(HostPrompt, s.activeKey, body), None);
    case _ =>
  }

  lemma WakeKeepsPool(s: Host, key: Key)
    requires Wf(s)
    ensures key in s.peerWakes ==> PoolKept(s, WakePeer(s, key))
  {
    var s1 := s.(peerWakes := s.peerWakes - {key});
    assert Wf(s1);
    StartKeepsPool(s1, key, Text(HostPrompt, key, WAKE_PROMPT),
      None);
    hide Wf, StartTurn;
  }

  lemma PublishKeepsPool(s: Host, key: Key, body: string)
    requires Wf(s)
    ensures PoolKept(s, PublishExternal(s, key, body))
  {
    var pending := if key in s.inbox then s.inbox[key] else [];
    var s1 := s.(inbox := s.inbox[key := pending + [Text(Extension, key, body)]]);
    assert Wf(s1);
    ExternalKeepsPool(s1, key);
    hide Wf, DeliverExternal;
  }

  lemma FocusCheckpoints(s: Host, switch: Switch)
    requires Owned(s) && s.mutations != []
    ensures Checkpointed(s, Focus(s, switch))
  {
    var s1 := s.(activeKey := switch.target);
    assert Wf(s1);
    ExternalKeepsPool(s1, switch.target);
    hide TurnsPooled, LatchesOwned, MutationsSerial, DrainsHonest, LaunchesResolve, DeliverExternal;
  }

  lemma StartHeadCheckpoints(s: Host, uuids: seq<string>)
    requires Owned(s) && s.mutations != [] && s.mutations[0].phase.Waiting?
    ensures Checkpointed(s, StartHead(s, uuids))
  {
    hide PoolOwned, TurnsPooled, LatchesOwned, MutationsSerial, DrainsHonest, LaunchesResolve, Wf, Focus;
    var minted := Mint(s, uuids, MINT_ATTEMPTS);
    match s.mutations[0].request {
      case NewSession => if minted.Some? { FocusCheckpoints(s, Switch(minted.value, FreshStart)); }
      case ResumeSession(key) =>
        FocusCheckpoints(s, Switch(key, LazyResume));
        FocusCheckpoints(s, Switch(key, FreshStart));
      case DeferredSwitch(switch) => FocusCheckpoints(s, switch);
      case _ =>
    }
  }

  lemma RetargetCheckpoints(s: Host, id: RuntimeId, switch: Switch, outcome: InstallOutcome)
    requires Wf(s) && s.mutations != [] && id < |s.runtimes| && switch.target !in s.pool
    ensures Checkpointed(s, Retarget(s, id, switch, outcome))
  {
    var s1 := SetRuntime(s, id, Retargeted(s.runtimes[id], switch))
      .(pool := s.pool[switch.target := id], activeKey := switch.target);
    assert Wf(s1);
    ExternalKeepsPool(s1, switch.target);
    hide Wf, DeliverExternal;
  }

  lemma InstallCheckpoints(s: Host, outcome: InstallOutcome)
    requires Owned(s) && s.mutations != [] && s.mutations[0].phase.AwaitingTarget?
    ensures Checkpointed(s, Install(s, outcome))
  {
    hide PoolOwned, TurnsPooled, LatchesOwned, DrainsHonest, LaunchesResolve, Retarget;
    var p := s.mutations[0].phase;
    assert PhaseHolds(s, s.mutations[0]);
    if p.reused.Some? {
      RetargetCheckpoints(s, p.reused.value, p.switch, outcome);
    } else {
      SpawnKeepsOwned(s, FreshRuntime(p.switch.target));
      RetargetCheckpoints(s.(runtimes := s.runtimes + [FreshRuntime(p.switch.target)]), |s.runtimes|, p.switch,
        outcome);
    }
  }

  /** The other phases of the mutation at the head drop no session. */
  lemma PhaseCheckpoints(s: Host, deadline: bool, installed: bool)
    requires Wf(s) && s.mutations != []
    ensures s.mutations[0].phase.ParkingCurrent? ==> Checkpointed(s, ParkedCurrent(s))
    ensures s.mutations[0].phase.StoppingTurns? ==> Checkpointed(s, PollTurns(s, deadline))
    ensures s.mutations[0].phase.Replacing? && s.pool == map[] ==> Checkpointed(s, InstallReplacement(s, installed))
    ensures s.mutations[0].phase.AwaitingIdle? ==> Checkpointed(s, PollLearning(s))
  {
    hide Wf, PoolRunning;
  }

  lemma HeadCheckpoints(s: Host, e: Event)
    requires Owned(s) && HeadEvent(e) && !e.PoolDrained?
    ensures Checkpointed(s, Step(s, e))
  {
    hide PoolOwned, TurnsPooled, LatchesOwned, MutationsSerial, DrainsHonest, LaunchesResolve, Wf, StartHead, Install;
    hide PoolRunning, ParkedCurrent, PollTurns, InstallReplacement, PollLearning, RequestReplacement, Checkpointed;
    hide DeliverInput, DeliverPeer, WakePeer, AutoResume, PublishExternal, BeginReviewed, Reserve, StartTurn;
    hide PolicyReturn, FinishTurn, IntentReturn;
    SamePool(s, s);
    if s.mutations != [] {
      HeadFacts(s);
      PhaseCheckpoints(s, e.RebindPoll? && e.deadline, e.ReplacementReturned? && e.installed);
      if e.HeadStarts? && s.mutations[0].phase.Waiting? {
        StartHeadCheckpoints(s, e.uuids);
      } else if e.TargetDrained? && s.mutations[0].phase.AwaitingTarget? {
        InstallCheckpoints(s, e.install);
      }
    }
  }

  /**
   * Whatever happens, no session leaves the pool before its checkpoint was started, and a started
   * checkpoint stays pending until it settles; only the tenant switch empties the pool, and only
   * once every checkpoint has settled.
   */
  lemma NoSessionLeavesUncheckpointed(s: Host, e: Event)
    requires Owned(s)
    ensures Checkpointed(s, Step(s, e))
      || (e.DrainSettled? && Step(s, e).pool == s.pool && Step(s, e).drains == s.drains - {e.drain})
      || (e.PoolDrained? && s.mutations != [] && s.mutations[0].phase.DrainingPool?
          && Step(s, e).pool == map[] && Step(s, e).drains == s.drains == {})
  {
    hide PoolOwned, TurnsPooled, LatchesOwned, MutationsSerial, DrainsHonest, LaunchesResolve, Wf, Checkpointed;
    if e.TailSettled? || e.PolicyReturned? || e.TurnReturned? || e.ScheduledStart? || e.IntentIssued? {
      ContinuationCheckpoints(s, e);
    } else if e.Deliver? || e.AgentAdmits? || e.PeerMessage? || e.PeerWake? || e.Publish? || e.ResumeTimer?
      || e.ReviewedStart? {
      InputKeepsPool(s, e);
      SamePool(s, Step(s, e));
    } else if HeadEvent(e) && !e.PoolDrained? {
      HeadCheckpoints(s, e);
    } else {
      hide DeliverInput, DeliverPeer, WakePeer, AutoResume, PublishExternal, BeginReviewed, Reserve, StartTurn;
      hide PolicyReturn, FinishTurn;
      hide IntentReturn, StartHead, Install, InstallReplacement, PollLearning, PollTurns;
      if Step(s, e).pool == s.pool && s.drains <= Step(s, e).drains { GrownPool(s, Step(s, e)); }
    }
  }

  /** Before it drains, the tenant switch starts the checkpoint of every pooled session. */
  lemma TenantSwitchCheckpointsAll(s: Host, deadline: bool)
    requires Owned(s) && s.mutations != [] && s.mutations[0].phase.StoppingTurns?
    requires PollTurns(s, deadline).mutations != [] && PollTurns(s, deadline).mutations[0].phase.DrainingPool?
    ensures forall k <- s.pool :: Drain(s.pool[k], k) in PollTurns(s, deadline).drains
    ensures NoTurnInFlight(s)
  {
    HeadFacts(s);
    QuietPoolHasNoTurn(s) by { assert !PoolRunning(s); }
  }

  /** Until then it waits while a pooled turn runs, and gives up, lifting the ban on turns, only at the deadline. */
  lemma TenantSwitchWaits(s: Host, deadline: bool)
    requires Owned(s) && s.mutations != [] && s.mutations[0].phase.StoppingTurns? && !NoTurnInFlight(s)
    ensures var s' := Step(s, RebindPoll(deadline));
      if deadline then s' == s.(tenantRebinding := false, mutations := s.mutations[1..], settled := s.settled + 1)
      else s' == s
  {
    if !PoolRunning(s) { QuietPoolHasNoTurn(s); }
    hide PoolOwned, TurnsPooled, LatchesOwned, MutationsSerial, DrainsHonest, LaunchesResolve, Wf;
  }

  /** With no turn in flight it goes on to wait for the checkpoints of the whole pool. */
  lemma TenantSwitchDrains(s: Host, deadline: bool)
    requires Owned(s) && s.mutations != [] && s.mutations[0].phase.StoppingTurns? && NoTurnInFlight(s)
    ensures var s' := Step(s, RebindPoll(deadline));
      && s'.mutations != [] && s'.mutations[0].phase == DrainingPool(s.activeKey) && s'.pool == s.pool
      && s'.drains == s.drains + set k <- s.pool :: Drain(s.pool[k], k)
  {
    HeadFacts(s);
    assert PhaseHolds(s, s.mutations[0]);
    assert !PoolRunning(s);
    hide TurnsPooled, LatchesOwned, MutationsSerial, DrainsHonest, LaunchesResolve;
  }

  /** A host that shuts down starts the checkpoint of every pooled session. */
  lemma ShutdownCheckpointsAll(s: Host)
    requires Owned(s) && s.shuttingDown
    ensures Step(s, ShutdownDrain) == s.(drains := s.drains + set k <- s.pool :: Drain(s.pool[k], k))
  {
    hide TurnsPooled, LatchesOwned, MutationsSerial, DrainsHonest, LaunchesResolve;
  }

  // ---------------------------------------------------------------------------------------
  // The end of a turn
  // ---------------------------------------------------------------------------------------

  /** What the end of a turn leaves, when the loop over the leftover steers ran to its end. */
  lemma TurnEndShape(s: Host, t: TaskId, routed: Routing)
    requires Owned(s) && t < |s.tasks| && s.tasks[t].Running? && !Closing(s)
    requires var r := s.runtimes[s.tasks[t].rt];
      routed == Route(r.agent.steering, Routing(r.queue, [], []), false) && |routed.fates| >= |r.agent.steering|
    ensures var task, s' := s.tasks[t], FinishTurn(s, t); var r' := s'.runtimes[task.rt];
      && r'.queue == (if routed.queue == [] then [] else routed.queue[1..]) && r'.agent.steering == routed.steering
      && s'.tasks == s.tasks[t := Done] + (if routed.queue == []
          then [] else [Scheduled(task.key, routed.queue[0].text)])
      && s'.peerWakes == s.peerWakes + (if Resteered in routed.fates then {task.key} else {})
  {
    hide PoolOwned, TurnsPooled, LatchesOwned, MutationsSerial, DrainsHonest, LaunchesResolve, Wf, Route;
    hide RunPendingSwitch, ScheduleNext;
    LatchOf(s, t);
    var task := s.tasks[t];
    var r := s.runtimes[task.rt];
    var s1 := Finish(SetRuntime(s, task.rt,
      r.(turn := None, queue := routed.queue, agent := r.agent.(steering := routed.steering))), t);
    var s2 := s1.(peerWakes := if Resteered in routed.fates then s1.peerWakes + {task.sk} else s1.peerWakes);
    var (s3, next) := TakeNext(s2, task.rt);
    FollowKeepsPool(s3, task.sk, next);
    FollowKeepsPool(Evict(s3, task.sk, task.rt), task.sk, next);
  }

  /**
   * An open host that has room for the leftover steers conserves every input at the end of a turn:
   * what was queued, followed by the user and extension steers in their order, is the next input
   * and the new queue, and the peer steers stay with the agent.
   */
  lemma TurnEndConserves(s: Host, t: TaskId)
    requires Owned(s) && t < |s.tasks| && s.tasks[t].Running? && !Closing(s)
    requires var r := s.runtimes[s.tasks[t].rt]; Fits(r.agent.steering, r.queue, false)
    ensures var task, r, r' := s.tasks[t], s.runtimes[s.tasks[t].rt], FinishTurn(s, t).runtimes[s.tasks[t].rt];
      var inputs := r.queue + Requeueable(r.agent.steering);
      && (inputs == [] ==> r'.queue == [] && FinishTurn(s, t).tasks == s.tasks[t := Done])
      && (inputs != [] ==>
            && [inputs[0]] + r'.queue == inputs
            && FinishTurn(s, t).tasks == s.tasks[t := Done] + [Scheduled(task.key, inputs[0].text)])
      && r'.agent.steering == Resteerable(r.agent.steering)
  {
    var r := s.runtimes[s.tasks[t].rt];
    hide PoolOwned, TurnsPooled, LatchesOwned, MutationsSerial, DrainsHonest, LaunchesResolve, Wf, Route, Requeueable;
    hide Resteerable, Fits, FinishTurn;
    var start := Routing(r.queue, [], []);
    RouteExactly(r.agent.steering, start, false);
    RouteCompletes(r.agent.steering, start, false);
    TurnEndShape(s, t, Route(r.agent.steering, start, false));
    assert [] + Resteerable(r.agent.steering) == Resteerable(r.agent.steering);
    assert s.tasks[t := Done] + [] == s.tasks[t := Done];
  }

  /**
   * When a turn ends and its leftover steers fit, its session leaves the pool and its checkpoint is
   * started exactly if it is not viewed, the host spawns, and the host is closing or no input is left
   * for it; otherwise pool and pending checkpoints stay as they are.
   */
  lemma TurnEndEvicts(s: Host, t: TaskId)
    requires Owned(s) && t < |s.tasks| && s.tasks[t].Running?
    requires var r := s.runtimes[s.tasks[t].rt]; Fits(r.agent.steering, r.queue, Closing(s))
    ensures var task, r, s' := s.tasks[t], s.runtimes[s.tasks[t].rt], Step(s, TurnReturned(t));
      if task.key != s.activeKey && s.spawns && (Closing(s) || r.queue + Requeueable(r.agent.steering) == []) then
        s'.pool == s.pool - {task.key} && s'.drains == s.drains + {Drain(task.rt, task.key)}
      else PoolKept(s, s')
  {
    hide PoolOwned, TurnsPooled, LatchesOwned, MutationsSerial, DrainsHonest, LaunchesResolve, Route, Requeueable;
    hide Resteerable, Fits, FinishTurn, Wf;
    LatchOf(s, t);
    var r := s.runtimes[s.tasks[t].rt];
    FinishTurnPool(s, t);
    RouteExactly(r.agent.steering, Routing(r.queue, [], []), Closing(s));
    RouteCompletes(r.agent.steering, Routing(r.queue, [], []), Closing(s));
  }

  /**
   * A reviewed launch abandoned after its policy check gives its latch back, and drops its session
   * with a checkpoint exactly if that is in the background of a host that spawns and idle: no input,
   * no steer and no wake are pending for it.
   */
  lemma AbandonEvicts(s: Host, t: TaskId, outcome: PolicyOutcome)
    requires Owned(s) && t < |s.tasks| && s.tasks[t].Validating? && s.tasks[t].launch.Some?
    requires !LaunchIsCurrent(s, s.tasks[t].key, s.tasks[t].launch.value, s.tasks[t].reservedAt)
    ensures var task, r, s' := s.tasks[t], s.runtimes[s.tasks[t].rt], Step(s, PolicyReturned(t, outcome));
      && |s'.runtimes| == |s.runtimes| && s'.runtimes[task.rt].turn == None
      && (if task.key != s.activeKey && s.spawns && r.queue == [] && r.agent.steering == [] && task.key !in s.peerWakes
          then s'.pool == s.pool - {task.key} && s'.drains == s.drains + {Drain(task.rt, task.key)}
          else PoolKept(s, s'))
  {
    hide PoolOwned, TurnsPooled, LatchesOwned, MutationsSerial, DrainsHonest, Wf, LaunchIsCurrent, Abandon;
    LatchOf(s, t);
    AbandonPool(s, t);
  }

  lemma AbandonPool(s: Host, t: TaskId)
    requires Wf(s) && t < |s.tasks| && s.tasks[t].Validating?
    requires s.tasks[t].key in s.pool && s.pool[s.tasks[t].key] == s.tasks[t].rt
    ensures var task, r, s' := s.tasks[t], s.runtimes[s.tasks[t].rt], Abandon(s, t);
      && |s'.runtimes| == |s.runtimes| && s'.runtimes[task.rt].turn == None
      && (if task.key != s.activeKey && s.spawns && r.queue == [] && r.agent.steering == [] && task.key !in s.peerWakes
          then s'.pool == s.pool - {task.key} && s'.drains == s.drains + {Drain(task.rt, r.agent.sessionKey)}
          else PoolKept(s, s'))
  {
    var task := s.tasks[t];
    var s1 := Finish(SetRuntime(s, task.rt, s.runtimes[task.rt].(turn := None)), t);
    hide Wf;
    assert TakeNext(s1, task.rt).1.None? <==> Closing(s) || s.runtimes[task.rt].queue == [];
  }

  /** The abandoned launch lets its session go on: the oldest input is scheduled, and a deferred switch queued. */
  lemma AbandonGoesOn(s: Host, t: TaskId, outcome: PolicyOutcome)
    requires Owned(s) && t < |s.tasks| && s.tasks[t].Validating? && s.tasks[t].launch.Some?
    requires !LaunchIsCurrent(s, s.tasks[t].key, s.tasks[t].launch.value, s.tasks[t].reservedAt)
    ensures var task, s' := s.tasks[t], Step(s, PolicyReturned(t, outcome));
      var q, goes := s.runtimes[task.rt].queue, !Closing(s) && s.runtimes[task.rt].queue != [];
      && |s'.runtimes| == |s.runtimes|
      && s'.tasks == s.tasks[t := Done] + (if goes then [Scheduled(task.key, q[0].text)] else [])
      && s'.runtimes[task.rt].queue == (if goes then q[1..] else q)
      && s'.pendingSwitch == None
      && s'.mutations == s.mutations + (if s.pendingSwitch.Some? && !s.shuttingDown
          then [Mutation(DeferredSwitch(s.pendingSwitch.value), Waiting)] else [])
  {
    hide PoolOwned, TurnsPooled, LatchesOwned, MutationsSerial, DrainsHonest, Wf, LaunchIsCurrent;
    LatchOf(s, t);
  }

  /** A turn that its policy check refuses gives its latch back, and that is all. */
  lemma RefusalReleases(s: Host, t: TaskId, outcome: PolicyOutcome)
    requires Owned(s) && t < |s.tasks| && s.tasks[t].Validating? && outcome != Allowed
    requires var task := s.tasks[t];
      task.launch.Some? ==> LaunchIsCurrent(s, task.key, task.launch.value, task.reservedAt)
    ensures var s' := Step(s, PolicyReturned(t, outcome)); var id := s.tasks[t].rt;
      s' == s.(tasks := s.tasks[t := Done], runtimes := s.runtimes[id := s.runtimes[id].(turn := None)])
  {
    hide PoolOwned, TurnsPooled, LatchesOwned, MutationsSerial, DrainsHonest, Wf, LaunchIsCurrent, Abandon;
    LatchOf(s, t);
  }

  /** A deferred switch joins the mutation queue at the end of a turn, unless the host shuts down, which drops it. */
  lemma TurnEndSwitches(s: Host, t: TaskId)
    requires Owned(s) && t < |s.tasks| && s.tasks[t].Running?
    requires var r := s.runtimes[s.tasks[t].rt]; Fits(r.agent.steering, r.queue, Closing(s))
    ensures var s' := Step(s, TurnReturned(t));
      && s'.pendingSwitch == None
      && s'.mutations == s.mutations + (if s.pendingSwitch.Some? && !s.shuttingDown
          then [Mutation(DeferredSwitch(s.pendingSwitch.value), Waiting)] else [])
  {
    hide PoolOwned, TurnsPooled, LatchesOwned, MutationsSerial, DrainsHonest, LaunchesResolve, Route, Fits, Wf;
    LatchOf(s, t);
    var r := s.runtimes[s.tasks[t].rt];
    RouteCompletes(r.agent.steering, Routing(r.queue, [], []), Closing(s));
  }

  /** At the end of a turn of a closing host the leftover steers are gone, the queue stays, and nothing follows. */
  lemma TurnEndClosing(s: Host, t: TaskId)
    requires Owned(s) && t < |s.tasks| && s.tasks[t].Running? && Closing(s)
    ensures var task, s' := s.tasks[t], Step(s, TurnReturned(t));
      && |s'.runtimes| == |s.runtimes| && s'.tasks == s.tasks[t := Done] && s'.peerWakes == s.peerWakes
      && s'.runtimes[task.rt].turn == None && s'.runtimes[task.rt].agent.steering == []
      && s'.runtimes[task.rt].queue == s.runtimes[task.rt].queue
  {
    hide PoolOwned, TurnsPooled, LatchesOwned, MutationsSerial, DrainsHonest, LaunchesResolve, Route, Wf;
    LatchOf(s, t);
    var r := s.runtimes[s.tasks[t].rt];
    var start := Routing(r.queue, [], []);
    RouteExactly(r.agent.steering, start, true);
    RouteCompletes(r.agent.steering, start, true);
    ClosingCancels(r.agent.steering, start);
  }

  lemma {:induction false} ClosingCancels(pending: seq<Steer>, r: Routing)
    ensures Resteered in Route(pending, r, true).fates <==> Resteered in r.fates
  {
    if pending != [] { ClosingCancels(pending[1..], Admit(pending[0], r, true)); }
  }

  /** A wake is scheduled at the end of such a turn exactly when peer steers went back to the agent. */
  lemma TurnEndWakes(s: Host, t: TaskId)
    requires Owned(s) && t < |s.tasks| && s.tasks[t].Running? && !Closing(s)
    requires var r := s.runtimes[s.tasks[t].rt]; Fits(r.agent.steering, r.queue, false)
    ensures FinishTurn(s, t).peerWakes ==
      s.peerWakes + (if Resteerable(s.runtimes[s.tasks[t].rt].agent.steering) != [] then {s.tasks[t].key} else {})
  {
    var r := s.runtimes[s.tasks[t].rt];
    hide PoolOwned, TurnsPooled, LatchesOwned, MutationsSerial, DrainsHonest, LaunchesResolve, Wf, Route, Requeueable;
    hide Resteerable, Fits, FinishTurn;
    var start := Routing(r.queue, [], []);
    RouteCompletes(r.agent.steering, start, false);
    TurnEndShape(s, t, Route(r.agent.steering, start, false));
    WakesForResteered(r.agent.steering, start);
  }

  lemma {:induction false} WakesForResteered(pending: seq<Steer>, r: Routing)
    requires Fits(pending, r.queue, false)
    ensures Resteered in Route(pending, r, false).fates <==> Resteered in r.fates || Resteerable(pending) != []
  {
    if pending != [] {
      var p := pending[0];
      assert |Requeueable(pending)| == (if p.source == Peer then 0 else 1) + |Requeueable(pending[1..])|;
      WakesForResteered(pending[1..], Admit(p, r, false));
    }
  }
}
