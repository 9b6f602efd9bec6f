/**
 * What every step of the session host keeps, whatever the interleaving: ownership of pooled
 * runtimes and of the `running` latch, the phases of session mutations, and pending checkpoints.
 */
module HostInvariants {
  import opened Common
  import opened HostModel

  /** Every pooled agent's session key is its pool key (so no agent is pooled twice). */
  ghost predicate PoolOwned(s: Host)
    requires Wf(s)
  {
    forall k <- s.pool :: s.runtimes[s.pool[k]].agent.sessionKey == k
  }

  /** A turn in flight holds the latch of a runtime that is pooled under the turn's own session. */
  ghost predicate TurnsPooled(s: Host)
    requires Wf(s)
  {
    forall t :: 0 <= t < |s.tasks| && InFlight(s.tasks[t]) ==>
      && s.tasks[t].key in s.pool
      && s.pool[s.tasks[t].key] == s.tasks[t].rt
      && s.runtimes[s.tasks[t].rt].turn == Some(t)
      && (s.tasks[t].Running? ==> s.tasks[t].sk == s.tasks[t].key)
  }

  /** A latched runtime is latched by a turn that is in flight. */
  ghost predicate LatchesOwned(s: Host)
    requires Wf(s)
  {
    forall id :: 0 <= id < |s.runtimes| && s.runtimes[id].turn.Some? ==>
      && s.runtimes[id].turn.value < |s.tasks|
      && InFlight(s.tasks[s.runtimes[id].turn.value])
      && s.tasks[s.runtimes[id].turn.value].rt == id
  }

  ghost predicate Unpooled(s: Host, id: RuntimeId) {
    forall k <- s.pool :: s.pool[k] != id
  }

  ghost predicate NoTurnInFlight(s: Host) {
    forall t :: 0 <= t < |s.tasks| ==> !InFlight(s.tasks[t])
  }

  /** What holds while the head of the mutation queue waits in each phase. */
  ghost predicate PhaseHolds(s: Host, m: Mutation)
    requires Wf(s)
  {
    match m.phase
    case Waiting => true
    case ParkingCurrent(rt, switch) =>
      && rt < |s.runtimes| && Unpooled(s, rt)
      && switch.target !in s.pool
      && s.runtimes[rt].agent.sessionKey != switch.target
    case AwaitingTarget(reused, switch, snapshot) =>
      && switch.target !in s.pool
      && DrainsFor(s, switch.target) <= snapshot
      && (reused.Some? ==>
            && reused.value < |s.runtimes| && Unpooled(s, reused.value)
            && s.runtimes[reused.value].agent.sessionKey != switch.target
            && (forall d <- s.drains :: d.rt != reused.value))
    case StoppingTurns(home) => s.activeKey == home
    case DrainingPool(home) => s.activeKey == home && NoTurnInFlight(s)
    case Replacing(home) => s.activeKey == home && NoTurnInFlight(s) && s.pool == map[]
    case AwaitingIdle(binding) => m.request == BindLearning(binding)
  }

  /** Only the oldest unsettled mutation has begun; the rebinding flag is up exactly while it is a tenant switch. */
  ghost predicate MutationsSerial(s: Host)
    requires Wf(s)
  {
    && (forall i :: 0 < i < |s.mutations| ==> s.mutations[i].phase.Waiting?)
    && (s.mutations != [] ==> PhaseHolds(s, s.mutations[0]))
    && (s.tenantRebinding <==> s.mutations != [] && Rebinding(s.mutations[0].phase))
  }

  /** A pending checkpoint belongs to the agent's present session: no agent is retargeted under its own drain. */
  ghost predicate DrainsHonest(s: Host)
    requires Wf(s)
  {
    forall d <- s.drains :: s.runtimes[d.rt].agent.sessionKey == d.key
  }

  ghost predicate Owned(s: Host) {
    && Wf(s)
    && LaunchesResolve(s)
    && PoolOwned(s)
    && TurnsPooled(s)
    && LatchesOwned(s)
    && MutationsSerial(s)
    && DrainsHonest(s)
  }

  // ---------------------------------------------------------------------------------------
  // Steps that leave ownership alone
  // ---------------------------------------------------------------------------------------

  /** A continuation that holds no latch and no launch. */
  predicate Idle(t: Task) {
    t.Done? || t.Scheduled? || (t.WaitingStart? && t.launch.None?)
  }

  /** `s'` differs from `s` only in queues, steers, histories, wakes and continuations that hold nothing. */
  ghost predicate Passive(s: Host, s': Host) {
    && s'.pool == s.pool && s'.activeKey == s.activeKey
    && s'.tenantRebinding == s.tenantRebinding && s'.shuttingDown == s.shuttingDown
    && s'.mutations == s.mutations && s'.drains == s.drains
    && |s'.runtimes| == |s.runtimes|
    && (forall id :: 0 <= id < |s.runtimes| ==>
          && s'.runtimes[id].agent.sessionKey == s.runtimes[id].agent.sessionKey
          && s'.runtimes[id].turn == s.runtimes[id].turn)
    && |s.tasks| <= |s'.tasks|
    && (forall t :: 0 <= t < |s.tasks| ==> s'.tasks[t] == s.tasks[t] || (!InFlight(s.tasks[t]) && Idle(s'.tasks[t])))
    && (forall t :: |s.tasks| <= t < |s'.tasks| ==> Idle(s'.tasks[t]))
  }

  lemma PassiveKeepsOwned(s: Host, s': Host)
    requires Owned(s) && Passive(s, s')
    ensures Owned(s')
  {
    assert s'.mutations != [] ==> PhaseHolds(s', s'.mutations[0]);
  }

  lemma PassiveExternal(s: Host, key: Key)
    requires Wf(s)
    ensures Passive(s, DeliverExternal(s, key))
  {}

  /** The latch is given back and its turn is over, whatever happens to the runtime's queues. */
  lemma ReleaseKeepsPool(s: Host, t: TaskId, r: Runtime)
    requires Owned(s) && t < |s.tasks| && InFlight(s.tasks[t])
    requires r.turn == None && r.agent.sessionKey == s.runtimes[s.tasks[t].rt].agent.sessionKey
    ensures var s' := Finish(SetRuntime(s, s.tasks[t].rt, r), t);
      Wf(s') && LaunchesResolve(s') && PoolOwned(s') && DrainsHonest(s') && MutationsSerial(s')
  {
    hide TurnsPooled, LatchesOwned;
    var s' := Finish(SetRuntime(s, s.tasks[t].rt, r), t);
    assert s'.mutations != [] ==> PhaseHolds(s', s'.mutations[0]);
  }

  lemma ReleaseKeepsOwned(s: Host, t: TaskId, r: Runtime)
    requires Owned(s) && t < |s.tasks| && InFlight(s.tasks[t])
    requires r.turn == None && r.agent.sessionKey == s.runtimes[s.tasks[t].rt].agent.sessionKey
    ensures Owned(Finish(SetRuntime(s, s.tasks[t].rt, r), t))
  {
    hide MutationsSerial, DrainsHonest, LaunchesResolve, PoolOwned;
    ReleaseKeepsPool(s, t, r);
  }

  lemma EvictKeepsOwned(s: Host, key: Key, id: RuntimeId)
    requires Owned(s) && key in s.pool && s.pool[key] == id && s.runtimes[id].turn == None
    ensures Owned(Evict(s, key, id))
  {
    var s' := Evict(s, key, id);
    assert s'.mutations != [] ==> PhaseHolds(s', s'.mutations[0]);
  }

  lemma EnqueueKeepsOwned(s: Host, r: Request)
    requires Owned(s)
    ensures Owned(Enqueue(s, r))
  {
    var s' := Enqueue(s, r);
    assert s.mutations != [] ==> PhaseHolds(s', s.mutations[0]);
  }

  lemma PendingSwitchKeepsOwned(s: Host)
    requires Owned(s)
    ensures Owned(RunPendingSwitch(s))
  {
    var s1 := s.(pendingSwitch := None);
    PassiveKeepsOwned(s, s1);
    hide PoolOwned, TurnsPooled, LatchesOwned, MutationsSerial, DrainsHonest, LaunchesResolve, Wf;
    if s.pendingSwitch.Some? {
      EnqueueKeepsOwned(s1, DeferredSwitch(s.pendingSwitch.value));
    }
  }

  /** A free pooled runtime is latched by a new turn. */
  lemma LatchKeepsOwned(s: Host, key: Key, t: Task)
    requires Owned(s) && !s.tenantRebinding && key in s.pool && !s.runtimes[s.pool[key]].Running()
    requires t.Validating? && t.key == key && t.rt == s.pool[key]
    requires t.launch.Some? ==> t.launch.value.rt < |s.runtimes|
    ensures Owned(AddTask(SetRuntime(s, t.rt, s.runtimes[t.rt].(turn := Some(|s.tasks|))), t))
  {
    var s' := AddTask(SetRuntime(s, t.rt, s.runtimes[t.rt].(turn := Some(|s.tasks|))), t);
    assert s'.mutations != [] ==> PhaseHolds(s', s'.mutations[0]);
  }

  lemma AdvanceKeepsOwned(s: Host, a: Authority)
    requires Owned(s)
    ensures Owned(Advance(s, a))
  {
    PassiveKeepsOwned(s, Advance(s, a));
  }

  lemma ReserveKeepsOwned(s: Host, key: Key, text: Text, launch: Option<Launch>)
    requires Owned(s) && (launch.Some? ==> launch.value.rt < |s.runtimes|)
    ensures Owned(Reserve(s, key, text, launch))
  {
    hide PoolOwned, TurnsPooled, LatchesOwned, MutationsSerial, DrainsHonest, LaunchesResolve;
    var s' := Reserve(s, key, text, launch);
    if s' != s {
      var t := Validating(key, s.pool[key], text, launch, Generation(s) + 1);
      LatchKeepsOwned(s, key, t);
      AdvanceKeepsOwned(AddTask(SetRuntime(s, t.rt, s.runtimes[t.rt].(turn := Some(|s.tasks|))), t),
        TurnReserved(key, |s.tasks|));
    }
  }

  lemma WaitKeepsOwned(s: Host, t: Task)
    requires Owned(s) && t.WaitingStart? && (t.launch.Some? ==> t.launch.value.rt < |s.runtimes|)
    ensures Owned(AddTask(s, t))
  {}

  lemma StartKeepsOwned(s: Host, key: Key, text: Text, launch: Option<Launch>)
    requires Owned(s) && (launch.Some? ==> launch.value.rt < |s.runtimes|)
    ensures Owned(StartTurn(s, key, text, launch))
  {
    hide PoolOwned, TurnsPooled, LatchesOwned, MutationsSerial, DrainsHonest, LaunchesResolve, Wf, Reserve;
    ReserveKeepsOwned(s, key, text, launch);
    WaitKeepsOwned(s, WaitingStart(key, text, launch, s.settled + |s.mutations|));
  }

  lemma NextKeepsOwned(s: Host, id: RuntimeId)
    requires Owned(s) && id < |s.runtimes|
    ensures Owned(TakeNext(s, id).0) && Passive(s, TakeNext(s, id).0)
  {
    PassiveKeepsOwned(s, TakeNext(s, id).0);
  }

  /** The deferred switch joins the mutation queue and the next input is scheduled. */
  lemma FollowUpKeepsOwned(s: Host, key: Key, next: Option<Queued>)
    requires Owned(s)
    ensures Owned(ScheduleNext(RunPendingSwitch(s), key, next))
    ensures Owned(ScheduleNext(s, key, next))
  {
    hide PoolOwned, TurnsPooled, LatchesOwned, MutationsSerial, DrainsHonest, LaunchesResolve, Wf;
    PendingSwitchKeepsOwned(s);
    PassiveKeepsOwned(s, ScheduleNext(s, key, next));
    PassiveKeepsOwned(RunPendingSwitch(s), ScheduleNext(RunPendingSwitch(s), key, next));
  }

  /** The turn's runtime is pooled under the turn's session and latched by this very turn. */
  lemma LatchOf(s: Host, t: TaskId)
    requires Owned(s) && t < |s.tasks| && InFlight(s.tasks[t])
    ensures s.tasks[t].rt < |s.runtimes| && s.runtimes[s.tasks[t].rt].turn == Some(t)
    ensures s.tasks[t].key in s.pool && s.pool[s.tasks[t].key] == s.tasks[t].rt
    ensures s.runtimes[s.tasks[t].rt].agent.sessionKey == s.tasks[t].key
    ensures s.tasks[t].Running? ==> s.tasks[t].sk == s.tasks[t].key
  {}

  lemma FinishTurnKeepsOwned(s: Host, t: TaskId)
    requires Owned(s) && t < |s.tasks| && s.tasks[t].Running?
    ensures Owned(FinishTurn(s, t))
  {
    hide PoolOwned, TurnsPooled, LatchesOwned, MutationsSerial, DrainsHonest, LaunchesResolve, Wf;
    LatchOf(s, t);
    var task := s.tasks[t];
    var r := s.runtimes[task.rt];
    var routed := Route(r.agent.steering, Routing(r.queue, [], []), Closing(s));
    var r1 := r.(turn := None, queue := routed.queue, agent := r.agent.(steering := routed.steering));
    ReleaseKeepsOwned(s, t, r1);
    var s1 := Finish(SetRuntime(s, task.rt, r1), t);
    var s2 := s1.(peerWakes := if Resteered in routed.fates then s1.peerWakes + {task.sk} else s1.peerWakes);
    PassiveKeepsOwned(s1, s2);
    NextKeepsOwned(s2, task.rt);
    var (s3, next) := TakeNext(s2, task.rt);
    EvictKeepsOwned(s3, task.sk, task.rt);
    FollowUpKeepsOwned(Evict(s3, task.sk, task.rt), task.sk, next);
    FollowUpKeepsOwned(s3, task.sk, next);
  }

  lemma AbandonKeepsOwned(s: Host, t: TaskId)
    requires Owned(s) && t < |s.tasks| && s.tasks[t].Validating?
    ensures Owned(Abandon(s, t))
  {
    hide PoolOwned, TurnsPooled, LatchesOwned, MutationsSerial, DrainsHonest, LaunchesResolve, Wf;
    LatchOf(s, t);
    var task := s.tasks[t];
    var r1 := s.runtimes[task.rt].(turn := None);
    ReleaseKeepsOwned(s, t, r1);
    var s1 := Finish(SetRuntime(s, task.rt, r1), t);
    NextKeepsOwned(s1, task.rt);
    var (s2, next) := TakeNext(s1, task.rt);
    PendingSwitchKeepsOwned(s2);
    var s3 := RunPendingSwitch(s2);
    FollowUpKeepsOwned(s3, task.key, next);
    if task.key in s3.pool && s3.pool[task.key] == task.rt {
      EvictKeepsOwned(s3, task.key, task.rt);
      FollowUpKeepsOwned(Evict(s3, task.key, task.rt), task.key, next);
    }
  }

  lemma BeginRunKeepsOwned(s: Host, t: TaskId)
    requires Owned(s) && t < |s.tasks| && s.tasks[t].Validating?
    ensures Owned(BeginRun(s, t))
  {
    var s' := BeginRun(s, t);
    assert s'.mutations != [] ==> PhaseHolds(s', s'.mutations[0]);
  }

  lemma PolicyReturnKeepsOwned(s: Host, t: TaskId, outcome: PolicyOutcome)
    requires Owned(s) && t < |s.tasks| && s.tasks[t].Validating?
    ensures Owned(PolicyReturn(s, t, outcome))
  {
    hide PoolOwned, TurnsPooled, LatchesOwned, MutationsSerial, DrainsHonest, LaunchesResolve, Wf, Abandon, BeginRun;
    LatchOf(s, t);
    AbandonKeepsOwned(s, t);
    ReleaseKeepsOwned(s, t, s.runtimes[s.tasks[t].rt].(turn := None));
    BeginRunKeepsOwned(s, t);
  }

  // ---------------------------------------------------------------------------------------
  // Inputs
  // ---------------------------------------------------------------------------------------

  lemma PassiveDeliver(s: Host, mode: DeliveryMode, body: string)
    requires Wf(s) && s.activeKey in s.pool && s.runtimes[s.pool[s.activeKey]].Running()
    ensures Passive(s, DeliverInput(s, mode, body))
  {}

  lemma DeliverKeepsOwned(s: Host, mode: DeliveryMode, body: string)
    requires Owned(s)
    ensures Owned(DeliverInput(s, mode, body))
  {
    if s.activeKey in s.pool {
      if s.runtimes[s.pool[s.activeKey]].Running() {
        PassiveDeliver(s, mode, body);
        hide PoolOwned, TurnsPooled, LatchesOwned, MutationsSerial, DrainsHonest, LaunchesResolve, Wf, DeliverInput;
        PassiveKeepsOwned(s, DeliverInput(s, mode, body));
      } else {
        hide PoolOwned, TurnsPooled, LatchesOwned, MutationsSerial, DrainsHonest, LaunchesResolve, Wf, StartTurn;
        StartKeepsOwned(s, s.activeKey, Text(User, s.activeKey, body), None);
      }
    }
  }

  lemma PassivePeer(s: Host, key: Key, body: string, deviceKnown: bool, accepted: bool)
    requires Wf(s)
    ensures Passive(s, DeliverPeer(s, key, body, deviceKnown, accepted))
  {}

  lemma WakeKeepsOwned(s: Host, key: Key)
    requires Owned(s) && key in s.peerWakes
    ensures Owned(WakePeer(s, key))
  {
    var s1 := s.(peerWakes := s.peerWakes - {key});
    PassiveKeepsOwned(s, s1);
    StartKeepsOwned(s1, key, Text(HostPrompt, key, WAKE_PROMPT),
      None);
    hide PoolOwned, TurnsPooled, LatchesOwned, MutationsSerial, DrainsHonest, LaunchesResolve, Wf, StartTurn;
  }

  lemma ExternalKeepsOwned(s: Host, key: Key)
    requires Owned(s)
    ensures Owned(DeliverExternal(s, key))
  {
    PassiveExternal(s, key);
    PassiveKeepsOwned(s, DeliverExternal(s, key));
  }

  lemma PublishKeepsOwned(s: Host, key: Key, body: string)
    requires Owned(s)
    ensures Owned(PublishExternal(s, key, body))
  {
    var pending := if key in s.inbox then s.inbox[key] else [];
    var s1 := s.(inbox := s.inbox[key := pending + [Text(Extension, key, body)]]);
    PassiveKeepsOwned(s, s1);
    ExternalKeepsOwned(s1, key);
    hide PoolOwned, TurnsPooled, LatchesOwned, MutationsSerial, DrainsHonest, LaunchesResolve, Wf, DeliverExternal;
  }

  /** A continuation resumes: it is finished, and what it carried still resolves. */
  lemma ResumeKeepsOwned(s: Host, t: TaskId)
    requires Owned(s) && t < |s.tasks| && !InFlight(s.tasks[t])
    ensures Owned(Finish(s, t))
    ensures s.tasks[t].Issuing? ==> s.tasks[t].rt < |s.runtimes|
    ensures s.tasks[t].WaitingStart? && s.tasks[t].launch.Some? ==> s.tasks[t].launch.value.rt < |s.runtimes|
  {
    PassiveKeepsOwned(s, Finish(s, t));
  }

  lemma IntentKeepsOwned(s: Host, t: TaskId, ok: bool)
    requires Owned(s) && t < |s.tasks| && s.tasks[t].Issuing?
    ensures Owned(IntentReturn(s, t, ok))
  {
    hide PoolOwned, TurnsPooled, LatchesOwned, MutationsSerial, DrainsHonest, LaunchesResolve, Wf, StartTurn;
    ResumeKeepsOwned(s, t);
    StartKeepsOwned(Finish(s, t), s.tasks[t].key, s.tasks[t].text, Some(Launch(s.tasks[t].rt, s.tasks[t].at, t)));
  }

  // ---------------------------------------------------------------------------------------
  // Session mutations
  // ---------------------------------------------------------------------------------------

  lemma SettleKeepsOwned(s: Host)
    requires Owned(s) && s.mutations != [] && !s.tenantRebinding
    ensures Owned(Settle(s))
  {}

  /** The head moves to a phase whose condition already holds. */
  lemma PhaseKeepsOwned(s: Host, p: Phase)
    requires Owned(s) && s.mutations != [] && (Rebinding(p) <==> s.tenantRebinding)
    requires PhaseHolds(s, s.mutations[0].(phase := p))
    ensures Owned(SetPhase(s, p))
  {
    var s' := SetPhase(s, p);
    assert PhaseHolds(s', s'.mutations[0]);
  }

  lemma ViewKeepsOwned(s: Host, key: Key)
    requires Owned(s) && s.mutations != [] && s.mutations[0].phase.Waiting?
    ensures Owned(s.(activeKey := key)) && !s.tenantRebinding
  {}

  lemma ParkKeepsOwned(s: Host, switch: Switch)
    requires Owned(s) && s.mutations != [] && s.mutations[0].phase.Waiting?
    requires switch.target !in s.pool && Reusable(s)
    ensures Owned(Focus(s, switch))
  {
    var id := s.pool[s.activeKey];
    EvictKeepsOwned(s, s.activeKey, id);
    PhaseKeepsOwned(Evict(s, s.activeKey, id), ParkingCurrent(id, switch));
  }

  lemma DeferKeepsOwned(s: Host, switch: Switch)
    requires Owned(s) && s.mutations != [] && s.mutations[0].phase.Waiting?
    requires switch.target !in s.pool && !Reusable(s)
    ensures Owned(Focus(s, switch))
  {
    if s.spawns {
      PhaseKeepsOwned(s, AwaitingTarget(None, switch, DrainsFor(s, switch.target)));
    } else {
      PassiveKeepsOwned(s, s.(pendingSwitch := Some(switch)));
      SettleKeepsOwned(s.(pendingSwitch := Some(switch)));
    }
  }

  lemma FocusKeepsOwned(s: Host, switch: Switch)
    requires Owned(s) && s.mutations != [] && s.mutations[0].phase.Waiting?
    ensures Owned(Focus(s, switch))
  {
    if switch.target in s.pool {
      var s1 := s.(activeKey := switch.target);
      PassiveExternal(s1, switch.target);
      hide PoolOwned, TurnsPooled, LatchesOwned, MutationsSerial, DrainsHonest, LaunchesResolve, Wf, DeliverExternal;
      ViewKeepsOwned(s, switch.target);
      ExternalKeepsOwned(s1, switch.target);
      SettleKeepsOwned(DeliverExternal(s1, switch.target));
    } else if Reusable(s) {
      ParkKeepsOwned(s, switch);
    } else {
      DeferKeepsOwned(s, switch);
    }
  }

  lemma RebindStartKeepsOwned(s: Host)
    requires Owned(s) && s.mutations != [] && s.mutations[0].phase.Waiting?
    ensures Owned(SetPhase(ClearQueues(s).(tenantRebinding := true, pendingSwitch := None), StoppingTurns(s.activeKey)))
  {
    PassiveKeepsOwned(s, ClearQueues(s));
  }

  lemma StartHeadKeepsOwned(s: Host, uuids: seq<string>)
    requires Owned(s) && s.mutations != [] && s.mutations[0].phase.Waiting?
    ensures Owned(StartHead(s, uuids))
  {
    ViewKeepsOwned(s, s.activeKey);
    SettleKeepsOwned(s);
    RebindStartKeepsOwned(s);
    match s.mutations[0].request
    case NewSession =>
      var minted := Mint(s, uuids, MINT_ATTEMPTS);
      hide PoolOwned, TurnsPooled, LatchesOwned, MutationsSerial, DrainsHonest, LaunchesResolve, Wf, Focus;
      if minted.Some? { FocusKeepsOwned(s, Switch(minted.value, FreshStart)); }
    case ResumeSession(key) =>
      hide PoolOwned, TurnsPooled, LatchesOwned, MutationsSerial, DrainsHonest, LaunchesResolve, Wf, Focus;
      FocusKeepsOwned(s, Switch(key, LazyResume));
      FocusKeepsOwned(s, Switch(key, FreshStart));
    case DeferredSwitch(switch) =>
      FocusKeepsOwned(s, switch);
    case RebindTenant =>
    case BindLearning(binding) =>
      PhaseKeepsOwned(s, AwaitingIdle(binding));
  }

  lemma ParkedKeepsOwned(s: Host)
    requires Owned(s) && s.mutations != [] && s.mutations[0].phase.ParkingCurrent?
    ensures Owned(ParkedCurrent(s))
  {
    var p := s.mutations[0].phase;
    if Drain(p.rt, s.runtimes[p.rt].agent.sessionKey) !in s.drains {
      PhaseKeepsOwned(s, AwaitingTarget(Some(p.rt), p.switch, DrainsFor(s, p.switch.target)));
    }
  }

  /** An unpooled agent without checkpoints may be retargeted. */
  lemma RenameKeepsOwned(s: Host, id: RuntimeId, r: Runtime)
    requires Owned(s) && s.mutations != [] && s.mutations[0].phase.AwaitingTarget? && id < |s.runtimes|
    requires Unpooled(s, id) && r.turn == s.runtimes[id].turn && (forall d <- s.drains :: d.rt != id)
    ensures Owned(Settle(SetRuntime(s, id, r)))
  {}

  /** The retargeted runtime is pooled under its session key. */
  lemma PoolKeepsOwned(s: Host, id: RuntimeId, key: Key)
    requires Owned(s) && id < |s.runtimes| && key !in s.pool && s.runtimes[id].agent.sessionKey == key
    requires s.mutations == [] || s.mutations[0].phase.Waiting?
    ensures Owned(s.(pool := s.pool[key := id], activeKey := key))
  {}

  lemma RetargetKeepsOwned(s: Host, id: RuntimeId, switch: Switch, outcome: InstallOutcome)
    requires Owned(s) && s.mutations != [] && s.mutations[0].phase.AwaitingTarget? && id < |s.runtimes|
    requires switch.target !in s.pool && Unpooled(s, id) && (forall d <- s.drains :: d.rt != id)
    requires s.mutations[1..] == [] || s.mutations[1].phase.Waiting?
    ensures Owned(Retarget(s, id, switch, outcome))
  {
    hide PoolOwned, TurnsPooled, LatchesOwned, MutationsSerial, DrainsHonest, LaunchesResolve, Passive, DeliverExternal;
    var r := s.runtimes[id];
    RenameKeepsOwned(s, id, r.(agent := r.agent.(sessionKey := switch.target), pendingHistoryKey := None));
    RenameKeepsOwned(s, id, Retargeted(r, switch));
    var s0 := SetRuntime(s, id, Retargeted(r, switch));
    PoolKeepsOwned(Settle(s0), id, switch.target);
    InstalledKeepsOwned(s0.(pool := s.pool[switch.target := id], activeKey := switch.target), switch.target);
  }

  /** Extension results are delivered just before the mutation settles. */
  lemma InstalledKeepsOwned(s: Host, key: Key)
    requires Wf(s) && s.mutations != [] && Owned(Settle(s))
    ensures Owned(Settle(DeliverExternal(s, key)))
  {
    PassiveExternal(s, key);
    PassiveKeepsOwned(Settle(s), Settle(DeliverExternal(s, key)));
  }

  lemma SpawnKeepsOwned(s: Host, r: Runtime)
    requires Owned(s) && r.turn == None
    ensures Owned(s.(runtimes := s.runtimes + [r]))
  {
    var s' := s.(runtimes := s.runtimes + [r]);
    assert s'.mutations != [] ==> PhaseHolds(s', s'.mutations[0]);
  }

  lemma InstallKeepsOwned(s: Host, outcome: InstallOutcome)
    requires Owned(s) && s.mutations != [] && s.mutations[0].phase.AwaitingTarget?
    ensures Owned(Install(s, outcome))
  {
    var p := s.mutations[0].phase;
    assert s.mutations[1..] == [] || s.mutations[1].phase.Waiting?;
    if p.reused.Some? {
      RetargetKeepsOwned(s, p.reused.value, p.switch, outcome);
    } else {
      var s1 := s.(runtimes := s.runtimes + [FreshRuntime(p.switch.target)]);
      SettleKeepsOwned(s);
      SpawnKeepsOwned(s, FreshRuntime(p.switch.target));
      RetargetKeepsOwned(s1, |s.runtimes|, p.switch, outcome);
    }
    hide PoolOwned, TurnsPooled, LatchesOwned, MutationsSerial, DrainsHonest, LaunchesResolve, Wf, Retarget;
  }

  lemma TrackPoolKeepsOwned(s: Host)
    requires Owned(s)
    ensures Owned(TrackPool(s))
  {
    var s' := TrackPool(s);
    assert s'.mutations != [] ==> PhaseHolds(s', s'.mutations[0]);
  }

  /** No pooled runtime is running, so no turn is in flight anywhere. */
  lemma QuietPoolHasNoTurn(s: Host)
    requires Owned(s) && !PoolRunning(s)
    ensures NoTurnInFlight(s)
  {}

  lemma PollKeepsOwned(s: Host, deadline: bool)
    requires Owned(s) && s.mutations != [] && s.mutations[0].phase.StoppingTurns?
    ensures Owned(PollTurns(s, deadline))
  {
    if !PoolRunning(s) {
      QuietPoolHasNoTurn(s);
      TrackPoolKeepsOwned(s);
      PhaseKeepsOwned(TrackPool(s), DrainingPool(s.mutations[0].phase.home));
      hide PoolOwned, TurnsPooled, LatchesOwned, MutationsSerial, DrainsHonest, LaunchesResolve;
    }
  }

  lemma RequestKeepsOwned(s: Host)
    requires Owned(s) && s.mutations != [] && s.mutations[0].phase.DrainingPool?
    ensures Owned(RequestReplacement(s))
  {}

  lemma ReplacementPool(s: Host, installed: bool)
    requires Owned(s) && s.mutations != [] && s.mutations[0].phase.Replacing?
    ensures var s' := InstallReplacement(s, installed);
      Wf(s') && LaunchesResolve(s') && PoolOwned(s') && DrainsHonest(s')
  {
    hide LatchesOwned, TurnsPooled;
    assert s.pool == map[] by { assert PhaseHolds(s, s.mutations[0]); }
  }

  lemma ReplacementTurns(s: Host, installed: bool)
    requires Owned(s) && s.mutations != [] && s.mutations[0].phase.Replacing?
    ensures var s' := InstallReplacement(s, installed);
      Wf(s') && TurnsPooled(s') && LatchesOwned(s') && MutationsSerial(s')
  {
    hide PoolOwned, DrainsHonest, LaunchesResolve;
    assert NoTurnInFlight(s) by { assert PhaseHolds(s, s.mutations[0]); }
  }

  lemma ReplacementKeepsOwned(s: Host, installed: bool)
    requires Owned(s) && s.mutations != [] && s.mutations[0].phase.Replacing?
    ensures Owned(InstallReplacement(s, installed))
  {
    ReplacementPool(s, installed);
    ReplacementTurns(s, installed);
    hide PoolOwned, TurnsPooled, LatchesOwned, MutationsSerial, DrainsHonest, LaunchesResolve, Wf, InstallReplacement;
  }

  lemma BindPassive(s: Host, binding: int)
    requires Wf(s)
    ensures Passive(s, BindPool(s, binding))
  {}

  lemma LearningKeepsOwned(s: Host)
    requires Owned(s) && s.mutations != [] && s.mutations[0].phase.AwaitingIdle?
    ensures Owned(PollLearning(s))
  {
    var binding := s.mutations[0].phase.binding;
    BindPassive(s, binding);
    hide PoolOwned, TurnsPooled, LatchesOwned, MutationsSerial, DrainsHonest, LaunchesResolve, BindPool, Passive;
    hide PoolRunning;
    PassiveKeepsOwned(s, BindPool(s, binding));
    assert BindPool(s, binding).mutations == s.mutations by { BindKeepsQueue(s, binding); }
    SettleKeepsOwned(BindPool(s, binding));
  }

  lemma BindKeepsQueue(s: Host, binding: int)
    ensures BindPool(s, binding).mutations == s.mutations
  {}

  // ---------------------------------------------------------------------------------------
  // Every step
  // ---------------------------------------------------------------------------------------

  /** Events that touch neither pool, latches nor phases. */
  lemma AmbientPassive(s: Host, e: Event)
    requires Wf(s) && LaunchesResolve(s)
    requires e.AgentAdmits? || e.Interrupt? || e.Revoke? || e.TranscriptWritten? || e.TranscriptLost?
    ensures Passive(s, Step(s, e))
  {
    hide Wf, LaunchesResolve, DeliverInput, DeliverPeer, WakePeer, AutoResume, PublishExternal, BeginReviewed, Reserve;
    hide StartTurn;
    hide PolicyReturn, FinishTurn, IntentReturn, StartHead, ParkedCurrent, Install, PollTurns, RequestReplacement;
    hide InstallReplacement, PollLearning;
  }

  lemma AmbientKeepsOwned(s: Host, e: Event)
    requires Owned(s)
    requires e.AgentAdmits? || e.ReviewedStart? || e.Interrupt? || e.Revoke? || e.DrainSettled? || e.Shutdown?
      || e.ShutdownDrain?
      || e.TranscriptWritten? || e.TranscriptLost?
    ensures Owned(Step(s, e))
  {
    if e.DrainSettled? {
      DrainedKeepsOwned(s, e.drain);
    } else if e.ShutdownDrain? {
      TrackPoolKeepsOwned(s);
    } else if e.Shutdown? {
      FlagKeepsOwned(s);
    } else if e.ReviewedStart? {
      IssueKeepsOwned(s, e.body);
    } else {
      AmbientPassive(s, e);
      hide PoolOwned, TurnsPooled, LatchesOwned, MutationsSerial, DrainsHonest, LaunchesResolve, Wf, Step, Passive;
      PassiveKeepsOwned(s, Step(s, e));
    }
  }

  lemma DrainedKeepsOwned(s: Host, d: Drain)
    requires Owned(s)
    ensures Owned(s.(drains := s.drains - {d}))
  {
    var s' := s.(drains := s.drains - {d});
    assert s'.mutations != [] ==> PhaseHolds(s', s'.mutations[0]);
  }

  lemma FlagKeepsOwned(s: Host)
    requires Owned(s)
    ensures Owned(s.(shuttingDown := true, pendingSwitch := None))
  {
    var s' := s.(shuttingDown := true, pendingSwitch := None);
    assert s'.mutations != [] ==> PhaseHolds(s', s'.mutations[0]);
  }

  lemma IssueKeepsOwned(s: Host, body: string)
    requires Owned(s)
    ensures Owned(BeginReviewed(s, body))
  {
    var s' := BeginReviewed(s, body);
    assert s'.mutations != [] ==> PhaseHolds(s', s'.mutations[0]);
  }

  lemma StepKeepsOwned(s: Host, e: Event)
    requires Owned(s)
    ensures Owned(Step(s, e))
  {
    hide PoolOwned, TurnsPooled, LatchesOwned, MutationsSerial, DrainsHonest, LaunchesResolve, Wf;
    hide StartTurn, Reserve, PolicyReturn, FinishTurn, DeliverInput, DeliverPeer, WakePeer, PublishExternal;
    hide IntentReturn;
    hide StartHead, ParkedCurrent, Install, PollTurns, RequestReplacement, InstallReplacement, PollLearning, Passive;
    match e
    case Deliver(mode, body) => DeliverKeepsOwned(s, mode, body);
    case TailSettled(t) =>
      if t < |s.tasks| && s.tasks[t].WaitingStart? {
        ResumeKeepsOwned(s, t);
        ReserveKeepsOwned(Finish(s, t), s.tasks[t].key, s.tasks[t].text, s.tasks[t].launch);
      }
    case PolicyReturned(t, outcome) =>
      if t < |s.tasks| && s.tasks[t].Validating? { PolicyReturnKeepsOwned(s, t, outcome); }
    case TurnReturned(t) =>
      if t < |s.tasks| && s.tasks[t].Running? { FinishTurnKeepsOwned(s, t); }
    case ScheduledStart(t) =>
      if t < |s.tasks| && s.tasks[t].Scheduled? {
        ResumeKeepsOwned(s, t);
        StartKeepsOwned(Finish(s, t), s.tasks[t].key, s.tasks[t].text, None);
      }
    case PeerMessage(target, body, deviceKnown, accepted) =>
      PassivePeer(s, target, body, deviceKnown, accepted);
      PassiveKeepsOwned(s, DeliverPeer(s, target, body, deviceKnown, accepted));
    case PeerWake(key) => if key in s.peerWakes { WakeKeepsOwned(s, key); }
    case Publish(key, body) => PublishKeepsOwned(s, key, body);
    case ResumeTimer(body) => StartKeepsOwned(s, s.activeKey, Text(HostPrompt, s.activeKey, body), None);
    case IntentIssued(t, ok) =>
      if t < |s.tasks| && s.tasks[t].Issuing? { IntentKeepsOwned(s, t, ok); }
    case Submit(r) => EnqueueKeepsOwned(s, r);
    case HeadStarts(uuids) =>
      if s.mutations != [] && s.mutations[0].phase.Waiting? { StartHeadKeepsOwned(s, uuids); }
    case CurrentDrained =>
      if s.mutations != [] && s.mutations[0].phase.ParkingCurrent? { ParkedKeepsOwned(s); }
    case TargetDrained(outcome) =>
      if s.mutations != [] && s.mutations[0].phase.AwaitingTarget? { InstallKeepsOwned(s, outcome); }
    case RebindPoll(deadline) =>
      if s.mutations != [] && s.mutations[0].phase.StoppingTurns? { PollKeepsOwned(s, deadline); }
    case PoolDrained =>
      if s.mutations != [] && s.mutations[0].phase.DrainingPool? { RequestKeepsOwned(s); }
    case ReplacementReturned(installed) =>
      if s.mutations != [] && s.mutations[0].phase.Replacing? { ReplacementKeepsOwned(s, installed); }
    case LearningPoll =>
      if s.mutations != [] && s.mutations[0].phase.AwaitingIdle? { LearningKeepsOwned(s); }
    case _ => AmbientKeepsOwned(s, e);
  }
}
