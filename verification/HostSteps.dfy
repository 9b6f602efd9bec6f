/**
 * The shape of ordinary steps. Only six events begin a turn, move an agent between sessions or
 * change the pool by more than dropping a finished background session; every other step is
 * `Ordinary`, whatever else it does. The whole-run results rest on this one case distinction.
 */
module HostSteps {
  import opened Common
  import opened HostModel
  import opened HostInvariants

  /** Sessions only leave the pool, and never the viewed one. */
  ghost predicate PoolShrinks(s: Host, s': Host) {
    && (forall k <- s'.pool :: k in s.pool && s'.pool[k] == s.pool[k])
    && (s.activeKey in s.pool ==> s.activeKey in s'.pool)
  }

  /** No agent changes session, loads or loses history. */
  ghost predicate MemoryKept(s: Host, s': Host) {
    && |s.runtimes| <= |s'.runtimes|
    && (forall id :: 0 <= id < |s.runtimes| ==>
          && s'.runtimes[id].agent.sessionKey == s.runtimes[id].agent.sessionKey
          && s'.runtimes[id].agent.history == s.runtimes[id].agent.history
          && s'.runtimes[id].pendingHistoryKey == s.runtimes[id].pendingHistoryKey)
  }

  /** No agent's learning binding changes. */
  ghost predicate BindingsKept(s: Host, s': Host) {
    && |s.runtimes| <= |s'.runtimes|
    && (forall id :: 0 <= id < |s.runtimes| ==> s'.runtimes[id].agent.learning == s.runtimes[id].agent.learning)
  }

  /** The turn's own reservation directly follows the generation its launch captured. */
  ghost predicate ReservedByLaunch(s: Host, t: TaskId)
    requires t < |s.tasks| && InFlight(s.tasks[t]) && s.tasks[t].launch.Some?
  {
    var launch := s.tasks[t].launch.value;
    && launch.rt == s.tasks[t].rt
    && launch.at < |s.authority|
    && s.authority[launch.at] == TurnReserved(s.tasks[t].key, t)
    && (if s.tasks[t].Validating? then s.tasks[t].reservedAt else s.tasks[t].calledAt) == launch.at + 1
  }

  /** Continuations end or are added; no turn is called, and a new reviewed turn carries its reservation. */
  ghost predicate TasksExtend(s: Host, s': Host) {
    && |s.tasks| <= |s'.tasks|
    && (forall t :: 0 <= t < |s.tasks| ==> s'.tasks[t] == s.tasks[t] || s'.tasks[t].Done?)
    && (forall t :: |s.tasks| <= t < |s'.tasks| ==>
          && !s'.tasks[t].Running?
          && (s'.tasks[t].Validating? && s'.tasks[t].launch.Some? ==> ReservedByLaunch(s', t)))
  }

  function SwitchesOf(m: Mutation): set<Switch> {
    (if m.request.DeferredSwitch? then {m.request.switch} else {})
    + (if m.phase.ParkingCurrent? || m.phase.AwaitingTarget? then {m.phase.switch} else {})
  }

  /** Every session switch that is still to happen. */
  ghost function PendingSwitches(s: Host): set<Switch> {
    (if s.pendingSwitch.Some? then {s.pendingSwitch.value} else {})
    + (set i, w | 0 <= i < |s.mutations| && w in SwitchesOf(s.mutations[i]) :: w)
  }

  /** No session mutation was submitted between the two states. */
  ghost predicate NoneQueued(s: Host, s': Host) {
    forall i :: |s.authority| <= i < |s'.authority| ==> !s'.authority[i].MutationQueued?
  }

  /** The authority log grows, and with no mutation outstanding only a logged one can appear. */
  ghost predicate AuthorityGrows(s: Host, s': Host) {
    && s.authority <= s'.authority
    && (s.mutations == [] && NoneQueued(s, s') ==> s'.mutations == [])
  }

  ghost predicate Ordinary(s: Host, s': Host) {
    && s'.activeKey == s.activeKey
    && s'.transcripts == s.transcripts
    && PoolShrinks(s, s')
    && MemoryKept(s, s')
    && TasksExtend(s, s')
    && PendingSwitches(s') <= PendingSwitches(s)
    && AuthorityGrows(s, s')
  }

  /** An ordinary step that binds no agent to another learning identity either. */
  ghost predicate Plain(s: Host, s': Host) {
    Ordinary(s, s') && BindingsKept(s, s')
  }

  lemma OrdinaryTransitive(a: Host, b: Host, c: Host)
    requires Ordinary(a, b) && Ordinary(b, c)
    ensures Ordinary(a, c)
  {
    forall t | |a.tasks| <= t < |c.tasks| && c.tasks[t].Validating? && c.tasks[t].launch.Some?
      ensures ReservedByLaunch(c, t)
    {}
    if a.mutations == [] && NoneQueued(a, c) {
      assert NoneQueued(a, b) && NoneQueued(b, c);
    }
  }

  lemma PlainTransitive(a: Host, b: Host, c: Host)
    requires Plain(a, b) && Plain(b, c)
    ensures Plain(a, c)
  {
    hide Ordinary;
    OrdinaryTransitive(a, b, c);
  }

  // ---------------------------------------------------------------------------------------
  // Building blocks
  // ---------------------------------------------------------------------------------------

  /** A runtime's latch, queue and steers may change; its session, memory and learning binding do not. */
  predicate SameMemory(r: Runtime, r': Runtime) {
    && r'.agent.sessionKey == r.agent.sessionKey
    && r'.agent.history == r.agent.history
    && r'.pendingHistoryKey == r.pendingHistoryKey
    && r'.agent.learning == r.agent.learning
  }

  lemma RuntimeOrdinary(s: Host, id: RuntimeId, r: Runtime)
    requires id < |s.runtimes| && SameMemory(s.runtimes[id], r)
    ensures Plain(s, SetRuntime(s, id, r))
  {}

  lemma TaskOrdinary(s: Host, t: Task)
    requires !InFlight(t)
    ensures Plain(s, AddTask(s, t))
  {}

  lemma FinishOrdinary(s: Host, t: TaskId)
    requires t < |s.tasks|
    ensures Plain(s, Finish(s, t))
  {}

  lemma AdvanceOrdinary(s: Host, a: Authority)
    ensures Plain(s, Advance(s, a))
  {}

  lemma EnqueueOrdinary(s: Host, r: Request)
    requires r.DeferredSwitch? ==> r.switch in PendingSwitches(s)
    ensures Plain(s, Enqueue(s, r))
  {
    var s' := Enqueue(s, r);
    assert s'.authority[|s.authority|].MutationQueued?;
    forall w <- PendingSwitches(s') ensures w in PendingSwitches(s) {
      if s'.pendingSwitch != Some(w) {
        var i :| 0 <= i < |s'.mutations| && w in SwitchesOf(s'.mutations[i]);
        assert i < |s.mutations| ==> w in SwitchesOf(s.mutations[i]);
      }
    }
  }

  lemma PendingSwitchOrdinary(s: Host)
    ensures Plain(s, RunPendingSwitch(s))
  {
    if s.pendingSwitch.Some? && !s.shuttingDown {
      var s1 := s.(pendingSwitch := None);
      var s' := Enqueue(s1, DeferredSwitch(s.pendingSwitch.value));
      assert s'.authority[|s.authority|].MutationQueued?;
      forall w <- PendingSwitches(s') ensures w in PendingSwitches(s) {
        var i :| 0 <= i < |s'.mutations| && w in SwitchesOf(s'.mutations[i]);
        assert i < |s.mutations| ==> w in SwitchesOf(s.mutations[i]);
      }
    } else {
      assert PendingSwitches(s.(pendingSwitch := None)) <= PendingSwitches(s);
    }
  }

  lemma EvictOrdinary(s: Host, key: Key, id: RuntimeId)
    requires id < |s.runtimes| && key != s.activeKey
    ensures Plain(s, Evict(s, key, id))
  {}

  lemma TakeNextOrdinary(s: Host, id: RuntimeId)
    requires id < |s.runtimes|
    ensures Plain(s, TakeNext(s, id).0)
  {}

  lemma ScheduleOrdinary(s: Host, key: Key, next: Option<Queued>)
    ensures Plain(s, ScheduleNext(s, key, next))
  {}

  // ---------------------------------------------------------------------------------------
  // Turns
  // ---------------------------------------------------------------------------------------

  lemma ReserveOrdinary(s: Host, key: Key, text: Text, launch: Option<Launch>)
    requires Wf(s) && (launch.Some? ==> launch.value.rt < |s.runtimes|)
    ensures Plain(s, Reserve(s, key, text, launch))
  {
    var s' := Reserve(s, key, text, launch);
    if s' != s && launch.Some? {
      assert ReservedByLaunch(s', |s.tasks|);
    }
  }

  lemma StartOrdinary(s: Host, key: Key, text: Text, launch: Option<Launch>)
    requires Wf(s) && (launch.Some? ==> launch.value.rt < |s.runtimes|)
    ensures Plain(s, StartTurn(s, key, text, launch))
  {
    hide Plain, Reserve;
    ReserveOrdinary(s, key, text, launch);
    TaskOrdinary(s, WaitingStart(key, text, launch, s.settled + |s.mutations|));
  }

  /** The follow-up of a released turn, in the order the code runs it. */
  lemma FollowUpOrdinary(s: Host, key: Key, next: Option<Queued>)
    ensures Plain(s, ScheduleNext(RunPendingSwitch(s), key, next))
  {
    hide Plain, RunPendingSwitch;
    PendingSwitchOrdinary(s);
    ScheduleOrdinary(RunPendingSwitch(s), key, next);
    PlainTransitive(s, RunPendingSwitch(s), ScheduleNext(RunPendingSwitch(s), key, next));
  }

  lemma ReleaseOrdinary(s: Host, t: TaskId, id: RuntimeId, r: Runtime)
    requires t < |s.tasks| && id < |s.runtimes| && SameMemory(s.runtimes[id], r)
    ensures Plain(s, Finish(SetRuntime(s, id, r), t))
  {
    hide Plain;
    RuntimeOrdinary(s, id, r);
    FinishOrdinary(SetRuntime(s, id, r), t);
    PlainTransitive(s, SetRuntime(s, id, r), Finish(SetRuntime(s, id, r), t));
  }

  lemma FinishTurnOrdinary(s: Host, t: TaskId)
    requires Wf(s) && t < |s.tasks| && s.tasks[t].Running?
    ensures Plain(s, FinishTurn(s, t))
  {
    var task := s.tasks[t];
    var r := s.runtimes[task.rt];
    hide Plain, Wf;
    var routed := Route(r.agent.steering, Routing(r.queue, [], []), Closing(s));
    var r1 := r.(turn := None, queue := routed.queue, agent := r.agent.(steering := routed.steering));
    ReleaseOrdinary(s, t, task.rt, r1);
    var s1 := Finish(SetRuntime(s, task.rt, r1), t);
    var s2 := s1.(peerWakes := if Resteered in routed.fates then s1.peerWakes + {task.sk} else s1.peerWakes);
    WakesOrdinary(s1, s2.peerWakes);
    PlainTransitive(s, s1, s2);
    TakeNextOrdinary(s2, task.rt);
    var (s3, next) := TakeNext(s2, task.rt);
    PlainTransitive(s, s2, s3);
    var s4 := if task.sk != s3.activeKey && s3.spawns && next.None? then Evict(s3, task.sk, task.rt) else s3;
    if s4 != s3 {
      EvictOrdinary(s3, task.sk, task.rt);
      PlainTransitive(s, s3, s4);
    }
    FollowUpOrdinary(s4, task.sk, next);
    PlainTransitive(s, s4, ScheduleNext(RunPendingSwitch(s4), task.sk, next));
  }

  lemma WakesOrdinary(s: Host, wakes: set<Key>)
    ensures Plain(s, s.(peerWakes := wakes))
  {}

  lemma AbandonOrdinary(s: Host, t: TaskId)
    requires Wf(s) && t < |s.tasks| && s.tasks[t].Validating?
    ensures Plain(s, Abandon(s, t))
  {
    var task := s.tasks[t];
    var r1 := s.runtimes[task.rt].(turn := None);
    hide Plain, Wf;
    ReleaseOrdinary(s, t, task.rt, r1);
    var s1 := Finish(SetRuntime(s, task.rt, r1), t);
    TakeNextOrdinary(s1, task.rt);
    var (s2, next) := TakeNext(s1, task.rt);
    PlainTransitive(s, s1, s2);
    PendingSwitchOrdinary(s2);
    var s3 := RunPendingSwitch(s2);
    PlainTransitive(s, s2, s3);
    ScheduleOrdinary(s3, task.key, next);
    PlainTransitive(s, s3, ScheduleNext(s3, task.key, next));
    if task.key != s3.activeKey {
      EvictOrdinary(s3, task.key, task.rt);
      var s4 := Evict(s3, task.key, task.rt);
      PlainTransitive(s, s3, s4);
      ScheduleOrdinary(s4, task.key, next);
      PlainTransitive(s, s4, ScheduleNext(s4, task.key, next));
    }
  }

  // ---------------------------------------------------------------------------------------
  // Inputs
  // ---------------------------------------------------------------------------------------

  lemma DeliverOrdinary(s: Host, mode: DeliveryMode, body: string)
    requires Wf(s)
    ensures Plain(s, DeliverInput(s, mode, body))
  {
    hide Plain;
    StartOrdinary(s, s.activeKey, Text(User, s.activeKey, body), None);
    Same(s);
    if s.activeKey in s.pool && s.runtimes[s.pool[s.activeKey]].Running() {
      var s' := DeliverInput(s, mode, body);
      hide StartTurn;
      assert s' == SetRuntime(s, s.pool[s.activeKey], s'.runtimes[s.pool[s.activeKey]]);
      RuntimeOrdinary(s, s.pool[s.activeKey], s'.runtimes[s.pool[s.activeKey]]);
    }
  }

  lemma PeerOrdinary(s: Host, key: Key, body: string, deviceKnown: bool, accepted: bool)
    requires Wf(s)
    ensures Plain(s, DeliverPeer(s, key, body, deviceKnown, accepted))
  {}

  lemma WakeOrdinary(s: Host, key: Key)
    requires Wf(s) && key in s.peerWakes
    ensures Plain(s, WakePeer(s, key))
  {
    var s1 := s.(peerWakes := s.peerWakes - {key});
    var text := Text(HostPrompt, key, WAKE_PROMPT);
    assert Wf(s1);
    hide Plain, Wf, StartTurn;
    WakesOrdinary(s, s.peerWakes - {key});
    StartOrdinary(s1, key, text, None);
    PlainTransitive(s, s1, StartTurn(s1, key, text, None));
  }

  lemma InboxOrdinary(s: Host, inbox: map<Key, seq<Text>>)
    ensures Plain(s, s.(inbox := inbox))
  {}

  lemma ExternalOrdinary(s: Host, key: Key)
    requires Wf(s)
    ensures Plain(s, DeliverExternal(s, key))
  {
    var s' := DeliverExternal(s, key);
    if s' != s {
      var id := s.pool[key];
      var s1 := s.(inbox := s.inbox - {key});
      var s2 := SetRuntime(s1, id, s'.runtimes[id]);
      var r' := s'.runtimes[id];
      assert SameMemory(s.runtimes[id], r');
      assert s' == s1 || s' == s2 || exists q :: s' == ScheduleNext(s2, key, Some(q)) by {
        var events := s.inbox[key];
        var r := s.runtimes[id];
        if !Closing(s) && !r.Running() && |Fitting(AsQueued(events), |r.queue|)| >= |events| {
          assert s' == ScheduleNext(s2, key, Some((r.queue + Fitting(AsQueued(events), |r.queue|))[0]));
        }
      }
      hide Plain, Wf, DeliverExternal;
      InboxOrdinary(s, s.inbox - {key});
      RuntimeOrdinary(s1, id, r');
      PlainTransitive(s, s1, s2);
      if q :| s' == ScheduleNext(s2, key, Some(q)) {
        ScheduleOrdinary(s2, key, Some(q));
        PlainTransitive(s, s2, s');
      }
    }
  }

  lemma PublishOrdinary(s: Host, key: Key, body: string)
    requires Wf(s)
    ensures Plain(s, PublishExternal(s, key, body))
  {
    var pending := if key in s.inbox then s.inbox[key] else [];
    var s1 := s.(inbox := s.inbox[key := pending + [Text(Extension, key, body)]]);
    assert Wf(s1);
    InboxOrdinary(s, s.inbox[key := pending + [Text(Extension, key, body)]]);
    hide Wf, DeliverExternal;
    ExternalOrdinary(s1, key);
    hide Plain;
    PlainTransitive(s, s1, DeliverExternal(s1, key));
  }

  lemma IntentOrdinary(s: Host, t: TaskId, ok: bool)
    requires Wf(s) && t < |s.tasks| && s.tasks[t].Issuing?
    ensures Plain(s, IntentReturn(s, t, ok))
  {
    var task := s.tasks[t];
    var s1 := Finish(s, t);
    assert Wf(s1) && task.rt < |s.runtimes|;
    hide Plain, Wf, StartTurn;
    FinishOrdinary(s, t);
    StartOrdinary(s1, task.key, task.text, Some(Launch(task.rt, task.at, t)));
    PlainTransitive(s, s1, StartTurn(s1, task.key, task.text, Some(Launch(task.rt, task.at, t))));
  }

  /** A continuation resumes into the reservation. */
  lemma ResumeOrdinary(s: Host, t: TaskId)
    requires Wf(s) && t < |s.tasks|
    requires s.tasks[t].WaitingStart? && s.tasks[t].launch.Some? ==> s.tasks[t].launch.value.rt < |s.runtimes|
    ensures s.tasks[t].WaitingStart? ==>
      Wf(Finish(s, t)) && Plain(s, Reserve(Finish(s, t), s.tasks[t].key, s.tasks[t].text, s.tasks[t].launch))
    ensures s.tasks[t].Scheduled? ==>
      Wf(Finish(s, t)) && Plain(s, StartTurn(Finish(s, t), s.tasks[t].key, s.tasks[t].text, None))
  {
    var task := s.tasks[t];
    var s1 := Finish(s, t);
    assert Wf(s1);
    hide Plain, Wf, StartTurn, Reserve;
    FinishOrdinary(s, t);
    if task.WaitingStart? {
      ReserveOrdinary(s1, task.key, task.text, task.launch);
      PlainTransitive(s, s1, Reserve(s1, task.key, task.text, task.launch));
    } else if task.Scheduled? {
      StartOrdinary(s1, task.key, task.text, None);
      PlainTransitive(s, s1, StartTurn(s1, task.key, task.text, None));
    }
  }

  // ---------------------------------------------------------------------------------------
  // Session mutations
  // ---------------------------------------------------------------------------------------

  lemma SettleOrdinary(s: Host)
    requires s.mutations != []
    ensures Plain(s, Settle(s))
  {
    var s' := Settle(s);
    forall w <- PendingSwitches(s') ensures w in PendingSwitches(s) {
      if s'.pendingSwitch != Some(w) {
        var i :| 0 <= i < |s'.mutations| && w in SwitchesOf(s'.mutations[i]);
        assert w in SwitchesOf(s.mutations[i + 1]);
      }
    }
  }

  lemma PhaseOrdinary(s: Host, p: Phase)
    requires s.mutations != []
    requires (p.ParkingCurrent? || p.AwaitingTarget?) ==> p.switch in PendingSwitches(s)
    ensures Plain(s, SetPhase(s, p))
  {
    var s' := SetPhase(s, p);
    forall w <- PendingSwitches(s') ensures w in PendingSwitches(s) {
      if s'.pendingSwitch != Some(w) {
        var i :| 0 <= i < |s'.mutations| && w in SwitchesOf(s'.mutations[i]);
        assert w in SwitchesOf(s.mutations[i]) || (i == 0 && w == p.switch);
      }
    }
  }

  lemma ParkedOrdinary(s: Host)
    requires Wf(s) && s.mutations != [] && s.mutations[0].phase.ParkingCurrent?
    ensures Plain(s, ParkedCurrent(s))
  {
    var p := s.mutations[0].phase;
    assert p.switch in SwitchesOf(s.mutations[0]);
    PhaseOrdinary(s, AwaitingTarget(Some(p.rt), p.switch, DrainsFor(s, p.switch.target)));
  }

  lemma FlagsOrdinary(s: Host, s': Host)
    requires s' == s.(drains := s'.drains, tenantRebinding := s'.tenantRebinding, shuttingDown := s'.shuttingDown)
    ensures Plain(s, s')
  {}

  lemma PollOrdinary(s: Host, deadline: bool)
    requires Wf(s) && s.mutations != [] && s.mutations[0].phase.StoppingTurns?
    ensures Plain(s, PollTurns(s, deadline))
  {
    var s1 := s.(tenantRebinding := false);
    FlagsOrdinary(s, s1);
    SettleOrdinary(s1);
    PlainTransitive(s, s1, Settle(s1));
    var s2 := TrackPool(s);
    FlagsOrdinary(s, s2);
    PhaseOrdinary(s2, DrainingPool(s.mutations[0].phase.home));
    PlainTransitive(s, s2, SetPhase(s2, DrainingPool(s.mutations[0].phase.home)));
    hide Plain;
  }

  lemma LearningOrdinary(s: Host)
    requires Wf(s) && s.mutations != [] && s.mutations[0].phase.AwaitingIdle?
    ensures Ordinary(s, PollLearning(s))
  {
    var s1 := BindPool(s, s.mutations[0].phase.binding);
    assert Ordinary(s, s1);
    hide Ordinary;
    SettleOrdinary(s1);
    OrdinaryTransitive(s, s1, Settle(s1));
  }

  // ---------------------------------------------------------------------------------------
  // The case distinction
  // ---------------------------------------------------------------------------------------

  /** The policy check allows the turn and the host calls `runTurn`. */
  ghost predicate BeginsTurn(s: Host, e: Event)
    requires Wf(s) && LaunchesResolve(s)
  {
    && e.PolicyReturned?
    && e.task < |s.tasks| && s.tasks[e.task].Validating?
    && e.outcome == Allowed
    && (s.tasks[e.task].launch.Some? ==>
          LaunchIsCurrent(s, s.tasks[e.task].key, s.tasks[e.task].launch.value, s.tasks[e.task].reservedAt))
  }

  /** The head of the mutation queue begins a switch, installs a runtime or replaces the pool. */
  predicate MovesSessions(e: Event) {
    e.HeadStarts? || e.TargetDrained? || e.PoolDrained? || e.ReplacementReturned?
  }

  predicate TouchesDisk(e: Event) {
    e.TranscriptWritten? || e.TranscriptLost?
  }

  lemma PolicyOrdinary(s: Host, t: TaskId, outcome: PolicyOutcome)
    requires Wf(s) && LaunchesResolve(s) && t < |s.tasks| && s.tasks[t].Validating?
    requires !BeginsTurn(s, PolicyReturned(t, outcome))
    ensures Plain(s, PolicyReturn(s, t, outcome))
  {
    AbandonOrdinary(s, t);
    ReleaseOrdinary(s, t, s.tasks[t].rt, s.runtimes[s.tasks[t].rt].(turn := None));
    hide Plain, Abandon;
  }

  lemma ShutdownOrdinary(s: Host)
    ensures Plain(s, s.(shuttingDown := true, pendingSwitch := None))
  {
    var s1 := s.(pendingSwitch := None);
    assert PendingSwitches(s1) <= PendingSwitches(s);
  }

  lemma AdmitsOrdinary(s: Host, id: RuntimeId, n: nat)
    requires id < |s.runtimes| && n <= |s.runtimes[id].agent.steering|
    ensures Plain(s, SetRuntime(s, id, s.runtimes[id].(agent :=
      s.runtimes[id].agent.(steering := s.runtimes[id].agent.steering[n..]))))
  {}

  lemma AmbientOrdinary(s: Host, e: Event)
    requires Wf(s) && LaunchesResolve(s)
    requires e.AgentAdmits? || e.ReviewedStart? || e.Interrupt? || e.Revoke? || e.Submit?
      || e.DrainSettled? || e.Shutdown? || e.ShutdownDrain?
    ensures Plain(s, Step(s, e))
  {
    hide Plain;
    Same(s);
    match e
    case AgentAdmits(id, n) =>
      if id < |s.runtimes| && n <= |s.runtimes[id].agent.steering| {
        AdmitsOrdinary(s, id, n);
      }
    case ReviewedStart(body) => ReviewedOrdinary(s, body);
    case Interrupt => AdvanceOrdinary(s, Interrupted);
    case Revoke => AdvanceOrdinary(s, Revoked);
    case Submit(r) => if !r.DeferredSwitch? { EnqueueOrdinary(s, r); }
    case DrainSettled(d) => FlagsOrdinary(s, s.(drains := s.drains - {d}));
    case Shutdown => ShutdownOrdinary(s);
    case ShutdownDrain => FlagsOrdinary(s, TrackPool(s));
  }

  lemma ReviewedOrdinary(s: Host, body: string)
    requires Wf(s)
    ensures Plain(s, BeginReviewed(s, body))
  {}

  lemma TurnEventOrdinary(s: Host, e: Event)
    requires Owned(s) && !BeginsTurn(s, e)
    requires e.TailSettled? || e.PolicyReturned? || e.TurnReturned? || e.ScheduledStart? || e.IntentIssued?
    ensures Plain(s, Step(s, e))
  {
    hide PoolOwned, TurnsPooled, LatchesOwned, MutationsSerial, DrainsHonest, Wf, Plain;
    hide StartTurn, Reserve, PolicyReturn, FinishTurn, IntentReturn;
    Same(s);
    match e
    case TailSettled(t) => if t < |s.tasks| && s.tasks[t].WaitingStart? { ResumeOrdinary(s, t); }
    case PolicyReturned(t, outcome) => if t < |s.tasks| && s.tasks[t].Validating? { PolicyOrdinary(s, t, outcome); }
    case TurnReturned(t) => if t < |s.tasks| && s.tasks[t].Running? { FinishTurnOrdinary(s, t); }
    case ScheduledStart(t) => if t < |s.tasks| && s.tasks[t].Scheduled? { ResumeOrdinary(s, t); }
    case IntentIssued(t, ok) => if t < |s.tasks| && s.tasks[t].Issuing? { IntentOrdinary(s, t, ok); }
  }

  lemma InputEventOrdinary(s: Host, e: Event)
    requires Owned(s)
    requires e.Deliver? || e.PeerMessage? || e.PeerWake? || e.Publish? || e.ResumeTimer?
    ensures Plain(s, Step(s, e))
  {
    hide PoolOwned, TurnsPooled, LatchesOwned, MutationsSerial, DrainsHonest, Plain;
    hide StartTurn, DeliverInput, DeliverPeer, WakePeer, PublishExternal;
    Same(s);
    match e
    case Deliver(mode, body) => DeliverOrdinary(s, mode, body);
    case PeerMessage(target, body, deviceKnown, accepted) => PeerOrdinary(s, target, body, deviceKnown, accepted);
    case PeerWake(key) => if key in s.peerWakes { WakeOrdinary(s, key); }
    case Publish(key, body) => PublishOrdinary(s, key, body);
    case ResumeTimer(body) => StartOrdinary(s, s.activeKey, Text(HostPrompt, s.activeKey, body), None);
  }

  /** Every other step is ordinary, and binds no agent unless it is the learning mutation's. */
  lemma StepOrdinary(s: Host, e: Event)
    requires Owned(s)
    requires !BeginsTurn(s, e) && !MovesSessions(e) && !TouchesDisk(e)
    ensures Ordinary(s, Step(s, e))
    ensures !e.LearningPoll? ==> BindingsKept(s, Step(s, e))
  {
    hide PoolOwned, TurnsPooled, LatchesOwned, MutationsSerial, DrainsHonest, Wf, Ordinary, BindingsKept;
    hide ParkedCurrent, PollTurns, PollLearning;
    Same(s);
    match e
    case CurrentDrained => if s.mutations != [] && s.mutations[0].phase.ParkingCurrent? { ParkedOrdinary(s); }
    case RebindPoll(deadline) =>
      if s.mutations != [] && s.mutations[0].phase.StoppingTurns? { PollOrdinary(s, deadline); }
    case LearningPoll => if s.mutations != [] && s.mutations[0].phase.AwaitingIdle? { LearningOrdinary(s); }
    case _ =>
      hide Step;
      if e.TailSettled? || e.PolicyReturned? || e.TurnReturned? || e.ScheduledStart? || e.IntentIssued? {
        TurnEventOrdinary(s, e);
      } else if e.Deliver? || e.PeerMessage? || e.PeerWake? || e.Publish? || e.ResumeTimer? {
        InputEventOrdinary(s, e);
      } else {
        AmbientOrdinary(s, e);
      }
  }

  lemma Same(s: Host)
    ensures Plain(s, s)
  {}
}
