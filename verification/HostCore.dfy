/**
 * The session host as the object it is: closure variables become fields, every stretch of code
 * between two awaits becomes a method that updates them in place, and each method is shown to
 * take exactly the step that `HostModel` describes.
 */
module HostCore {
  import opened Common
  import opened HostModel
  import opened HostInvariants
  import opened HostQueue
  import opened HostRuns

  class SessionHost {
    const spawns: bool
    var runtimes: seq<Runtime>
    var pool: map<Key, RuntimeId>
    var activeKey: Key
    var shuttingDown: bool
    var tenantRebinding: bool
    var queuedSessionMutations: nat
    var mutations: seq<Mutation>
    var settled: nat
    var runtimeAuthorityGeneration: nat
    var pendingSwitch: Option<Switch>
    var drains: set<Drain>
    var peerWakes: set<Key>
    var inbox: map<Key, seq<Text>>
    var transcripts: set<Key>
    var tasks: seq<Task>
    ghost var submitted: seq<Request>
    ghost var authority: seq<Authority>

    ghost function State(): Host
      reads this
    {
      Host(spawns, runtimes, pool, activeKey, shuttingDown, tenantRebinding, mutations, submitted, settled, authority,
           pendingSwitch, drains, peerWakes, inbox, transcripts, tasks)
    }

    /** The two counters agree with what they count. */
    ghost predicate Counted()
      reads this
    {
      queuedSessionMutations == |mutations| && runtimeAuthorityGeneration == |authority|
    }

    ghost predicate Valid()
      reads this
    {
      Counted() && Owned(State())
    }

    constructor (key: Key, spawns: bool, transcripts: set<Key>)
      ensures Valid() && State() == NewHost(key, spawns, transcripts)
    {
      this.spawns := spawns;
      runtimes, pool, activeKey := [FreshRuntime(key)], map[key := 0], key;
      shuttingDown, tenantRebinding := false, false;
      queuedSessionMutations, mutations, settled, runtimeAuthorityGeneration := 0, [], 0, 0;
      pendingSwitch, drains, peerWakes, inbox := None, {}, {}, map[];
      this.transcripts, tasks := transcripts, [];
      submitted, authority := [], [];
    }

    // -------------------------------------------------------------------------------------
    // Small updates
    // -------------------------------------------------------------------------------------

    method AdvanceAuthority(ghost a: Authority)
      requires Counted()
      modifies `runtimeAuthorityGeneration, `authority
      ensures Counted() && State() == Advance(old(State()), a)
    {
      runtimeAuthorityGeneration := runtimeAuthorityGeneration + 1;
      authority := authority + [a];
    }

    method RunSessionMutation(r: Request)
      requires Counted()
      modifies this
      ensures Counted() && State() == Enqueue(old(State()), r)
    {
      queuedSessionMutations := queuedSessionMutations + 1;
      mutations := mutations + [Mutation(r, Waiting)];
      submitted := submitted + [r];
      AdvanceAuthority(MutationQueued);
    }

    /** The `finally` of a guarded mutation. */
    method SettleMutation()
      requires Counted() && mutations != []
      modifies `queuedSessionMutations, `mutations, `settled
      ensures Counted() && State() == Settle(old(State()))
      ensures mutations == old(mutations)[1..] && settled == old(settled) + 1
    {
      queuedSessionMutations := queuedSessionMutations - 1;
      mutations := mutations[1..];
      settled := settled + 1;
    }

    method EnterPhase(p: Phase)
      requires Counted() && mutations != []
      modifies `mutations
      ensures Counted() && State() == SetPhase(old(State()), p)
    {
      mutations := mutations[0 := mutations[0].(phase := p)];
    }

    method TrackSessionDrain(id: RuntimeId)
      requires id < |runtimes|
      modifies `drains
      ensures State() == Track(old(State()), id)
    {
      drains := drains + {Drain(id, runtimes[id].agent.sessionKey)};
    }

    method EvictRuntime(key: Key, id: RuntimeId)
      requires id < |runtimes|
      modifies `pool, `drains
      ensures State() == Evict(old(State()), key, id)
    {
      pool := pool - {key};
      TrackSessionDrain(id);
    }

    predicate ReviewedExecutionIsCurrent(key: Key, launch: Launch, expected: nat)
      requires Counted() && launch.rt < |runtimes|
      reads this
      ensures ReviewedExecutionIsCurrent(key, launch, expected) == LaunchIsCurrent(State(), key, launch, expected)
    {
      && !shuttingDown
      && !tenantRebinding
      && pendingSwitch.None?
      && runtimeAuthorityGeneration == expected
      && activeKey == key
      && key in pool
      && pool[key] == launch.rt
      && runtimes[launch.rt].agent.sessionKey == key
    }

    // -------------------------------------------------------------------------------------
    // Turns
    // -------------------------------------------------------------------------------------

    method StartTurnForKey(key: Key, text: Text, launch: Option<Launch>)
      requires Counted() && Wf(State()) && (launch.Some? ==> launch.value.rt < |runtimes|)
      modifies this
      ensures Counted() && State() == StartTurn(old(State()), key, text, launch)
    {
      if queuedSessionMutations > 0 {
        tasks := tasks + [WaitingStart(key, text, launch, settled + queuedSessionMutations)];
      } else {
        ReserveTurn(key, text, launch);
      }
    }

    method ReserveTurn(key: Key, text: Text, launch: Option<Launch>)
      requires Counted() && Wf(State()) && (launch.Some? ==> launch.value.rt < |runtimes|)
      modifies this
      ensures Counted() && State() == Reserve(old(State()), key, text, launch)
    {
      if shuttingDown || tenantRebinding { return; }
      if launch.Some? && !ReviewedExecutionIsCurrent(key, launch.value, launch.value.at) { return; }
      if key !in pool || runtimes[pool[key]].Running() { return; }
      var id, t := pool[key], |tasks|;
      runtimes := runtimes[id := runtimes[id].(turn := Some(t))];
      AdvanceAuthority(TurnReserved(key, t));
      tasks := tasks + [Validating(key, id, text, launch, runtimeAuthorityGeneration)];
    }

    method ValidateTurnReturned(t: TaskId, outcome: PolicyOutcome)
      requires Counted() && Wf(State()) && t < |tasks| && tasks[t].Validating?
      requires tasks[t].launch.Some? ==> tasks[t].launch.value.rt < |runtimes|
      modifies this
      ensures Counted() && State() == PolicyReturn(old(State()), t, outcome)
    {
      var task := tasks[t];
      if task.launch.Some? && !ReviewedExecutionIsCurrent(task.key, task.launch.value, task.reservedAt) {
        AbandonReservedReviewedExecution(t);
      } else if outcome != Allowed {
        runtimes := runtimes[task.rt := runtimes[task.rt].(turn := None)];
        tasks := tasks[t := Done];
      } else {
        CallRunTurn(t);
      }
    }

    method CallRunTurn(t: TaskId)
      requires Counted() && Wf(State()) && t < |tasks| && tasks[t].Validating?
      modifies `runtimes, `tasks
      ensures Counted() && State() == BeginRun(old(State()), t)
    {
      var task := tasks[t];
      var r := runtimes[task.rt];
      var loaded := None;
      if r.pendingHistoryKey.Some? {
        if r.pendingHistoryKey.value in transcripts {
          loaded := r.pendingHistoryKey;
          r := r.(agent := r.agent.(history := {r.pendingHistoryKey.value}));
        }
        r := r.(pendingHistoryKey := None);
      }
      var sk := r.agent.sessionKey;
      runtimes := runtimes[task.rt := r.(agent := r.agent.(history := r.agent.history + {sk}))];
      tasks := tasks[t := Running(task.key, task.rt, task.text, task.launch, sk, runtimeAuthorityGeneration, loaded)];
    }

    method DequeueNext(id: RuntimeId) returns (next: Option<Queued>)
      requires Counted() && id < |runtimes|
      modifies `runtimes
      ensures Counted() && State() == TakeNext(old(State()), id).0 && next == TakeNext(old(State()), id).1
      ensures |runtimes| == |old(runtimes)|
    {
      next := None;
      if !shuttingDown && !tenantRebinding && runtimes[id].queue != [] {
        next := Some(runtimes[id].queue[0]);
        runtimes := runtimes[id := runtimes[id].(queue := runtimes[id].queue[1..])];
      }
    }

    method ApplyPendingSwitch()
      requires Counted()
      modifies this
      ensures Counted() && State() == RunPendingSwitch(old(State()))
    {
      var deferred := pendingSwitch;
      pendingSwitch := None;
      if deferred.Some? && !shuttingDown {
        RunSessionMutation(DeferredSwitch(deferred.value));
      }
    }

    /** The loop over the steers the agent had not admitted when its turn ended. */
    method RoutePendingSteers(pending: seq<Steer>, queue: seq<Queued>) returns (routed: Routing)
      ensures routed == Route(pending, Routing(queue, [], []), shuttingDown || tenantRebinding)
    {
      var closing := shuttingDown || tenantRebinding;
      routed := Routing(queue, [], []);
      var i := 0;
      while i < |pending|
        invariant i <= |pending|
        invariant Route(pending[i..], routed, closing) == Route(pending, Routing(queue, [], []), closing)
      {
        var p := pending[i];
        assert pending[i..][0] == p && pending[i..][1..] == pending[i + 1..];
        if closing || (p.source == Peer && !p.deviceKnown) {
          routed := routed.(fates := routed.fates + [Canceled]);
        } else if p.source == Peer {
          routed := routed.(steering := routed.steering + [p], fates := routed.fates + [Resteered]);
        } else if |routed.queue| >= MAX_PENDING_SESSION_INPUTS {
          return;
        } else {
          routed := routed.(queue := routed.queue + [Queued(p.text, p.source)], fates := routed.fates + [Requeued]);
        }
        i := i + 1;
      }
    }

    /** The latch is given back and the leftover steers are routed; `complete` unless the input queue overflowed. */
    method ReleaseTurn(t: TaskId) returns (complete: bool)
      requires Counted() && Wf(State()) && t < |tasks| && tasks[t].Running?
      modifies `runtimes, `tasks, `peerWakes
      ensures var s := old(State());
        var task, r := s.tasks[t], s.runtimes[s.tasks[t].rt];
        var routed := Route(r.agent.steering, Routing(r.queue, [], []), Closing(s));
        && complete == (|routed.fates| >= |r.agent.steering|)
        && State() == Finish(SetRuntime(s, task.rt,
            r.(turn := None, queue := routed.queue, agent := r.agent.(steering := routed.steering))), t)
             .(peerWakes := if Resteered in routed.fates then s.peerWakes + {task.sk} else s.peerWakes)
    {
      var task := tasks[t];
      var r := runtimes[task.rt];
      var routed := RoutePendingSteers(r.agent.steering, r.queue);
      runtimes := runtimes[task.rt := r.(turn := None, queue := routed.queue,
        agent := r.agent.(steering := routed.steering))];
      tasks := tasks[t := Done];
      if Resteered in routed.fates {
        peerWakes := peerWakes + {task.sk};
      }
      complete := |routed.fates| >= |r.agent.steering|;
    }

    method RunTurnReturned(t: TaskId)
      requires Counted() && Wf(State()) && t < |tasks| && tasks[t].Running?
      modifies this
      ensures Counted() && State() == FinishTurn(old(State()), t)
    {
      var task := tasks[t];
      assert task.rt < |runtimes|;
      hide Wf, Route, TakeNext, Evict, RunPendingSwitch, ScheduleNext;
      var complete := ReleaseTurn(t);
      if !complete { return; }
      var next := DequeueNext(task.rt);
      if task.sk != activeKey && spawns && next.None? {
        EvictRuntime(task.sk, task.rt);
      }
      ApplyPendingSwitch();
      Follow(task.sk, next);
    }

    method Follow(key: Key, next: Option<Queued>)
      modifies `tasks
      ensures State() == ScheduleNext(old(State()), key, next)
    {
      if next.Some? {
        tasks := tasks + [Scheduled(key, next.value.text)];
      }
    }

    method AbandonReservedReviewedExecution(t: TaskId)
      requires Counted() && Wf(State()) && t < |tasks| && tasks[t].Validating?
      modifies this
      ensures Counted() && State() == Abandon(old(State()), t)
    {
      var task := tasks[t];
      runtimes := runtimes[task.rt := runtimes[task.rt].(turn := None)];
      hide Wf, Evict, ScheduleNext;
      tasks := tasks[t := Done];
      var next := DequeueNext(task.rt);
      ApplyPendingSwitch();
      if next.None? && task.key != activeKey && spawns
        && runtimes[task.rt].queue == [] && runtimes[task.rt].agent.steering == [] && task.key !in peerWakes
        && task.key in pool && pool[task.key] == task.rt
      {
        EvictRuntime(task.key, task.rt);
      }
      Follow(task.key, next);
    }

    // -------------------------------------------------------------------------------------
    // Inputs
    // -------------------------------------------------------------------------------------

    method DeliverInput(mode: DeliveryMode, body: string)
      requires Counted() && Wf(State())
      modifies this
      ensures Counted() && State() == HostModel.DeliverInput(old(State()), mode, body)
    {
      var key := activeKey;
      if key !in pool { return; }
      var id, text := pool[key], Text(User, key, body);
      var r := runtimes[id];
      if !r.Running() {
        StartTurnForKey(key, text, None);
      } else if mode == QueueMode && |r.queue| < MAX_PENDING_SESSION_INPUTS {
        runtimes := runtimes[id := r.(queue := r.queue + [Queued(text, User)])];
      } else if mode == SteerMode && |r.agent.steering| < MAX_PENDING_SESSION_INPUTS {
        runtimes := runtimes[id := r.(agent := r.agent.(steering := r.agent.steering + [Steer(text, User, false)]))];
      }
    }

    method DeliverPeerMessage(target: Key, body: string, deviceKnown: bool, accepted: bool)
      requires Counted() && Wf(State())
      modifies `runtimes, `peerWakes
      ensures Counted() && State() == DeliverPeer(old(State()), target, body, deviceKnown, accepted)
    {
      if shuttingDown || tenantRebinding || target !in pool { return; }
      var id := pool[target];
      var r := runtimes[id];
      if !accepted || |r.agent.steering| >= MAX_PENDING_SESSION_INPUTS { return; }
      var steer := Steer(Text(Peer, target, body), Peer, deviceKnown);
      runtimes := runtimes[id := r.(agent := r.agent.(steering := r.agent.steering + [steer]))];
      if !r.Running() {
        peerWakes := peerWakes + {target};
      }
    }

    method PeerWakeFires(key: Key)
      requires Counted() && Wf(State()) && key in peerWakes
      modifies this
      ensures Counted() && State() == WakePeer(old(State()), key)
    {
      peerWakes := peerWakes - {key};
      if key in pool && !runtimes[pool[key]].Running() && !shuttingDown && !tenantRebinding {
        StartTurnForKey(key, Text(HostPrompt, key, WAKE_PROMPT),
          None);
      }
    }

    /** Extension results for a pooled session: steer a running turn, or queue and start a follow-up. */
    method DeliverExternalSteering(key: Key)
      requires Counted() && Wf(State())
      modifies `runtimes, `inbox, `tasks
      ensures Counted() && State() == DeliverExternal(old(State()), key)
    {
      if key !in pool || key !in inbox || inbox[key] == [] { return; }
      var events := inbox[key];
      inbox := inbox - {key};
      if shuttingDown || tenantRebinding { return; }
      var id := pool[key];
      var r := runtimes[id];
      var i := 0;
      if r.Running() {
        var steering := r.agent.steering;
        while i < |events| && |steering| < MAX_PENDING_SESSION_INPUTS
          invariant i <= |events|
          invariant i > 0 ==> |r.agent.steering| + i <= MAX_PENDING_SESSION_INPUTS
          invariant steering == r.agent.steering + AsSteers(events)[..i]
        {
          steering := steering + [Steer(events[i], Extension, false)];
          i := i + 1;
        }
        assert AsSteers(events)[..i] == Fitting(AsSteers(events), |r.agent.steering|);
        runtimes := runtimes[id := r.(agent := r.agent.(steering := steering))];
      } else {
        var queue := r.queue;
        while i < |events| && |queue| < MAX_PENDING_SESSION_INPUTS
          invariant i <= |events|
          invariant i > 0 ==> |r.queue| + i <= MAX_PENDING_SESSION_INPUTS
          invariant queue == r.queue + AsQueued(events)[..i]
        {
          queue := queue + [Queued(events[i], Extension)];
          i := i + 1;
        }
        assert AsQueued(events)[..i] == Fitting(AsQueued(events), |r.queue|);
        if i < |events| {
          runtimes := runtimes[id := r.(queue := queue)];
        } else {
          runtimes := runtimes[id := r.(queue := queue[1..])];
          Follow(key, Some(queue[0]));
        }
      }
    }

    method ExternalSteeringPublished(key: Key, body: string)
      requires Counted() && Wf(State())
      modifies `runtimes, `inbox, `tasks
      ensures Counted() && State() == PublishExternal(old(State()), key, body)
    {
      var pending := if key in inbox then inbox[key] else [];
      if |pending| < MAX_PENDING_SESSION_INPUTS {
        inbox := inbox[key := pending + [Text(Extension, key, body)]];
        DeliverExternalSteering(key);
      }
    }

    method ResumeTimerFires(body: string)
      requires Counted() && Wf(State())
      modifies this
      ensures Counted() && State() == AutoResume(old(State()), body)
    {
      if activeKey in pool && !runtimes[pool[activeKey]].Running() {
        StartTurnForKey(activeKey, Text(HostPrompt, activeKey, body), None);
      }
    }

    // -------------------------------------------------------------------------------------
    // Reviewed launches
    // -------------------------------------------------------------------------------------

    method StartReviewedExecution(body: string)
      requires Counted() && Wf(State())
      modifies `tasks
      ensures Counted() && State() == BeginReviewed(old(State()), body)
    {
      var key := activeKey;
      if queuedSessionMutations > 0 || shuttingDown || tenantRebinding { return; }
      if key !in pool || runtimes[pool[key]].Running() { return; }
      tasks := tasks + [Issuing(key, pool[key], Text(User, key, body), runtimeAuthorityGeneration)];
    }

    method ExecutionIntentIssued(t: TaskId, ok: bool)
      requires Counted() && Wf(State()) && t < |tasks| && tasks[t].Issuing?
      modifies this
      ensures Counted() && State() == IntentReturn(old(State()), t, ok)
    {
      var task := tasks[t];
      var launch := Launch(task.rt, task.at, t);
      var current := ok && !runtimes[task.rt].Running() && ReviewedExecutionIsCurrent(task.key, launch, launch.at);
      tasks := tasks[t := Done];
      if current {
        StartTurnForKey(task.key, task.text, Some(launch));
      }
    }

    // -------------------------------------------------------------------------------------
    // Session mutations
    // -------------------------------------------------------------------------------------

    /** `focusOrCreate` and `acquireRuntime` up to their first await. */
    method FocusOrCreate(switch: Switch)
      requires Counted() && Wf(State()) && mutations != []
      modifies this
      ensures Counted() && State() == Focus(old(State()), switch)
    {
      if switch.target in pool {
        activeKey := switch.target;
        DeliverExternalSteering(switch.target);
        SettleMutation();
      } else if activeKey in pool && !runtimes[pool[activeKey]].Running()
        && runtimes[pool[activeKey]].agent.steering == [] && activeKey !in peerWakes
      {
        var id := pool[activeKey];
        pool := pool - {activeKey};
        TrackSessionDrain(id);
        EnterPhase(ParkingCurrent(id, switch));
      } else if spawns {
        EnterPhase(AwaitingTarget(None, switch, set d <- drains | d.key == switch.target));
      } else {
        pendingSwitch := Some(switch);
        SettleMutation();
      }
    }

    /** Up to eight attempts at an unused key. */
    method MintKey(uuids: seq<string>) returns (minted: Option<Key>)
      ensures minted == Mint(State(), uuids, MINT_ATTEMPTS)
    {
      var attempt := 0;
      while attempt < MINT_ATTEMPTS && attempt < |uuids|
        invariant attempt <= MINT_ATTEMPTS && attempt <= |uuids|
        invariant Mint(State(), uuids, MINT_ATTEMPTS) == Mint(State(), uuids[attempt..], MINT_ATTEMPTS - attempt)
      {
        var candidate: Key := Prefix(activeKey) + ":new-" + uuids[attempt];
        assert uuids[attempt..][1..] == uuids[attempt + 1..];
        if candidate !in pool && candidate !in transcripts {
          return Some(candidate);
        }
        attempt := attempt + 1;
      }
      minted := None;
    }

    /** The oldest queued mutation begins: `applyNew`, `applyResume`, `rebindTenant` or `bindLearning`. */
    method BeginMutation(uuids: seq<string>)
      requires Counted() && Wf(State()) && mutations != [] && mutations[0].phase.Waiting?
      modifies this
      ensures Counted() && State() == StartHead(old(State()), uuids)
    {
      match mutations[0].request
      case NewSession =>
        var minted := MintKey(uuids);
        if minted.None? { SettleMutation(); } else { FocusOrCreate(Switch(minted.value, FreshStart)); }
      case ResumeSession(key) =>
        if key in pool || key in transcripts { FocusOrCreate(Switch(key, LazyResume)); }
        else if IsUnsavedNew(key) { FocusOrCreate(Switch(key, FreshStart)); }
        else { SettleMutation(); }
      case DeferredSwitch(switch) => FocusOrCreate(switch);
      case RebindTenant => BeginRebind();
      case BindLearning(binding) =>
        if shuttingDown { SettleMutation(); } else { EnterPhase(AwaitingIdle(binding)); }
    }

    method BeginRebind()
      requires Counted() && Wf(State()) && mutations != []
      modifies this
      ensures Counted() && State() ==
        if Closing(old(State())) then Settle(old(State()))
        else SetPhase(ClearQueues(old(State())).(tenantRebinding := true, pendingSwitch := None),
          StoppingTurns(old(activeKey)))
    {
      if shuttingDown || tenantRebinding {
        SettleMutation();
      } else {
        tenantRebinding, pendingSwitch := true, None;
        ClearPooledQueues();
        EnterPhase(StoppingTurns(activeKey));
      }
    }

    method ClearPooledQueues()
      requires Wf(State())
      modifies `runtimes
      ensures State() == ClearQueues(old(State()))
    {
      ghost var before := runtimes;
      var keys := pool.Keys;
      while keys != {}
        invariant keys <= pool.Keys && |runtimes| == |before|
        invariant forall i :: 0 <= i < |before| ==> runtimes[i] == before[i] || runtimes[i] == before[i].(queue := [])
        invariant forall k <- pool.Keys - keys :: runtimes[pool[k]] == before[pool[k]].(queue := [])
        invariant forall i :: 0 <= i < |before| && i !in pool.Values ==> runtimes[i] == before[i]
        decreases keys
      {
        var k :| k in keys;
        runtimes := runtimes[pool[k] := runtimes[pool[k]].(queue := [])];
        keys := keys - {k};
      }
      assert State().runtimes == ClearQueues(old(State())).runtimes;
    }

    method CurrentCheckpointDone()
      requires Counted() && Wf(State()) && mutations != [] && mutations[0].phase.ParkingCurrent?
      modifies `mutations
      ensures Counted() && State() == ParkedCurrent(old(State()))
    {
      var p := mutations[0].phase;
      if Drain(p.rt, runtimes[p.rt].agent.sessionKey) !in drains {
        EnterPhase(AwaitingTarget(Some(p.rt), p.switch, set d <- drains | d.key == p.switch.target));
      }
    }

    /** `focusOrCreate` after `acquireRuntime` returned. */
    method InstallRuntime(outcome: InstallOutcome)
      requires Counted() && Wf(State()) && mutations != [] && mutations[0].phase.AwaitingTarget?
      modifies this
      ensures Counted() && State() == Install(old(State()), outcome)
    {
      var p := mutations[0].phase;
      if !(p.snapshot !! drains) { return; }
      if p.reused.Some? {
        RetargetRuntime(p.reused.value, p.switch, outcome);
      } else if outcome == SpawnThrew {
        SettleMutation();
      } else {
        runtimes := runtimes + [FreshRuntime(p.switch.target)];
        RetargetRuntime(|runtimes| - 1, p.switch, outcome);
      }
    }

    method RetargetRuntime(id: RuntimeId, switch: Switch, outcome: InstallOutcome)
      requires Counted() && Wf(State()) && mutations != [] && id < |runtimes|
      modifies this
      ensures Counted() && State() == Retarget(old(State()), id, switch, outcome)
    {
      var r := runtimes[id];
      r := r.(agent := r.agent.(sessionKey := switch.target), pendingHistoryKey := None);
      if outcome == ConfigThrew {
        runtimes := runtimes[id := r];
        SettleMutation();
      } else {
        match switch.init {
          case FreshStart => r := r.(agent := r.agent.(history := {}));
          case LazyResume => r := r.(pendingHistoryKey := Some(switch.target));
        }
        runtimes := runtimes[id := r];
        pool := pool[switch.target := id];
        activeKey := switch.target;
        DeliverExternalSteering(switch.target);
        SettleMutation();
      }
    }

    method TrackPooledDrains()
      requires Wf(State())
      modifies `drains
      ensures State() == TrackPool(old(State()))
    {
      drains := drains + set k <- pool :: Drain(pool[k], runtimes[pool[k]].agent.sessionKey);
    }

    method RebindPolls(deadline: bool)
      requires Counted() && Wf(State()) && mutations != [] && mutations[0].phase.StoppingTurns?
      modifies this
      ensures Counted() && State() == PollTurns(old(State()), deadline)
    {
      if exists k <- pool :: runtimes[pool[k]].Running() {
        if deadline {
          tenantRebinding := false;
          SettleMutation();
        }
      } else {
        var home := mutations[0].phase.home;
        TrackPooledDrains();
        EnterPhase(DrainingPool(home));
      }
    }

    method AllDrained()
      requires Counted() && Wf(State()) && mutations != [] && mutations[0].phase.DrainingPool?
      modifies this
      ensures Counted() && State() == RequestReplacement(old(State()))
    {
      if drains == {} {
        pool := map[];
        EnterPhase(Replacing(mutations[0].phase.home));
      }
    }

    method EndRebind()
      requires Counted() && mutations != []
      modifies `tenantRebinding, `queuedSessionMutations, `mutations, `settled
      ensures Counted() && State() == Settle(old(State()).(tenantRebinding := false))
    {
      tenantRebinding := false;
      SettleMutation();
    }

    method ReplacementCreated(installed: bool)
      requires Counted() && Wf(State()) && mutations != [] && mutations[0].phase.Replacing?
      modifies this
      ensures Counted() && State() == InstallReplacement(old(State()), installed)
    {
      var home := mutations[0].phase.home;
      hide Wf, Settle;
      EndRebind();
      if installed {
        pool := pool[home := |runtimes|];
        var parked := if home in transcripts then Some(home) else None;
        runtimes := runtimes + [FreshRuntime(home).(pendingHistoryKey := parked)];
        activeKey := home;
      }
    }

    method LearningPolls()
      requires Counted() && Wf(State()) && mutations != [] && mutations[0].phase.AwaitingIdle?
      modifies this
      ensures Counted() && State() == PollLearning(old(State()))
    {
      if !exists k <- pool :: runtimes[pool[k]].Running() {
        SetPooledBindings(mutations[0].phase.binding);
        SettleMutation();
      }
    }

    method SetPooledBindings(binding: int)
      requires Wf(State())
      modifies `runtimes
      ensures State() == BindPool(old(State()), binding)
    {
      ghost var before := runtimes;
      var keys := pool.Keys;
      while keys != {}
        invariant keys <= pool.Keys && |runtimes| == |before|
        invariant forall i :: 0 <= i < |before| ==>
          runtimes[i] == before[i] || runtimes[i] == before[i].(agent := before[i].agent.(learning := binding))
        invariant forall k <- pool.Keys - keys ::
          runtimes[pool[k]] == before[pool[k]].(agent := before[pool[k]].agent.(learning := binding))
        invariant forall i :: 0 <= i < |before| && i !in pool.Values ==> runtimes[i] == before[i]
        decreases keys
      {
        var k :| k in keys;
        runtimes := runtimes[pool[k] := runtimes[pool[k]].(agent := runtimes[pool[k]].agent.(learning := binding))];
        keys := keys - {k};
      }
      assert State().runtimes == BindPool(old(State()), binding).runtimes;
    }

    // -------------------------------------------------------------------------------------
    // Events
    // -------------------------------------------------------------------------------------

    method ContinuationEvent(e: Event)
      requires Valid()
      requires e.TailSettled? || e.PolicyReturned? || e.TurnReturned? || e.ScheduledStart? || e.IntentIssued?
      modifies this
      ensures Counted() && State() == Step(old(State()), e)
    {
      if e.task >= |tasks| { return; }
      var task := tasks[e.task];
      FinishWf(State(), e.task);
      hide StartTurn, Reserve, PolicyReturn, FinishTurn, IntentReturn, PoolOwned, TurnsPooled, LatchesOwned;
      hide MutationsSerial, DrainsHonest;
      match e
      case TailSettled(t) =>
        if task.WaitingStart? && task.until <= settled {
          tasks := tasks[t := Done];
          ReserveTurn(task.key, task.text, task.launch);
        }
      case PolicyReturned(t, outcome) => if task.Validating? { ValidateTurnReturned(t, outcome); }
      case TurnReturned(t) => if task.Running? { RunTurnReturned(t); }
      case ScheduledStart(t) =>
        if task.Scheduled? {
          tasks := tasks[t := Done];
          StartTurnForKey(task.key, task.text, None);
        }
      case IntentIssued(t, ok) => if task.Issuing? { ExecutionIntentIssued(t, ok); }
    }

    method MutationEvent(e: Event)
      requires Valid() && HeadEvent(e)
      modifies this
      ensures Counted() && State() == Step(old(State()), e)
    {
      if mutations == [] { return; }
      hide StartHead, ParkedCurrent, Install, PollTurns, RequestReplacement, InstallReplacement, PollLearning;
      hide PoolOwned, TurnsPooled, LatchesOwned, MutationsSerial, DrainsHonest, LaunchesResolve, Wf;
      match e
      case HeadStarts(uuids) => if mutations[0].phase.Waiting? { BeginMutation(uuids); }
      case CurrentDrained => if mutations[0].phase.ParkingCurrent? { CurrentCheckpointDone(); }
      case TargetDrained(outcome) => if mutations[0].phase.AwaitingTarget? { InstallRuntime(outcome); }
      case RebindPoll(deadline) => if mutations[0].phase.StoppingTurns? { RebindPolls(deadline); }
      case PoolDrained => if mutations[0].phase.DrainingPool? { AllDrained(); }
      case ReplacementReturned(installed) => if mutations[0].phase.Replacing? { ReplacementCreated(installed); }
      case LearningPoll => if mutations[0].phase.AwaitingIdle? { LearningPolls(); }
    }

    method InputEvent(e: Event)
      requires Valid()
      requires e.Deliver? || e.AgentAdmits? || e.PeerMessage? || e.PeerWake? || e.Publish? || e.ResumeTimer?
        || e.ReviewedStart?
      modifies this
      ensures Counted() && State() == Step(old(State()), e)
    {
      hide HostModel.DeliverInput, DeliverPeer, WakePeer, PublishExternal, AutoResume, BeginReviewed;
      hide PoolOwned, TurnsPooled, LatchesOwned, MutationsSerial, DrainsHonest, LaunchesResolve, Wf;
      match e
      case Deliver(mode, body) => DeliverInput(mode, body);
      case AgentAdmits(id, n) =>
        if id < |runtimes| && runtimes[id].Running() && n <= |runtimes[id].agent.steering| {
          runtimes := runtimes[id := runtimes[id].(agent :=
            runtimes[id].agent.(steering := runtimes[id].agent.steering[n..]))];
        }
      case PeerMessage(target, body, deviceKnown, accepted) => DeliverPeerMessage(target, body, deviceKnown, accepted);
      case PeerWake(key) => if key in peerWakes { PeerWakeFires(key); }
      case Publish(key, body) => ExternalSteeringPublished(key, body);
      case ResumeTimer(body) => ResumeTimerFires(body);
      case ReviewedStart(body) => StartReviewedExecution(body);
    }

    method OutsideEvent(e: Event)
      requires Valid() && (e.Interrupt? || e.Revoke? || e.Submit? || e.TranscriptWritten? || e.TranscriptLost?)
      modifies this
      ensures Counted() && State() == Step(old(State()), e)
    {
      hide HostModel.DeliverInput, DeliverPeer, WakePeer, PublishExternal, AutoResume, BeginReviewed, Reserve;
      hide PolicyReturn, FinishTurn, StartTurn;
      hide IntentReturn, StartHead, ParkedCurrent, Install, PollTurns, RequestReplacement, InstallReplacement;
      hide PollLearning;
      hide TrackPool, PoolOwned, TurnsPooled, LatchesOwned, MutationsSerial, DrainsHonest, LaunchesResolve, Wf;
      match e
      case Interrupt => AdvanceAuthority(Interrupted);
      case Revoke => AdvanceAuthority(Revoked);
      case Submit(r) => if !r.DeferredSwitch? { RunSessionMutation(r); }
      case TranscriptWritten(key) => transcripts := transcripts + {key};
      case TranscriptLost(key) => transcripts := transcripts - {key};
    }

    method ClosingEvent(e: Event)
      requires Valid() && (e.DrainSettled? || e.Shutdown? || e.ShutdownDrain?)
      modifies `drains, `shuttingDown, `pendingSwitch
      ensures Counted() && State() == Step(old(State()), e)
    {
      hide HostModel.DeliverInput, DeliverPeer, WakePeer, PublishExternal, AutoResume, BeginReviewed, Reserve;
      hide PolicyReturn, FinishTurn, StartTurn;
      hide IntentReturn, StartHead, ParkedCurrent, Install, PollTurns, RequestReplacement, InstallReplacement;
      hide PollLearning;
      hide TrackPool, PoolOwned, TurnsPooled, LatchesOwned, MutationsSerial, DrainsHonest, LaunchesResolve, Wf;
      match e
      case DrainSettled(d) => drains := drains - {d};
      case Shutdown => shuttingDown, pendingSwitch := true, None;
      case ShutdownDrain => if shuttingDown { TrackPooledDrains(); }
    }

    /** The object takes exactly the step of the transition system, and keeps its invariant. */
    method Handle(e: Event)
      requires Valid()
      modifies this
      ensures Valid() && State() == Step(old(State()), e)
    {
      hide Step, PoolOwned, TurnsPooled, LatchesOwned, MutationsSerial, DrainsHonest, LaunchesResolve, Wf;
      StepKeepsOwned(State(), e);
      if e.TailSettled? || e.PolicyReturned? || e.TurnReturned? || e.ScheduledStart? || e.IntentIssued? {
        ContinuationEvent(e);
      } else if HeadEvent(e) {
        MutationEvent(e);
      } else if e.Interrupt? || e.Revoke? || e.Submit? || e.TranscriptWritten? || e.TranscriptLost? {
        OutsideEvent(e);
      } else if e.DrainSettled? || e.Shutdown? || e.ShutdownDrain? {
        ClosingEvent(e);
      } else {
        InputEvent(e);
      }
    }

    /** A whole run of the object is the run of the transition system, so every theorem about runs is about it. */
    method HandleAll(es: seq<Event>)
      requires Valid()
      modifies this
      ensures Valid() && State() == Run(old(State()), es)
    {
      var i := 0;
      while i < |es|
        invariant i <= |es| && Valid()
        invariant Run(old(State()), es) == Run(State(), es[i..])
      {
        assert es[i..][0] == es[i] && es[i..][1..] == es[i + 1..];
        Handle(es[i]);
        i := i + 1;
      }
    }
  }
}
