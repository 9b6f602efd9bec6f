/**
 * Conversation isolation: the history an agent takes into a turn belongs to the turn's session,
 * although agents move between sessions and a resumed history is loaded only at its first turn.
 */
module HostConversations {
  import opened Common
  import opened HostModel
  import opened HostInvariants
  import opened HostSteps

  /** A parked history is the runtime's own session, and a running turn has none parked. */
  ghost predicate ParkedOwn(s: Host)
    requires Wf(s)
  {
    && (forall k <- s.pool ::
          s.runtimes[s.pool[k]].pendingHistoryKey == None || s.runtimes[s.pool[k]].pendingHistoryKey == Some(k))
    && (forall t :: 0 <= t < |s.tasks| && s.tasks[t].Running? ==> s.runtimes[s.tasks[t].rt].pendingHistoryKey == None)
  }

  /** A pooled agent with nothing parked remembers only its own session. */
  ghost predicate Isolated(s: Host)
    requires Wf(s)
  {
    forall k <- s.pool :: s.runtimes[s.pool[k]].pendingHistoryKey == None ==> s.runtimes[s.pool[k]].agent.history <= {k}
  }

  predicate SwitchReadable(s: Host, w: Switch) {
    w.init == LazyResume ==> w.target in s.transcripts
  }

  /** Every transcript that a parked history or a pending lazy resume relies on is on disk. */
  ghost predicate Readable(s: Host)
    requires Wf(s)
  {
    && (forall k <- s.pool :: s.runtimes[s.pool[k]].pendingHistoryKey.Some? ==> k in s.transcripts)
    && (forall w <- PendingSwitches(s) :: SwitchReadable(s, w))
  }

  ghost predicate Conversations(s: Host) {
    && Wf(s)
    && ParkedOwn(s)
    && Isolated(s)
    && Readable(s)
  }

  /** A transcript somebody still has to load: a caller can look this up before deleting one. */
  ghost predicate Needed(s: Host, key: Key)
    requires Wf(s)
  {
    || (key in s.pool && s.runtimes[s.pool[key]].pendingHistoryKey.Some?)
    || Switch(key, LazyResume) in PendingSwitches(s)
  }

  // ---------------------------------------------------------------------------------------
  // Steps that load no history and move no agent
  // ---------------------------------------------------------------------------------------

  /** Sessions only leave the pool, memories and parked keys stay, no turn is called, and a new switch is readable. */
  ghost predicate Calm(s: Host, s': Host) {
    && (forall k <- s'.pool :: k in s.pool && s'.pool[k] == s.pool[k])
    && MemoryKept(s, s')
    && (forall t :: 0 <= t < |s'.tasks| && s'.tasks[t].Running? ==> t < |s.tasks| && s'.tasks[t] == s.tasks[t])
    && s'.transcripts == s.transcripts
    && (forall w <- PendingSwitches(s') :: w in PendingSwitches(s) || SwitchReadable(s', w))
  }

  /** The step keeps both memory invariants. */
  ghost predicate KeepsMemory(s: Host, s': Host)
    requires Wf(s) && Wf(s')
  {
    && (ParkedOwn(s) ==> ParkedOwn(s'))
    && (ParkedOwn(s) && Isolated(s) ==> Isolated(s'))
  }

  lemma CalmKeeps(s: Host, s': Host)
    requires Wf(s) && Wf(s') && Calm(s, s')
    ensures KeepsMemory(s, s') && (Readable(s) ==> Readable(s'))
  {
    hide PendingSwitches;
  }

  lemma CalmTransitive(a: Host, b: Host, c: Host)
    requires Calm(a, b) && Calm(b, c)
    ensures Calm(a, c)
  {
    hide PendingSwitches;
  }

  lemma OrdinaryCalm(s: Host, s': Host)
    requires Ordinary(s, s')
    ensures Calm(s, s')
  {
    hide PendingSwitches;
  }

  lemma SettleCalm(s: Host)
    requires s.mutations != []
    ensures Calm(s, Settle(s))
  {
    SettleOrdinary(s);
    hide Ordinary, Calm, Settle;
    OrdinaryCalm(s, Settle(s));
  }

  /** Extension results are delivered and the mutation settles. */
  lemma TailCalm(s: Host, key: Key)
    requires Wf(s) && s.mutations != []
    ensures DeliverExternal(s, key).mutations == s.mutations && Calm(s, Settle(DeliverExternal(s, key)))
    ensures Wf(Settle(DeliverExternal(s, key)))
  {
    PassiveExternal(s, key);
    ExternalOrdinary(s, key);
    hide Ordinary, Calm, DeliverExternal;
    OrdinaryCalm(s, DeliverExternal(s, key));
    SettleCalm(DeliverExternal(s, key));
    CalmTransitive(s, DeliverExternal(s, key), Settle(DeliverExternal(s, key)));
  }

  lemma ViewCalm(s: Host, key: Key)
    ensures Calm(s, s.(activeKey := key))
  {
    assert PendingSwitches(s.(activeKey := key)) == PendingSwitches(s);
  }

  /** A switch that cannot happen at once adds itself, and nothing else, to the pending ones. */
  lemma FocusSwitches(s: Host, switch: Switch)
    requires Wf(s) && s.mutations != [] && switch.target !in s.pool
    ensures PendingSwitches(Focus(s, switch)) <= PendingSwitches(s) + {switch}
  {
    var s' := Focus(s, switch);
    forall w <- PendingSwitches(s') ensures w in PendingSwitches(s) || w == switch {
      if s'.pendingSwitch != Some(w) {
        var i :| 0 <= i < |s'.mutations| && w in SwitchesOf(s'.mutations[i]);
        if |s'.mutations| < |s.mutations| {
          assert w in SwitchesOf(s.mutations[i + 1]);
        } else {
          assert w == switch || w in SwitchesOf(s.mutations[i]);
        }
      }
    }
  }

  lemma FocusMemory(s: Host, switch: Switch)
    requires Wf(s) && s.mutations != [] && switch.target !in s.pool
    ensures var s' := Focus(s, switch);
      && (forall k <- s'.pool :: k in s.pool && s'.pool[k] == s.pool[k])
      && s'.runtimes == s.runtimes && s'.tasks == s.tasks && s'.transcripts == s.transcripts
  {}

  lemma FocusCalm(s: Host, switch: Switch)
    requires Wf(s) && s.mutations != []
    requires switch.target in s.pool || SwitchReadable(s, switch) || switch in PendingSwitches(s)
    ensures Calm(s, Focus(s, switch))
  {
    if switch.target in s.pool {
      var s1 := s.(activeKey := switch.target);
      hide Calm, DeliverExternal;
      ViewCalm(s, switch.target);
      TailCalm(s1, switch.target);
      CalmTransitive(s, s1, Settle(DeliverExternal(s1, switch.target)));
    } else {
      FocusSwitches(s, switch);
      FocusMemory(s, switch);
      hide Focus, PendingSwitches;
    }
  }

  lemma RebindStartCalm(s: Host)
    requires Wf(s) && s.mutations != []
    ensures Calm(s, SetPhase(ClearQueues(s).(tenantRebinding := true, pendingSwitch := None),
      StoppingTurns(s.activeKey)))
  {
    var s' := SetPhase(ClearQueues(s).(tenantRebinding := true, pendingSwitch := None), StoppingTurns(s.activeKey));
    forall w <- PendingSwitches(s') ensures w in PendingSwitches(s) {
      var i :| 0 <= i < |s'.mutations| && w in SwitchesOf(s'.mutations[i]);
      assert w in SwitchesOf(s.mutations[i]);
    }
  }

  lemma HeadSwitchPending(s: Host, w: Switch)
    requires s.mutations != [] && w in SwitchesOf(s.mutations[0])
    ensures w in PendingSwitches(s)
  {}

  /** A begun mutation's switch was pending already, or its transcript is looked up now. */
  lemma StartHeadCalm(s: Host, uuids: seq<string>)
    requires Wf(s) && s.mutations != [] && s.mutations[0].phase.Waiting?
    ensures Calm(s, StartHead(s, uuids))
  {
    hide Calm, Ordinary, Wf, Focus, PendingSwitches;
    SettleCalm(s);
    match s.mutations[0].request
    case NewSession =>
      var minted := Mint(s, uuids, MINT_ATTEMPTS);
      if minted.Some? { FocusCalm(s, Switch(minted.value, FreshStart)); }
    case ResumeSession(key) =>
      if key in s.pool || key in s.transcripts { FocusCalm(s, Switch(key, LazyResume)); }
      else { FocusCalm(s, Switch(key, FreshStart)); }
    case DeferredSwitch(switch) =>
      HeadSwitchPending(s, switch);
      FocusCalm(s, switch);
    case RebindTenant => RebindStartCalm(s);
    case BindLearning(binding) =>
      PhaseOrdinary(s, AwaitingIdle(binding));
      OrdinaryCalm(s, SetPhase(s, AwaitingIdle(binding)));
  }

  lemma RequestCalm(s: Host)
    requires Wf(s) && s.mutations != [] && s.mutations[0].phase.DrainingPool?
    ensures Calm(s, RequestReplacement(s))
  {
    var s1 := s.(pool := map[]);
    assert PendingSwitches(s1) == PendingSwitches(s);
    assert Calm(s, s1);
    PhaseOrdinary(s1, Replacing(s.mutations[0].phase.home));
    Same(s);
    hide Calm, Ordinary;
    OrdinaryCalm(s, s);
    OrdinaryCalm(s1, SetPhase(s1, Replacing(s.mutations[0].phase.home)));
    CalmTransitive(s, s1, SetPhase(s1, Replacing(s.mutations[0].phase.home)));
  }

  // ---------------------------------------------------------------------------------------
  // Steps that do
  // ---------------------------------------------------------------------------------------

  /** The called turn's agent remembers its own session alone, unless it remembered more before. */
  lemma BeginRunKeeps(s: Host, t: TaskId)
    requires Owned(s) && t < |s.tasks| && s.tasks[t].Validating?
    ensures Wf(BeginRun(s, t))
    ensures ParkedOwn(s) ==> ParkedOwn(BeginRun(s, t))
    ensures Readable(s) ==> Readable(BeginRun(s, t))
    ensures ParkedOwn(s) && Isolated(s) ==> (Isolated(BeginRun(s, t)) <==> !LoadsNothing(s, t))
  {
    hide PendingSwitches, MutationsSerial, DrainsHonest, LaunchesResolve;
    LatchOf(s, t);
    var s' := BeginRun(s, t);
    assert PendingSwitches(s') == PendingSwitches(s) by { BeginRunSwitches(s, t); }
    var id := s.tasks[t].rt;
    assert s'.runtimes[id].agent.history == LoadedHistory(s, s.runtimes[id]) + {s.tasks[t].key};
    assert s'.pool[s.tasks[t].key] == id;
  }

  lemma BeginRunSwitches(s: Host, t: TaskId)
    requires Wf(s) && t < |s.tasks| && s.tasks[t].Validating?
    ensures PendingSwitches(BeginRun(s, t)) == PendingSwitches(s)
  {}

  /** The retargeted runtime starts empty or with its own session's transcript parked. */
  lemma RetargetedKeeps(s: Host, id: RuntimeId, switch: Switch)
    requires Owned(s) && id < |s.runtimes| && Unpooled(s, id)
    ensures var s' := SetRuntime(s, id, Retargeted(s.runtimes[id], switch))
        .(pool := s.pool[switch.target := id], activeKey := switch.target);
      && Wf(s') && KeepsMemory(s, s') && (Readable(s) && SwitchReadable(s, switch) ==> Readable(s'))
  {
    var s' := SetRuntime(s, id, Retargeted(s.runtimes[id], switch))
      .(pool := s.pool[switch.target := id], activeKey := switch.target);
    assert PendingSwitches(s') == PendingSwitches(s);
    hide PendingSwitches, MutationsSerial, DrainsHonest, LaunchesResolve;
    assert s.runtimes[id].turn == None by {
      if s.runtimes[id].turn.Some? { LatchOf(s, s.runtimes[id].turn.value); }
    }
  }

  lemma RenamedKeeps(s: Host, id: RuntimeId, key: Key)
    requires Owned(s) && id < |s.runtimes| && Unpooled(s, id)
    ensures var s' := SetRuntime(s, id,
        s.runtimes[id].(agent := s.runtimes[id].agent.(sessionKey := key), pendingHistoryKey := None));
      && Wf(s') && KeepsMemory(s, s') && (Readable(s) ==> Readable(s'))
  {
    var s' := SetRuntime(s, id, s.runtimes[id].(agent := s.runtimes[id].agent.(sessionKey := key),
      pendingHistoryKey := None));
    assert PendingSwitches(s') == PendingSwitches(s);
  }

  lemma RetargetKeeps(s: Host, id: RuntimeId, switch: Switch, outcome: InstallOutcome)
    requires Owned(s) && s.mutations != [] && id < |s.runtimes| && Unpooled(s, id)
    ensures var s' := Retarget(s, id, switch, outcome);
      && Wf(s') && KeepsMemory(s, s') && (Readable(s) && SwitchReadable(s, switch) ==> Readable(s'))
  {
    hide PoolOwned, TurnsPooled, LatchesOwned, MutationsSerial, DrainsHonest, LaunchesResolve, Wf;
    hide Calm, DeliverExternal, Retargeted, ParkedOwn, Isolated, Readable;
    if outcome == ConfigThrew {
      RenamedKeeps(s, id, switch.target);
      var s1 := SetRuntime(s, id,
        s.runtimes[id].(agent := s.runtimes[id].agent.(sessionKey := switch.target), pendingHistoryKey := None));
      SettleCalm(s1);
      SettleWf(s1);
      CalmKeeps(s1, Settle(s1));
    } else {
      RetargetedKeeps(s, id, switch);
      var s1 := SetRuntime(s, id, Retargeted(s.runtimes[id], switch))
        .(pool := s.pool[switch.target := id], activeKey := switch.target);
      TailCalm(s1, switch.target);
      CalmKeeps(s1, Settle(DeliverExternal(s1, switch.target)));
    }
  }

  lemma SettleWf(s: Host)
    requires Wf(s) && s.mutations != []
    ensures Wf(Settle(s))
  {}

  lemma SpawnKeeps(s: Host, r: Runtime)
    requires Owned(s) && r.turn == None
    ensures var s' := s.(runtimes := s.runtimes + [r]);
      Owned(s') && Unpooled(s', |s.runtimes|) && KeepsMemory(s, s') && (Readable(s) ==> Readable(s'))
  {
    SpawnKeepsOwned(s, r);
    var s' := s.(runtimes := s.runtimes + [r]);
    assert PendingSwitches(s') == PendingSwitches(s);
    hide PendingSwitches, PoolOwned, TurnsPooled, LatchesOwned, MutationsSerial, DrainsHonest, LaunchesResolve;
  }

  /** What the phase of an awaited target says about the switch to come. */
  lemma TargetFacts(s: Host)
    requires Owned(s) && s.mutations != [] && s.mutations[0].phase.AwaitingTarget?
    ensures var p := s.mutations[0].phase;
      && (p.reused.Some? ==> p.reused.value < |s.runtimes| && Unpooled(s, p.reused.value))
      && (Readable(s) ==> SwitchReadable(s, p.switch))
  {
    HeadSwitchPending(s, s.mutations[0].phase.switch);
    hide PendingSwitches;
  }

  lemma InstallKeeps(s: Host, outcome: InstallOutcome)
    requires Owned(s) && s.mutations != [] && s.mutations[0].phase.AwaitingTarget?
    ensures var s' := Install(s, outcome); Wf(s') && KeepsMemory(s, s') && (Readable(s) ==> Readable(s'))
  {
    hide PoolOwned, TurnsPooled, LatchesOwned, MutationsSerial, DrainsHonest, LaunchesResolve, Wf;
    hide Calm, Retarget, ParkedOwn, Isolated, Readable, Settle, Unpooled, SwitchReadable;
    var p := s.mutations[0].phase;
    TargetFacts(s);
    SettleCalm(s);
    SettleWf(s);
    CalmKeeps(s, Settle(s));
    if p.reused.Some? {
      RetargetKeeps(s, p.reused.value, p.switch, outcome);
    } else {
      var s1 := s.(runtimes := s.runtimes + [FreshRuntime(p.switch.target)]);
      SpawnKeeps(s, FreshRuntime(p.switch.target));
      RetargetKeeps(s1, |s.runtimes|, p.switch, outcome);
      assert SwitchReadable(s, p.switch) == SwitchReadable(s1, p.switch) by { ReadableSame(s, s1, p.switch); }
    }
  }

  lemma ReadableSame(s: Host, s': Host, w: Switch)
    requires s'.transcripts == s.transcripts
    ensures SwitchReadable(s, w) == SwitchReadable(s', w)
  {}

  lemma ReplacementSwitches(s: Host, installed: bool)
    requires Wf(s) && s.mutations != [] && s.mutations[0].phase.Replacing?
    ensures PendingSwitches(InstallReplacement(s, installed)) <= PendingSwitches(s)
  {
    SettleOrdinary(s.(tenantRebinding := false));
    assert PendingSwitches(s.(tenantRebinding := false)) == PendingSwitches(s);
    assert PendingSwitches(InstallReplacement(s, installed)) == PendingSwitches(Settle(s.(tenantRebinding := false)));
  }

  /** The replacement parks its own session's transcript, when there is one. */
  lemma ReplacementKeeps(s: Host, installed: bool)
    requires Owned(s) && s.mutations != [] && s.mutations[0].phase.Replacing?
    ensures var s' := InstallReplacement(s, installed); Wf(s') && KeepsMemory(s, s') && (Readable(s) ==> Readable(s'))
  {
    ReplacementSwitches(s, installed);
    assert s.pool == map[] && NoTurnInFlight(s) by { assert PhaseHolds(s, s.mutations[0]); }
    hide PoolOwned, TurnsPooled, LatchesOwned, MutationsSerial, DrainsHonest, LaunchesResolve, PendingSwitches;
  }

  // ---------------------------------------------------------------------------------------
  // Every step
  // ---------------------------------------------------------------------------------------

  /** No transcript is read at this turn start although one is parked, and the memory is not the session's own. */
  ghost predicate LoadsNothing(s: Host, t: TaskId)
    requires Wf(s) && t < |s.tasks| && s.tasks[t].Validating?
  {
    var r := s.runtimes[s.tasks[t].rt];
    r.pendingHistoryKey.Some? && r.pendingHistoryKey.value !in s.transcripts && !(r.agent.history <= {s.tasks[t].key})
  }

  /** The event calls a turn whose parked transcript is gone, on an agent with another session's memory. */
  ghost predicate Leaks(s: Host, e: Event)
    requires Owned(s)
  {
    BeginsTurn(s, e) && LoadsNothing(s, e.task)
  }

  lemma DiskKeeps(s: Host, e: Event)
    requires Owned(s) && TouchesDisk(e)
    ensures Wf(Step(s, e)) && KeepsMemory(s, Step(s, e))
    ensures Readable(s) ==> (Readable(Step(s, e)) <==> !(e.TranscriptLost? && Needed(s, e.key)))
  {
    var s' := Step(s, e);
    assert PendingSwitches(s') == PendingSwitches(s);
    hide PendingSwitches, PoolOwned, TurnsPooled, LatchesOwned, MutationsSerial, DrainsHonest;
    if e.TranscriptLost? && Switch(e.key, LazyResume) in PendingSwitches(s) {
      assert !SwitchReadable(s', Switch(e.key, LazyResume));
    }
  }

  /** The events other than a turn's begin and the disk, in one statement. */
  lemma OtherKeeps(s: Host, e: Event)
    requires Owned(s) && !BeginsTurn(s, e) && !TouchesDisk(e)
    ensures Wf(Step(s, e)) && KeepsMemory(s, Step(s, e)) && (Readable(s) ==> Readable(Step(s, e)))
  {
    hide PoolOwned, TurnsPooled, LatchesOwned, MutationsSerial, DrainsHonest, LaunchesResolve, Wf, Ordinary, Calm;
    hide ParkedOwn, Isolated, Readable, StartHead, Install, RequestReplacement, InstallReplacement;
    StepKeepsOwned(s, e);
    Same(s);
    OrdinaryCalm(s, s);
    CalmKeeps(s, s);
    if MovesSessions(e) {
      match e
      case HeadStarts(uuids) =>
        if s.mutations != [] && s.mutations[0].phase.Waiting? {
          StartHeadCalm(s, uuids);
          CalmKeeps(s, StartHead(s, uuids));
        }
      case TargetDrained(outcome) =>
        if s.mutations != [] && s.mutations[0].phase.AwaitingTarget? { InstallKeeps(s, outcome); }
      case PoolDrained =>
        if s.mutations != [] && s.mutations[0].phase.DrainingPool? {
          RequestCalm(s);
          CalmKeeps(s, RequestReplacement(s));
        }
      case ReplacementReturned(installed) =>
        if s.mutations != [] && s.mutations[0].phase.Replacing? { ReplacementKeeps(s, installed); }
    } else {
      hide Step;
      StepOrdinary(s, e);
      OrdinaryCalm(s, Step(s, e));
      CalmKeeps(s, Step(s, e));
    }
  }

  /** Whatever the event: a parked history stays the runtime's own session. */
  lemma StepKeepsParked(s: Host, e: Event)
    requires Owned(s) && ParkedOwn(s)
    ensures Owned(Step(s, e)) && ParkedOwn(Step(s, e))
  {
    hide PoolOwned, TurnsPooled, LatchesOwned, MutationsSerial, DrainsHonest, LaunchesResolve, Wf, ParkedOwn, Isolated;
    hide Readable;
    StepKeepsOwned(s, e);
    if BeginsTurn(s, e) {
      hide BeginRun;
      BeginRunKeeps(s, e.task);
    } else {
      hide Step;
      if TouchesDisk(e) { DiskKeeps(s, e); } else { OtherKeeps(s, e); }
    }
  }

  /** Memories stay apart over a step exactly when the step does not leak. */
  lemma StepIsolatedExactly(s: Host, e: Event)
    requires Owned(s) && ParkedOwn(s) && Isolated(s)
    ensures Owned(Step(s, e)) && (Isolated(Step(s, e)) <==> !Leaks(s, e))
  {
    hide PoolOwned, TurnsPooled, LatchesOwned, MutationsSerial, DrainsHonest, LaunchesResolve, Wf, ParkedOwn, Isolated;
    hide Readable, LoadsNothing;
    StepKeepsOwned(s, e);
    if BeginsTurn(s, e) {
      hide BeginRun;
      BeginRunKeeps(s, e.task);
    } else {
      hide Step;
      if TouchesDisk(e) { DiskKeeps(s, e); } else { OtherKeeps(s, e); }
    }
  }

  /** Needed transcripts stay readable over a step exactly when the step loses none of them. */
  lemma StepReadableExactly(s: Host, e: Event)
    requires Owned(s) && Readable(s)
    ensures Owned(Step(s, e)) && (Readable(Step(s, e)) <==> !(e.TranscriptLost? && Needed(s, e.key)))
  {
    hide PoolOwned, TurnsPooled, LatchesOwned, MutationsSerial, DrainsHonest, LaunchesResolve, Wf, ParkedOwn, Isolated;
    hide Readable, Needed;
    StepKeepsOwned(s, e);
    if BeginsTurn(s, e) {
      hide BeginRun;
      BeginRunKeeps(s, e.task);
    } else {
      hide Step;
      if TouchesDisk(e) { DiskKeeps(s, e); } else { OtherKeeps(s, e); }
    }
  }

  /** A readable state has nothing to leak. */
  lemma ReadableNeverLeaks(s: Host, e: Event)
    requires Owned(s) && ParkedOwn(s) && Readable(s)
    ensures !Leaks(s, e)
  {
    if BeginsTurn(s, e) { LatchOf(s, e.task); }
    hide PendingSwitches, MutationsSerial, DrainsHonest, LaunchesResolve;
  }

  /** The three clauses survive a step exactly when it loses no needed transcript. */
  lemma StepConversationsExactly(s: Host, e: Event)
    requires Owned(s) && Conversations(s)
    ensures Conversations(Step(s, e)) <==> !(e.TranscriptLost? && Needed(s, e.key))
  {
    hide PoolOwned, TurnsPooled, LatchesOwned, MutationsSerial, DrainsHonest, LaunchesResolve, Wf, ParkedOwn, Isolated;
    hide Readable, Needed, Leaks, Step;
    StepKeepsParked(s, e);
    StepIsolatedExactly(s, e);
    StepReadableExactly(s, e);
    ReadableNeverLeaks(s, e);
  }

  // ---------------------------------------------------------------------------------------
  // What the turn sees
  // ---------------------------------------------------------------------------------------

  /**
   * The history `runTurn` starts from is the session's own exactly when a parked transcript can be
   * read at that moment, or the agent remembered nothing foreign to begin with.
   */
  lemma OwnHistoryExactly(s: Host, t: TaskId)
    requires Owned(s) && ParkedOwn(s) && t < |s.tasks| && s.tasks[t].Validating?
    ensures var k, r := s.tasks[t].key, s.runtimes[s.tasks[t].rt];
      LoadedHistory(s, r) <= {k}
      <==> (r.pendingHistoryKey.Some? && k in s.transcripts) || r.agent.history <= {k}
    ensures var k := s.tasks[t].key;
      BeginRun(s, t).runtimes[s.tasks[t].rt].agent.history == LoadedHistory(s, s.runtimes[s.tasks[t].rt]) + {k}
  {
    LatchOf(s, t);
  }

  /** While memories are apart, a running turn's agent remembers its own session only. */
  lemma RunningTurnIsIsolated(s: Host, t: TaskId)
    requires Owned(s) && ParkedOwn(s) && Isolated(s) && t < |s.tasks| && s.tasks[t].Running?
    ensures s.runtimes[s.tasks[t].rt].agent.history <= {s.tasks[t].sk}
    ensures s.runtimes[s.tasks[t].rt].agent.sessionKey == s.tasks[t].sk == s.tasks[t].key
  {
    LatchOf(s, t);
  }
}
