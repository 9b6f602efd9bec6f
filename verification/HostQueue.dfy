/**
 * The serialized mutation queue: what a step may do to it, that mutations run one at a time in
 * submission order whatever becomes of them, and when the viewed session is pooled.
 */
module HostQueue {
  import opened Common
  import opened HostModel
  import opened HostInvariants
  import opened HostSteps

  /** The queue, the submissions and the settled count are as before, or one mutation joined the end. */
  ghost predicate JoinsOnly(s: Host, s': Host) {
    && s'.settled == s.settled
    && (|| (s'.mutations == s.mutations && s'.submitted == s.submitted)
        || (exists r :: s'.mutations == s.mutations + [Mutation(r, Waiting)] && s'.submitted == s.submitted + [r]))
  }

  /** The oldest mutation moved to another phase, or returned. */
  ghost predicate HeadMoves(s: Host, s': Host) {
    && s'.submitted == s.submitted
    && s.mutations != []
    && (|| (s'.settled == s.settled + 1 && s'.mutations == s.mutations[1..])
        || (exists p :: s'.settled == s.settled && s'.mutations == s.mutations[0 := s.mutations[0].(phase := p)]))
  }

  predicate HeadEvent(e: Event) {
    e.HeadStarts? || e.CurrentDrained? || e.TargetDrained? || e.RebindPoll? || e.PoolDrained? || e.ReplacementReturned?
      || e.LearningPoll?
  }

  predicate SameQueue(s: Host, s': Host) {
    s'.mutations == s.mutations && s'.submitted == s.submitted && s'.settled == s.settled
  }

  lemma StartSame(s: Host, key: Key, text: Text, launch: Option<Launch>)
    requires Wf(s) && (launch.Some? ==> launch.value.rt < |s.runtimes|)
    ensures SameQueue(s, StartTurn(s, key, text, launch))
    ensures SameQueue(s, Reserve(s, key, text, launch))
  {
    hide Wf;
  }

  lemma ExternalSame(s: Host, key: Key)
    requires Wf(s)
    ensures SameQueue(s, DeliverExternal(s, key))
  {
    hide Wf, Fitting;
  }

  lemma PublishSame(s: Host, key: Key, body: string)
    requires Wf(s)
    ensures SameQueue(s, PublishExternal(s, key, body))
  {
    var pending := if key in s.inbox then s.inbox[key] else [];
    var s1 := s.(inbox := s.inbox[key := pending + [Text(Extension, key, body)]]);
    assert Wf(s1);
    hide Wf, DeliverExternal;
    ExternalSame(s1, key);
  }

  lemma DeliverSame(s: Host, mode: DeliveryMode, body: string)
    requires Wf(s)
    ensures SameQueue(s, DeliverInput(s, mode, body))
  {
    hide Wf, StartTurn;
    StartSame(s, s.activeKey, Text(User, s.activeKey, body), None);
  }

  lemma HostPromptSame(s: Host, key: Key, body: string)
    requires Wf(s)
    ensures key in s.peerWakes ==> SameQueue(s, WakePeer(s, key))
    ensures SameQueue(s, AutoResume(s, body))
  {
    var s1 := s.(peerWakes := s.peerWakes - {key});
    assert Wf(s1);
    StartSame(s1, key, Text(HostPrompt, key, WAKE_PROMPT), None);
    StartSame(s, s.activeKey, Text(HostPrompt, s.activeKey, body), None);
    hide Wf, StartTurn;
  }

  /** At most the deferred switch joins the queue when a turn ends. */
  /** The deferred switch is all that joins at the end of a turn. */
  lemma SwitchJoins(s: Host, s4: Host, key: Key, next: Option<Queued>)
    requires s4.mutations == s.mutations && s4.submitted == s.submitted && s4.settled == s.settled
    ensures JoinsOnly(s, ScheduleNext(RunPendingSwitch(s4), key, next))
  {}

  lemma FinishTurnJoins(s: Host, t: TaskId)
    requires Wf(s) && t < |s.tasks| && s.tasks[t].Running?
    ensures JoinsOnly(s, FinishTurn(s, t))
  {
    var task := s.tasks[t];
    var r := s.runtimes[task.rt];
    hide Wf, Route, RunPendingSwitch, ScheduleNext;
    var routed := Route(r.agent.steering, Routing(r.queue, [], []), Closing(s));
    var s1 := Finish(SetRuntime(s, task.rt,
      r.(turn := None, queue := routed.queue, agent := r.agent.(steering := routed.steering))), t);
    var s2 := s1.(peerWakes := if Resteered in routed.fates then s1.peerWakes + {task.sk} else s1.peerWakes);
    var (s3, next) := TakeNext(s2, task.rt);
    var s4 := if task.sk != s3.activeKey && s3.spawns && next.None? then Evict(s3, task.sk, task.rt) else s3;
    SwitchJoins(s, s4, task.sk, next);
  }

  lemma AbandonJoins(s: Host, t: TaskId)
    requires Wf(s) && t < |s.tasks| && s.tasks[t].Validating?
    ensures JoinsOnly(s, Abandon(s, t))
  {
    hide Wf;
  }

  lemma FinishWf(s: Host, t: TaskId)
    requires Wf(s) && t < |s.tasks|
    ensures Wf(Finish(s, t))
  {}

  lemma TurnEventJoins(s: Host, e: Event)
    requires Owned(s)
    requires e.TailSettled? || e.PolicyReturned? || e.TurnReturned? || e.ScheduledStart? || e.IntentIssued?
    ensures JoinsOnly(s, Step(s, e))
  {
    hide Wf, LaunchesResolve, PoolOwned, TurnsPooled, LatchesOwned, MutationsSerial, DrainsHonest;
    hide StartTurn, Reserve, FinishTurn, Abandon;
    if e.task < |s.tasks| {
      var s1 := Finish(s, e.task);
      FinishWf(s, e.task);
      if !InFlight(s.tasks[e.task]) { ResumeKeepsOwned(s, e.task); }
      match s.tasks[e.task]
      case Running(_, _, _, _, _, _, _) => FinishTurnJoins(s, e.task);
      case Validating(_, _, _, _, _) => AbandonJoins(s, e.task);
      case WaitingStart(key, text, launch, _) => StartSame(s1, key, text, launch);
      case Issuing(key, rt, text, at) => StartSame(s1, key, text, Some(Launch(rt, at, e.task)));
      case Scheduled(key, text) => StartSame(s1, key, text, None);
      case Done =>
    }
  }

  lemma InputEventJoins(s: Host, e: Event)
    requires Wf(s) && LaunchesResolve(s)
    requires e.Deliver? || e.PeerMessage? || e.PeerWake? || e.Publish? || e.ResumeTimer?
    ensures JoinsOnly(s, Step(s, e))
  {
    hide Wf, LaunchesResolve, DeliverInput, WakePeer, PublishExternal, AutoResume;
    match e
    case Deliver(mode, body) => DeliverSame(s, mode, body);
    case PeerMessage(target, body, deviceKnown, accepted) =>
    case PeerWake(key) => HostPromptSame(s, key, "");
    case Publish(key, body) => PublishSame(s, key, body);
    case ResumeTimer(body) => HostPromptSame(s, s.activeKey, body);
  }

  lemma FocusMoves(s: Host, switch: Switch)
    requires Wf(s) && s.mutations != []
    ensures HeadMoves(s, Focus(s, switch))
  {
    var s1 := s.(activeKey := switch.target);
    assert Wf(s1);
    ExternalSame(s1, switch.target);
    hide Wf, DeliverExternal;
  }

  lemma InstallMoves(s: Host, outcome: InstallOutcome)
    requires Wf(s) && s.mutations != [] && s.mutations[0].phase.AwaitingTarget?
    ensures Install(s, outcome) == s || HeadMoves(s, Install(s, outcome))
  {
    var p := s.mutations[0].phase;
    var s1 := s.(runtimes := s.runtimes + [FreshRuntime(p.switch.target)]);
    assert Wf(s1);
    if p.reused.Some? {
      RetargetMoves(s, p.reused.value, p.switch, outcome);
    } else {
      RetargetMoves(s1, |s.runtimes|, p.switch, outcome);
    }
    hide Wf, Retarget;
  }

  lemma RetargetMoves(s: Host, id: RuntimeId, switch: Switch, outcome: InstallOutcome)
    requires Wf(s) && s.mutations != [] && id < |s.runtimes|
    ensures SameQueue(Settle(s), Retarget(s, id, switch, outcome))
  {
    var s1 := SetRuntime(s, id, Retargeted(s.runtimes[id], switch))
      .(pool := s.pool[switch.target := id], activeKey := switch.target);
    assert Wf(s1);
    ExternalSame(s1, switch.target);
    hide Wf, DeliverExternal;
  }

  lemma StartHeadMoves(s: Host, uuids: seq<string>)
    requires Wf(s) && s.mutations != [] && s.mutations[0].phase.Waiting?
    ensures HeadMoves(s, StartHead(s, uuids))
  {
    hide Wf, Focus;
    var minted := Mint(s, uuids, MINT_ATTEMPTS);
    match s.mutations[0].request {
      case NewSession => if minted.Some? { FocusMoves(s, Switch(minted.value, FreshStart)); }
      case ResumeSession(key) => FocusMoves(s, Switch(key, LazyResume)); FocusMoves(s, Switch(key, FreshStart));
      case DeferredSwitch(switch) => FocusMoves(s, switch);
      case _ =>
    }
  }

  lemma HeadEventMoves(s: Host, e: Event)
    requires Owned(s) && HeadEvent(e)
    ensures Step(s, e) == s || HeadMoves(s, Step(s, e))
  {
    hide PoolOwned, TurnsPooled, LatchesOwned, DrainsHonest, LaunchesResolve, StartHead, Install, Wf, MutationsSerial;
    hide DeliverInput, DeliverPeer, WakePeer, AutoResume, PublishExternal, BeginReviewed, Reserve, StartTurn;
    hide PolicyReturn, FinishTurn, IntentReturn;
    if s.mutations != [] {
      match e
      case HeadStarts(uuids) => if s.mutations[0].phase.Waiting? { StartHeadMoves(s, uuids); }
      case TargetDrained(outcome) => if s.mutations[0].phase.AwaitingTarget? { InstallMoves(s, outcome); }
      case _ =>
    }
  }

  /** What any step does to the queue. */
  lemma StepQueue(s: Host, e: Event)
    requires Owned(s)
    ensures if HeadEvent(e) then Step(s, e) == s || HeadMoves(s, Step(s, e)) else JoinsOnly(s, Step(s, e))
  {
    hide Wf, PoolOwned, TurnsPooled, LatchesOwned, MutationsSerial, DrainsHonest, LaunchesResolve;
    if HeadEvent(e) {
      HeadEventMoves(s, e);
    } else if e.TailSettled? || e.PolicyReturned? || e.TurnReturned? || e.ScheduledStart? || e.IntentIssued? {
      TurnEventJoins(s, e);
    } else if e.Deliver? || e.PeerMessage? || e.PeerWake? || e.Publish? || e.ResumeTimer? {
      InputEventJoins(s, e);
    }
  }

  // ---------------------------------------------------------------------------------------
  // Order
  // ---------------------------------------------------------------------------------------

  /**
   * The unsettled mutations are exactly the submissions after the settled ones, in submission
   * order; so the length of the queue, which is `queuedSessionMutations`, counts the unfinished.
   */
  ghost predicate Fifo(s: Host) {
    && s.settled <= |s.submitted|
    && |s.mutations| == |s.submitted| - s.settled
    && (forall i :: 0 <= i < |s.mutations| ==> s.mutations[i].request == s.submitted[s.settled + i])
  }

  lemma QueueKeepsFifo(s: Host, s': Host)
    requires Fifo(s) && (s' == s || HeadMoves(s, s') || JoinsOnly(s, s'))
    ensures Fifo(s') && s.submitted <= s'.submitted && s.settled <= s'.settled <= s.settled + 1
  {}

  lemma StepKeepsFifo(s: Host, e: Event)
    requires Owned(s) && Fifo(s)
    ensures Fifo(Step(s, e))
    ensures s.submitted <= Step(s, e).submitted
    ensures s.settled <= Step(s, e).settled <= s.settled + 1
  {
    hide Wf, PoolOwned, TurnsPooled, LatchesOwned, MutationsSerial, DrainsHonest, LaunchesResolve, Step, Fifo;
    hide HeadMoves, JoinsOnly;
    StepQueue(s, e);
    QueueKeepsFifo(s, Step(s, e));
  }

  // ---------------------------------------------------------------------------------------
  // The viewed session
  // ---------------------------------------------------------------------------------------

  /** A switch or a tenant replacement has taken the viewed runtime out of the pool and not returned yet. */
  predicate Detached(s: Host) {
    && s.mutations != []
    && var p := s.mutations[0].phase;
       p.ParkingCurrent? || (p.AwaitingTarget? && p.reused.Some?) || p.Replacing?
  }

  /** The viewed session is pooled whenever no mutation has detached it. */
  predicate ViewedPooled(s: Host) {
    s.activeKey in s.pool <==> !Detached(s)
  }

  /**
   * The two failures that leave the viewed session without a runtime: restoring the target's
   * model throws after the current runtime left the pool, or no replacement agent can be built.
   */
  predicate Strands(s: Host, e: Event) {
    && s.mutations != []
    && var p := s.mutations[0].phase;
       || (e == TargetDrained(ConfigThrew) && p.AwaitingTarget? && p.reused.Some? && p.snapshot !! s.drains)
       || (e == ReplacementReturned(false) && p.Replacing?)
  }

  lemma OrdinaryViewed(s: Host, e: Event)
    requires Owned(s) && ViewedPooled(s)
    requires Ordinary(s, Step(s, e)) || (Step(s, e).pool == s.pool && Step(s, e).activeKey == s.activeKey)
    requires !MovesSessions(e) && !HeadEvent(e)
    ensures ViewedPooled(Step(s, e))
  {
    StepQueue(s, e);
    hide Owned, Step;
  }

  /** The phases after the head leave only waiting mutations, and a replacement runs on an empty pool. */
  lemma HeadFacts(s: Host)
    requires Owned(s) && s.mutations != []
    ensures s.mutations[1..] == [] || s.mutations[1].phase.Waiting?
    ensures s.mutations[0].phase.Replacing? ==> s.pool == map[]
  {}

  lemma FocusViewed(s: Host, switch: Switch)
    requires Owned(s) && ViewedPooled(s) && s.mutations != [] && s.mutations[0].phase.Waiting?
    ensures ViewedPooled(Focus(s, switch))
  {
    HeadFacts(s);
    PassiveExternal(s.(activeKey := switch.target), switch.target);
    hide Wf, PoolOwned, TurnsPooled, LatchesOwned, MutationsSerial, DrainsHonest, LaunchesResolve, DeliverExternal;
  }

  lemma StartHeadViewed(s: Host, uuids: seq<string>)
    requires Owned(s) && ViewedPooled(s) && s.mutations != [] && s.mutations[0].phase.Waiting?
    ensures ViewedPooled(StartHead(s, uuids))
  {
    HeadFacts(s);
    hide Wf, PoolOwned, TurnsPooled, LatchesOwned, MutationsSerial, DrainsHonest, LaunchesResolve, Focus;
    var minted := Mint(s, uuids, MINT_ATTEMPTS);
    match s.mutations[0].request {
      case NewSession => if minted.Some? { FocusViewed(s, Switch(minted.value, FreshStart)); }
      case ResumeSession(key) => FocusViewed(s, Switch(key, LazyResume)); FocusViewed(s, Switch(key, FreshStart));
      case DeferredSwitch(switch) => FocusViewed(s, switch);
      case _ =>
    }
  }

  lemma RetargetViewed(s: Host, id: RuntimeId, switch: Switch, outcome: InstallOutcome)
    requires Wf(s) && s.mutations != [] && id < |s.runtimes|
    requires s.mutations[1..] == [] || s.mutations[1].phase.Waiting?
    ensures outcome != ConfigThrew ==> ViewedPooled(Retarget(s, id, switch, outcome))
    ensures outcome == ConfigThrew ==>
      var s' := Retarget(s, id, switch, outcome); s'.activeKey == s.activeKey && s'.pool == s.pool && !Detached(s')
  {
    var s1 := SetRuntime(s, id, Retargeted(s.runtimes[id], switch))
      .(pool := s.pool[switch.target := id], activeKey := switch.target);
    PassiveExternal(s1, switch.target);
    hide Wf, DeliverExternal;
  }

  lemma InstallViewed(s: Host, outcome: InstallOutcome)
    requires Owned(s) && ViewedPooled(s) && s.mutations != [] && s.mutations[0].phase.AwaitingTarget?
    ensures ViewedPooled(Install(s, outcome)) <==> !Strands(s, TargetDrained(outcome))
  {
    hide PoolOwned, TurnsPooled, LatchesOwned, MutationsSerial, DrainsHonest, LaunchesResolve, Retarget;
    var p := s.mutations[0].phase;
    HeadFacts(s);
    if p.reused.Some? {
      RetargetViewed(s, p.reused.value, p.switch, outcome);
    } else {
      SpawnKeepsOwned(s, FreshRuntime(p.switch.target));
      RetargetViewed(s.(runtimes := s.runtimes + [FreshRuntime(p.switch.target)]), |s.runtimes|, p.switch, outcome);
    }
  }

  lemma PollsKeepViewed(s: Host, deadline: bool)
    requires Wf(s) && s.mutations != [] && ViewedPooled(s) && (s.mutations[1..] == [] || s.mutations[1].phase.Waiting?)
    ensures s.mutations[0].phase.StoppingTurns? ==> ViewedPooled(PollTurns(s, deadline))
    ensures s.mutations[0].phase.AwaitingIdle? ==> ViewedPooled(PollLearning(s))
    ensures s.mutations[0].phase.ParkingCurrent? ==> ViewedPooled(ParkedCurrent(s))
  {
    hide Wf, PoolRunning, DrainsFor;
    assert Settle(s).mutations == [] || Settle(s).mutations[0].phase.Waiting?;
  }

  lemma WaitingHeadViewed(s: Host, e: Event)
    requires Owned(s) && ViewedPooled(s) && s.mutations != []
    requires e.CurrentDrained? || e.RebindPoll? || e.LearningPoll?
    ensures ViewedPooled(Step(s, e))
  {
    HeadFacts(s);
    hide PoolOwned, TurnsPooled, LatchesOwned, MutationsSerial, DrainsHonest, LaunchesResolve, ViewedPooled, PollTurns;
    hide PollLearning, ParkedCurrent;
    PollsKeepViewed(s, e.RebindPoll? && e.deadline);
  }

  lemma OtherHeadViewed(s: Host, e: Event)
    requires Owned(s) && ViewedPooled(s)
    requires e.CurrentDrained? || e.RebindPoll? || e.PoolDrained? || e.ReplacementReturned? || e.LearningPoll?
    ensures ViewedPooled(Step(s, e)) <==> !Strands(s, e)
  {
    hide Wf, PoolOwned, TurnsPooled, LatchesOwned, MutationsSerial, DrainsHonest, LaunchesResolve;
    if s.mutations != [] {
      if e.PoolDrained? || e.ReplacementReturned? {
        HeadFacts(s);
        assert Settle(s).mutations == [] || Settle(s).mutations[0].phase.Waiting?;
      } else {
        WaitingHeadViewed(s, e);
        hide Step, ViewedPooled;
      }
    }
  }

  lemma BeginViews(s: Host, e: Event)
    requires Owned(s) && (BeginsTurn(s, e) || TouchesDisk(e))
    ensures Step(s, e).pool == s.pool && Step(s, e).activeKey == s.activeKey
  {
    hide Wf, PoolOwned, TurnsPooled, LatchesOwned, MutationsSerial, DrainsHonest, LaunchesResolve;
    hide DeliverInput, DeliverPeer, WakePeer, AutoResume, PublishExternal, BeginReviewed, Reserve, StartTurn, Abandon;
    hide FinishTurn, IntentReturn, StartHead, Install, ParkedCurrent, PollTurns, PollLearning, RequestReplacement;
    hide InstallReplacement, LoadedHistory;
  }

  /** The viewed session stays pooled through every step except exactly the two stranding failures. */
  lemma StepViewed(s: Host, e: Event)
    requires Owned(s) && ViewedPooled(s)
    ensures ViewedPooled(Step(s, e)) <==> !Strands(s, e)
  {
    hide Wf, PoolOwned, TurnsPooled, LatchesOwned, MutationsSerial, DrainsHonest, LaunchesResolve, Ordinary;
    hide StartHead, Install, ViewedPooled, ParkedCurrent, PollTurns, PollLearning, RequestReplacement;
    hide InstallReplacement;
    hide DeliverInput, DeliverPeer, WakePeer, AutoResume, PublishExternal, BeginReviewed, Reserve, StartTurn;
    hide FinishTurn, IntentReturn;
    hide PolicyReturn;
    if e.HeadStarts? {
      if s.mutations != [] && s.mutations[0].phase.Waiting? { StartHeadViewed(s, e.uuids); }
    } else if e.TargetDrained? {
      if s.mutations != [] && s.mutations[0].phase.AwaitingTarget? { InstallViewed(s, e.install); }
    } else if HeadEvent(e) {
      hide Step;
      OtherHeadViewed(s, e);
    } else {
      if BeginsTurn(s, e) || TouchesDisk(e) {
        BeginViews(s, e);
      } else {
        hide Step;
        StepOrdinary(s, e);
      }
      hide Step;
      OrdinaryViewed(s, e);
    }
  }

  // ---------------------------------------------------------------------------------------
  // New session keys
  // ---------------------------------------------------------------------------------------

  /** A minted key is the first unused candidate; minting fails exactly when all the attempts are used keys. */
  lemma {:induction false} MintsFirstUnused(s: Host, uuids: seq<string>, attempts: nat)
    ensures var n := if attempts < |uuids| then attempts else |uuids|;
      match Mint(s, uuids, attempts)
      case Some(key) =>
        && key !in s.pool && key !in s.transcripts
        && exists i :: 0 <= i < n && key == NewKey(s, uuids[i])
             && forall j :: 0 <= j < i ==> NewKey(s, uuids[j]) in s.pool || NewKey(s, uuids[j]) in s.transcripts
      case None => forall j :: 0 <= j < n ==> NewKey(s, uuids[j]) in s.pool || NewKey(s, uuids[j]) in s.transcripts
    decreases attempts
  {
    if attempts > 0 && uuids != [] {
      MintsFirstUnused(s, uuids[1..], attempts - 1);
      var minted := Mint(s, uuids[1..], attempts - 1);
      var used := NewKey(s, uuids[0]) in s.pool || NewKey(s, uuids[0]) in s.transcripts;
      assert forall j :: 0 < j < |uuids| ==> uuids[j] == uuids[1..][j - 1];
      if used && minted.Some? {
        var n := if attempts - 1 < |uuids[1..]| then attempts - 1 else |uuids[1..]|;
        var i :| 0 <= i < n && minted.value == NewKey(s, uuids[1..][i])
          && forall j :: 0 <= j < i ==> NewKey(s, uuids[1..][j]) in s.pool || NewKey(s, uuids[1..][j]) in s.transcripts;
        assert minted.value == NewKey(s, uuids[i + 1]);
        forall j | 0 <= j < i + 1 ensures NewKey(s, uuids[j]) in s.pool || NewKey(s, uuids[j]) in s.transcripts {
          if j > 0 { assert uuids[j] == uuids[1..][j - 1]; }
        }
      }
    }
  }

  /** A resume recognises every minted key as a new session that has no transcript yet. */
  lemma MintedKeyIsUnsavedNew(s: Host, uuid: string)
    ensures IsUnsavedNew(NewKey(s, uuid)) && Prefix(NewKey(s, uuid)) == Prefix(s.activeKey)
  {
    var prefix, rest := Prefix(s.activeKey), ":new-" + uuid;
    IndexOfAt(prefix, rest, ':');
    assert NewKey(s, uuid) == prefix + rest;
    assert (prefix + rest)[|prefix| + 1..] == "new-" + uuid;
    assert (prefix + rest)[..|prefix|] == prefix;
  }
}
