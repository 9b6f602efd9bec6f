/**
 * What becomes of inputs: every text was given by an event, each event puts it where the code says,
 * and afterwards it leaves a queue only from the front, as the next prompt.
 */
module HostDelivery {
  import opened Common
  import opened HostModel
  import opened HostInvariants
  import opened HostSteps
  import opened HostQueue
  import opened HostInputs
  import opened HostRuns
  import opened HostTasks

  // ---------------------------------------------------------------------------------------
  // Where texts come from
  // ---------------------------------------------------------------------------------------

  /** Some event of the run gave the text to the host. */
  ghost predicate WasGiven(key: Key, spawns: bool, transcripts: set<Key>, es: seq<Event>, x: Text) {
    exists n :: 0 <= n < |es| && x in EventTexts(FromStart(key, spawns, transcripts, es[..n]), es[n])
  }

  ghost function Given(key: Key, spawns: bool, transcripts: set<Key>, es: seq<Event>): iset<Text> {
    iset x: Text | WasGiven(key, spawns, transcripts, es, x)
  }

  lemma GivenGrows(key: Key, spawns: bool, transcripts: set<Key>, es: seq<Event>, e: Event)
    ensures Given(key, spawns, transcripts, es) <= Given(key, spawns, transcripts, es + [e])
    ensures forall x <- EventTexts(FromStart(key, spawns, transcripts, es), e) ::
      x in Given(key, spawns, transcripts, es + [e])
  {
    hide EventTexts, FromStart;
    var all := es + [e];
    assert all[..|es|] == es && all[|es|] == e;
    forall x | x in Given(key, spawns, transcripts, es) ensures x in Given(key, spawns, transcripts, all) {
      var n :| 0 <= n < |es| && x in EventTexts(FromStart(key, spawns, transcripts, es[..n]), es[n]);
      assert all[..n] == es[..n] && all[n] == es[n];
    }
  }

  lemma CleanWidens(s: Host, rule: Rule, wider: Rule)
    requires Clean(s, rule) && wider.home == rule.home && rule.given <= wider.given
    ensures Clean(s, wider)
  {
    forall id | 0 <= id < |s.runtimes| ensures CleanRuntime(s.runtimes[id], wider) {
      CleanAt(s, id, rule);
    }
    forall t | 0 <= t < |s.tasks| ensures CleanTask(s.tasks[t], wider) {
      assert CleanTask(s.tasks[t], rule);
    }
  }

  lemma {:induction false} RunHoldsGiven(key: Key, spawns: bool, transcripts: set<Key>, es: seq<Event>)
    ensures Clean(FromStart(key, spawns, transcripts, es), Rule(false, Given(key, spawns, transcripts, es)))
    decreases |es|
  {
    hide PoolOwned, TurnsPooled, LatchesOwned, MutationsSerial, DrainsHonest, LaunchesResolve, Wf, Step, Clean, Given;
    hide EventTexts;
    if es == [] {
      NewHostHoldsNoText(key, spawns, transcripts, Given(key, spawns, transcripts, es));
    } else {
      var init, e := es[..|es| - 1], es[|es| - 1];
      assert es == init + [e];
      RunLast(key, spawns, transcripts, init, e);
      RunHoldsGiven(key, spawns, transcripts, init);
      GivenGrows(key, spawns, transcripts, init, e);
      var s := FromStart(key, spawns, transcripts, init);
      var rule := Rule(false, Given(key, spawns, transcripts, es));
      CleanWidens(s, Rule(false, Given(key, spawns, transcripts, init)), rule);
      StepKeepsClean(s, e, rule);
    }
  }

  lemma NewHostHoldsNoText(key: Key, spawns: bool, transcripts: set<Key>, given: iset<Text>)
    ensures Clean(FromStart(key, spawns, transcripts, []), Rule(false, given))
  {
    NewHostOwned(key, spawns, transcripts);
  }

  /**
   * Over every run each text in a queue, a steering queue or the inbox, and each prompt scheduled,
   * waiting, reserved or running, was given by an event of the run: in its own words, with its origin,
   * and addressed to the session that event was for.
   */
  lemma EveryTextWasGiven(key: Key, spawns: bool, transcripts: set<Key>, es: seq<Event>)
    ensures var r, given := FromStart(key, spawns, transcripts, es), Given(key, spawns, transcripts, es);
      && (forall id, i :: 0 <= id < |r.runtimes| && 0 <= i < |r.runtimes[id].queue| ==>
            r.runtimes[id].queue[i].text in given)
      && (forall id, i :: 0 <= id < |r.runtimes| && 0 <= i < |r.runtimes[id].agent.steering| ==>
            r.runtimes[id].agent.steering[i].text in given)
      && (forall t :: 0 <= t < |r.tasks| && !r.tasks[t].Done? ==> r.tasks[t].text in given)
      && (forall k, i :: k in r.inbox && 0 <= i < |r.inbox[k]| ==> r.inbox[k][i] in given)
  {
    hide FromStart, Given;
    RunHoldsGiven(key, spawns, transcripts, es);
    var r, rule := FromStart(key, spawns, transcripts, es), Rule(false, Given(key, spawns, transcripts, es));
    forall id, i | 0 <= id < |r.runtimes| && 0 <= i < |r.runtimes[id].queue|
      ensures r.runtimes[id].queue[i].text in rule.given
    {
      CleanAt(r, id, rule);
      assert CleanText(r.runtimes[id].queue[i].text, r.runtimes[id].agent.sessionKey, rule);
    }
    forall id, i | 0 <= id < |r.runtimes| && 0 <= i < |r.runtimes[id].agent.steering|
      ensures r.runtimes[id].agent.steering[i].text in rule.given
    {
      CleanAt(r, id, rule);
      assert CleanSteer(r.runtimes[id].agent.steering[i], r.runtimes[id].agent.sessionKey, rule);
    }
    forall t | 0 <= t < |r.tasks| && !r.tasks[t].Done? ensures r.tasks[t].text in rule.given {
      assert CleanTask(r.tasks[t], rule);
    }
  }

  // ---------------------------------------------------------------------------------------
  // Where an event puts its text
  // ---------------------------------------------------------------------------------------

  /** A user's input for a busy viewed session joins the end of the queue it was sent to, or changes nothing. */
  lemma DeliveredToBusy(s: Host, mode: DeliveryMode, body: string)
    requires Owned(s) && s.activeKey in s.pool && s.runtimes[s.pool[s.activeKey]].Running()
    ensures var s', id := Step(s, Deliver(mode, body)), s.pool[s.activeKey];
      var r, text := s.runtimes[id], Text(User, s.activeKey, body);
      && |s'.runtimes| == |s.runtimes| && s' == s.(runtimes := s'.runtimes)
      && (forall i :: 0 <= i < |s.runtimes| && i != id ==> s'.runtimes[i] == s.runtimes[i])
      && s'.runtimes[id] ==
           r.(queue := s'.runtimes[id].queue, agent := r.agent.(steering := s'.runtimes[id].agent.steering))
      && s'.runtimes[id].queue ==
           r.queue + (if mode == QueueMode && |r.queue| < MAX_PENDING_SESSION_INPUTS then [Queued(text, User)] else [])
      && s'.runtimes[id].agent.steering ==
           r.agent.steering + (if mode == SteerMode && |r.agent.steering| < MAX_PENDING_SESSION_INPUTS
             then [Steer(text, User, false)] else [])
  {
    hide StartTurn, PoolOwned, TurnsPooled, LatchesOwned, MutationsSerial, DrainsHonest;
    var r := s.runtimes[s.pool[s.activeKey]];
    assert r.queue + [] == r.queue && r.agent.steering + [] == r.agent.steering;
  }

  /** For an idle viewed session it starts a turn at once, or once the outstanding mutations have settled. */
  lemma DeliveredToIdle(s: Host, mode: DeliveryMode, body: string)
    requires Owned(s) && s.activeKey in s.pool && !s.runtimes[s.pool[s.activeKey]].Running()
    ensures var s', id, text := Step(s, Deliver(mode, body)), s.pool[s.activeKey], Text(User, s.activeKey, body);
      if s.mutations != [] then
        s' == s.(tasks := s.tasks + [WaitingStart(s.activeKey, text, None, s.settled + |s.mutations|)])
      else if Closing(s) then s' == s
      else
        && s'.tasks == s.tasks + [Validating(s.activeKey, id, text, None, |s.authority| + 1)]
        && s'.authority == s.authority + [TurnReserved(s.activeKey, |s.tasks|)]
        && s'.runtimes == s.runtimes[id := s.runtimes[id].(turn := Some(|s.tasks|))]
        && s'.pool == s.pool && s'.mutations == s.mutations
  {
    hide PoolOwned, TurnsPooled, LatchesOwned, MutationsSerial, DrainsHonest;
  }

  /**
   * An accepted peer message joins the end of the target's steering queue, and schedules a wake exactly
   * if the target is idle; a closing host, an unloaded target and a full queue take none.
   */
  lemma PeerDelivered(s: Host, target: Key, body: string, deviceKnown: bool, accepted: bool)
    requires Owned(s)
    ensures var s' := Step(s, PeerMessage(target, body, deviceKnown, accepted));
      if accepted && !Closing(s) && target in s.pool
        && |s.runtimes[s.pool[target]].agent.steering| < MAX_PENDING_SESSION_INPUTS
      then
        var id := s.pool[target]; var r := s.runtimes[id];
        var steer := Steer(Text(Peer, target, body), Peer, deviceKnown);
        && s'.runtimes == s.runtimes[id := r.(agent := r.agent.(steering := r.agent.steering + [steer]))]
        && s'.peerWakes == (if r.Running() then s.peerWakes else s.peerWakes + {target})
        && s' == s.(runtimes := s'.runtimes, peerWakes := s'.peerWakes)
      else s' == s
  {
    hide PoolOwned, TurnsPooled, LatchesOwned, MutationsSerial, DrainsHonest;
  }

  /** As many of the elements as a queue of this length can still take, in order. */
  ghost predicate TakesFitting<T>(before: seq<T>, more: seq<T>, after: seq<T>) {
    && before <= after && after <= before + more
    && (|after| == |before| + |more| || |after| >= MAX_PENDING_SESSION_INPUTS)
    && (|after| > |before| ==> |after| <= MAX_PENDING_SESSION_INPUTS)
  }

  lemma FittingTakes<T>(before: seq<T>, more: seq<T>)
    ensures TakesFitting(before, more, before + Fitting(more, |before|))
    ensures |Fitting(more, |before|)| == |more| <==> |more| == 0 || |before| + |more| <= MAX_PENDING_SESSION_INPUTS
  {}

  /**
   * Pending extension results of an open host's session: all that fit join the end of a running
   * session's steering queue, or of an idle one's queue, whose oldest input is then scheduled if all fit.
   */
  lemma ExternalDelivered(s: Host, key: Key)
    requires Wf(s) && !Closing(s) && key in s.pool && key in s.inbox && s.inbox[key] != []
    ensures var s', id := DeliverExternal(s, key), s.pool[key]; var r, r' := s.runtimes[id], s'.runtimes[id];
      && key !in s'.inbox && |s'.runtimes| == |s.runtimes|
      && (r.Running() ==>
            && r'.queue == r.queue && s'.tasks == s.tasks
            && TakesFitting(r.agent.steering, AsSteers(s.inbox[key]), r'.agent.steering))
      && (!r.Running() ==>
            && r'.agent.steering == r.agent.steering
            && (if |r.queue| + |s.inbox[key]| <= MAX_PENDING_SESSION_INPUTS then
                  && |s'.tasks| == |s.tasks| + 1 && s'.tasks[..|s.tasks|] == s.tasks
                  && [(r.queue + AsQueued(s.inbox[key]))[0]] + r'.queue == r.queue + AsQueued(s.inbox[key])
                  && s'.tasks[|s.tasks|] == Scheduled(key, (r.queue + AsQueued(s.inbox[key]))[0].text)
                else
                  s'.tasks == s.tasks && TakesFitting(r.queue, AsQueued(s.inbox[key]), r'.queue)))
  {
    assert s.pool[key] < |s.runtimes|;
    hide Wf, AsSteers, AsQueued;
    var events := s.inbox[key];
    assert |AsSteers(events)| == |AsQueued(events)| == |events| by { AsLengths(events); }
    var r := s.runtimes[s.pool[key]];
    FittingTakes(r.agent.steering, AsSteers(events));
    FittingTakes(r.queue, AsQueued(events));
    hide TakesFitting;
  }

  lemma AsLengths(events: seq<Text>)
    ensures |AsSteers(events)| == |AsQueued(events)| == |events|
  {}

  // ---------------------------------------------------------------------------------------
  // How inputs leave their queues
  // ---------------------------------------------------------------------------------------

  /** A new continuation will start a turn with this text. */
  ghost predicate Follows(s: Host, s': Host, text: Text) {
    exists t :: |s.tasks| <= t < |s'.tasks| && s'.tasks[t].Scheduled? && s'.tasks[t].text == text
  }

  /** The queue grows at its end; or it gives up its oldest input, which is scheduled, and then may have grown. */
  ghost predicate QueueMoves(s: Host, s': Host, id: RuntimeId)
    requires id < |s.runtimes| && id < |s'.runtimes|
  {
    var q, q' := s.runtimes[id].queue, s'.runtimes[id].queue;
    q <= q' || (q != [] && q[1..] <= q' && Follows(s, s', q[0].text))
  }

  /** All queues move like that, and steers are only added at the end. */
  ghost predicate AllMove(s: Host, s': Host) {
    && |s.runtimes| <= |s'.runtimes|
    && (forall id :: 0 <= id < |s.runtimes| ==>
          QueueMoves(s, s', id) && s.runtimes[id].agent.steering <= s'.runtimes[id].agent.steering)
  }

  /** No queue and no steering queue changes. */
  ghost predicate SameInputs(s: Host, s': Host) {
    && |s.runtimes| <= |s'.runtimes|
    && (forall id :: 0 <= id < |s.runtimes| ==>
          && s'.runtimes[id].queue == s.runtimes[id].queue
          && s'.runtimes[id].agent.steering == s.runtimes[id].agent.steering)
  }

  lemma SameMove(s: Host, s': Host)
    requires SameInputs(s, s')
    ensures AllMove(s, s')
  {}

  lemma SameThenMove(a: Host, b: Host, c: Host)
    requires SameInputs(a, b) && |a.tasks| == |b.tasks| && AllMove(b, c)
    ensures AllMove(a, c)
  {
    forall id | 0 <= id < |a.runtimes| ensures QueueMoves(a, c, id) {
      assert QueueMoves(b, c, id);
      if a.runtimes[id].queue != [] && Follows(b, c, a.runtimes[id].queue[0].text) {
        var t :| |b.tasks| <= t < |c.tasks| && c.tasks[t].Scheduled? && c.tasks[t].text == a.runtimes[id].queue[0].text;
        assert Follows(a, c, a.runtimes[id].queue[0].text);
      }
    }
  }

  lemma StartKeepsInputs(s: Host, key: Key, text: Text, launch: Option<Launch>)
    requires Wf(s) && (launch.Some? ==> launch.value.rt < |s.runtimes|)
    ensures SameInputs(s, StartTurn(s, key, text, launch)) && SameInputs(s, Reserve(s, key, text, launch))
  {
    hide LaunchIsCurrent;
  }

  lemma ExternalMoves(s: Host, key: Key)
    requires Wf(s)
    ensures AllMove(s, DeliverExternal(s, key)) && |s.tasks| <= |DeliverExternal(s, key).tasks|
  {
    var s' := DeliverExternal(s, key);
    if s' != s {
      var id := s.pool[key];
      var events, r := s.inbox[key], s.runtimes[id];
      if !Closing(s) && !r.Running() && |Fitting(AsQueued(events), |r.queue|)| >= |events| {
        var queue := r.queue + Fitting(AsQueued(events), |r.queue|);
        assert s'.tasks[|s.tasks|] == Scheduled(key, queue[0].text);
        assert Follows(s, s', queue[0].text);
        assert r.queue != [] ==> r.queue[1..] <= queue[1..];
      }
    }
    hide Wf, AsSteers, AsQueued, Fitting;
  }

  lemma {:induction false} RouteExtends(pending: seq<Steer>, r: Routing, closing: bool)
    ensures r.queue <= Route(pending, r, closing).queue
  {
    if pending != [] && !Blocked(pending[0], r, closing) {
      RouteExtends(pending[1..], Admit(pending[0], r, closing), closing);
    }
  }

  /** The runtime whose turn ended, before its next input is taken. */
  function Released(s: Host, t: TaskId): Runtime
    requires Wf(s) && t < |s.tasks| && s.tasks[t].Running?
  {
    var r := s.runtimes[s.tasks[t].rt];
    var routed := Route(r.agent.steering, Routing(r.queue, [], []), Closing(s));
    r.(turn := None, queue := routed.queue, agent := r.agent.(steering := routed.steering))
  }

  /** The end of a turn writes its own runtime only, and what it takes from the queue is scheduled. */
  lemma FinishTurnRuntimes(s: Host, t: TaskId)
    requires Wf(s) && t < |s.tasks| && s.tasks[t].Running?
    ensures var r, s', id := Released(s, t), FinishTurn(s, t), s.tasks[t].rt;
      || s'.runtimes == s.runtimes[id := r]
      || (r.queue != [] && s'.runtimes == s.runtimes[id := r.(queue := r.queue[1..])]
          && Follows(s, s', r.queue[0].text))
  {
    var task := s.tasks[t];
    var r := s.runtimes[task.rt];
    hide Wf, Route, RunPendingSwitch, ScheduleNext, Follows, TakeNext;
    var routed := Route(r.agent.steering, Routing(r.queue, [], []), Closing(s));
    var s1 := Finish(SetRuntime(s, task.rt,
      r.(turn := None, queue := routed.queue, agent := r.agent.(steering := routed.steering))), t);
    var s2 := s1.(peerWakes := if Resteered in routed.fates then s1.peerWakes + {task.sk} else s1.peerWakes);
    if |routed.fates| >= |r.agent.steering| {
      NextRuntimes(s2, task.rt, s.runtimes, Released(s, t));
      var (s3, next) := TakeNext(s2, task.rt);
      var s4 := if task.sk != s3.activeKey && s3.spawns && next.None? then Evict(s3, task.sk, task.rt) else s3;
      FollowKeepsRuntimes(s4, task.sk, next);
      if next.Some? { FollowsNext(s, s4, task.sk, next); }
    }
  }

  lemma NextRuntimes(s: Host, id: RuntimeId, before: seq<Runtime>, r: Runtime)
    requires id < |before| && s.runtimes == before[id := r]
    ensures var (s', next) := TakeNext(s, id);
      && |s'.tasks| == |s.tasks| && (next.None? ==> s'.runtimes == before[id := r])
      && (next.Some? ==>
            && r.queue != [] && next.value == r.queue[0]
            && s'.runtimes == before[id := r.(queue := r.queue[1..])])
  {}

  /** Whatever the end of the turn does with its leftover steers, the queue moves as queues do. */
  lemma FinishTurnMoves(s: Host, t: TaskId, id: RuntimeId)
    requires Wf(s) && t < |s.tasks| && s.tasks[t].Running? && id < |s.runtimes|
    ensures |FinishTurn(s, t).runtimes| == |s.runtimes| && QueueMoves(s, FinishTurn(s, t), id)
    ensures id != s.tasks[t].rt ==> FinishTurn(s, t).runtimes[id].agent.steering == s.runtimes[id].agent.steering
  {
    FinishTurnRuntimes(s, t);
    var r := s.runtimes[s.tasks[t].rt];
    RouteExtends(r.agent.steering, Routing(r.queue, [], []), Closing(s));
    hide FinishTurn, Follows, Wf, Route;
    var q := Released(s, t).queue;
    assert r.queue != [] ==> r.queue[1..] <= q[1..] && q[0] == r.queue[0];
  }

  lemma FollowKeepsRuntimes(s: Host, key: Key, next: Option<Queued>)
    ensures ScheduleNext(RunPendingSwitch(s), key, next).runtimes == s.runtimes
    ensures ScheduleNext(s, key, next).runtimes == s.runtimes
  {}

  lemma FollowsNext(s: Host, s4: Host, key: Key, next: Option<Queued>)
    requires |s4.tasks| == |s.tasks| && next.Some?
    ensures Follows(s, ScheduleNext(RunPendingSwitch(s4), key, next), next.value.text)
    ensures Follows(s, ScheduleNext(s4, key, next), next.value.text)
  {
    assert ScheduleNext(RunPendingSwitch(s4), key, next).tasks[|s.tasks|] == Scheduled(key, next.value.text);
    assert ScheduleNext(s4, key, next).tasks[|s.tasks|] == Scheduled(key, next.value.text);
  }

  lemma AbandonMoves(s: Host, t: TaskId)
    requires Wf(s) && t < |s.tasks| && s.tasks[t].Validating?
    ensures AllMove(s, Abandon(s, t))
  {
    var task := s.tasks[t];
    var s1 := Finish(SetRuntime(s, task.rt, s.runtimes[task.rt].(turn := None)), t);
    var (s2, next) := TakeNext(s1, task.rt);
    var s3 := RunPendingSwitch(s2);
    hide Wf, RunPendingSwitch;
    SwitchKeepsInputs(s2);
    FollowKeepsRuntimes(s3, task.key, next);
    FollowKeepsRuntimes(Evict(s3, task.key, task.rt), task.key, next);
    if next.Some? { FollowsNext(s, s3, task.key, next); }
  }

  lemma SwitchKeepsInputs(s: Host)
    ensures RunPendingSwitch(s).runtimes == s.runtimes && RunPendingSwitch(s).tasks == s.tasks
  {}

  lemma PolicyMoves(s: Host, t: TaskId, outcome: PolicyOutcome)
    requires Owned(s) && t < |s.tasks| && s.tasks[t].Validating?
    ensures AllMove(s, PolicyReturn(s, t, outcome))
  {
    hide PoolOwned, TurnsPooled, LatchesOwned, MutationsSerial, DrainsHonest, Abandon, LaunchIsCurrent;
    AbandonMoves(s, t);
  }

  lemma FocusMoves(s: Host, switch: Switch)
    requires Wf(s) && s.mutations != []
    ensures AllMove(s, Focus(s, switch))
  {
    var s1 := s.(activeKey := switch.target);
    ExternalMoves(s1, switch.target);
    if switch.target in s.pool { SettledMoves(s, s1, DeliverExternal(s1, switch.target)); }
    hide DeliverExternal, Wf;
  }

  /** Settling the mutation, and fields other than runtimes and continuations, do not matter. */
  lemma SettledMoves(s: Host, s1: Host, s2: Host)
    requires s1.runtimes == s.runtimes && s1.tasks == s.tasks && AllMove(s1, s2) && s2.mutations != []
    ensures AllMove(s, Settle(s2))
  {
    FollowsSame(s, s1, s2);
    forall id | 0 <= id < |s.runtimes| ensures QueueMoves(s, Settle(s2), id) { assert QueueMoves(s1, s2, id); }
  }

  lemma FollowsSame(s: Host, s1: Host, s2: Host)
    requires s1.tasks == s.tasks && s2.mutations != []
    ensures forall x :: Follows(s1, s2, x) <==> Follows(s, Settle(s2), x)
  {}

  lemma RetargetMoves(s: Host, id: RuntimeId, switch: Switch, outcome: InstallOutcome)
    requires Wf(s) && s.mutations != [] && id < |s.runtimes|
    ensures AllMove(s, Retarget(s, id, switch, outcome))
  {
    var r := s.runtimes[id];
    var s1 := SetRuntime(s, id, r.(agent := r.agent.(sessionKey := switch.target), pendingHistoryKey := None));
    var s2 := SetRuntime(s, id, Retargeted(r, switch))
      .(pool := s.pool[switch.target := id], activeKey := switch.target);
    assert Wf(s2);
    ExternalMoves(s2, switch.target);
    PassiveExternal(s2, switch.target);
    assert SameInputs(s, s1) && SameInputs(s, s2);
    hide DeliverExternal, Wf, SameInputs, AllMove;
    SameMove(s, s1);
    SameAsItself(s1);
    SameMove(s1, s1);
    SettledMoves(s1, s1, s1);
    SameThenMove(s, s1, Settle(s1));
    SettledMoves(s2, s2, DeliverExternal(s2, switch.target));
    SameThenMove(s, s2, Settle(DeliverExternal(s2, switch.target)));
  }

  lemma SameAsItself(s: Host)
    ensures SameInputs(s, s)
  {}

  lemma InstallMovesInputs(s: Host, outcome: InstallOutcome)
    requires Owned(s) && s.mutations != [] && s.mutations[0].phase.AwaitingTarget?
    ensures AllMove(s, Install(s, outcome))
  {
    hide Retarget, PoolOwned, TurnsPooled, LatchesOwned, MutationsSerial, DrainsHonest, LaunchesResolve;
    var p := s.mutations[0].phase;
    SameAsItself(s);
    SameMove(s, s);
    SettledMoves(s, s, s);
    if p.reused.Some? {
      RetargetMoves(s, p.reused.value, p.switch, outcome);
    } else {
      SpawnKeepsOwned(s, FreshRuntime(p.switch.target));
      var s1 := s.(runtimes := s.runtimes + [FreshRuntime(p.switch.target)]);
      RetargetMoves(s1, |s.runtimes|, p.switch, outcome);
      assert SameInputs(s, s1);
      SameThenMove(s, s1, Retarget(s1, |s.runtimes|, p.switch, outcome));
    }
    hide AllMove;
  }

  /** The event begins a tenant switch, which empties the queues of the pool. */
  predicate ClearsQueues(s: Host, e: Event) {
    && e.HeadStarts? && !Closing(s)
    && s.mutations != [] && s.mutations[0].phase.Waiting? && s.mutations[0].request.RebindTenant?
  }

  lemma StartHeadMovesInputs(s: Host, uuids: seq<string>)
    requires Wf(s) && s.mutations != [] && s.mutations[0].phase.Waiting? && !ClearsQueues(s, HeadStarts(uuids))
    ensures AllMove(s, StartHead(s, uuids))
  {
    hide Wf, Focus, AllMove;
    SameAsItself(s);
    SameMove(s, s);
    SettledMoves(s, s, s);
    var minted := Mint(s, uuids, MINT_ATTEMPTS);
    match s.mutations[0].request {
      case NewSession => if minted.Some? { FocusMoves(s, Switch(minted.value, FreshStart)); }
      case ResumeSession(key) => FocusMoves(s, Switch(key, LazyResume)); FocusMoves(s, Switch(key, FreshStart));
      case DeferredSwitch(switch) => FocusMoves(s, switch);
      case RebindTenant =>
      case BindLearning(binding) => SameMove(s, SetPhase(s, AwaitingIdle(binding)));
    }
  }

  /** A tenant switch empties exactly the queues of the pool, and touches no steer. */
  lemma RebindClears(s: Host, e: Event)
    requires Owned(s) && ClearsQueues(s, e)
    ensures var s' := Step(s, e);
      && |s'.runtimes| == |s.runtimes| && s'.tenantRebinding && s'.pendingSwitch == None && s'.pool == s.pool
      && forall id :: 0 <= id < |s.runtimes| ==>
           && s'.runtimes[id].queue == (if id in s.pool.Values then [] else s.runtimes[id].queue)
           && s'.runtimes[id].agent == s.runtimes[id].agent
  {
    hide Wf, PoolOwned, TurnsPooled, LatchesOwned, MutationsSerial, DrainsHonest, LaunchesResolve, Focus;
  }

  /** The other phases of the mutation at the head touch no input. */
  lemma PhaseKeepsInputs(s: Host, deadline: bool, installed: bool)
    requires Wf(s) && s.mutations != []
    ensures s.mutations[0].phase.ParkingCurrent? ==> SameInputs(s, ParkedCurrent(s))
    ensures s.mutations[0].phase.StoppingTurns? ==> SameInputs(s, PollTurns(s, deadline))
    ensures s.mutations[0].phase.DrainingPool? ==> SameInputs(s, RequestReplacement(s))
    ensures s.mutations[0].phase.Replacing? ==> SameInputs(s, InstallReplacement(s, installed))
    ensures s.mutations[0].phase.AwaitingIdle? ==> SameInputs(s, PollLearning(s))
  {
    hide Wf, PoolRunning, BindPool;
    if s.mutations[0].phase.AwaitingIdle? { BindKeepsInputs(s, s.mutations[0].phase.binding); }
  }

  lemma BindKeepsInputs(s: Host, binding: int)
    ensures SameInputs(s, BindPool(s, binding)) && BindPool(s, binding).mutations == s.mutations
  {}

  lemma HeadMovesInputs(s: Host, e: Event)
    requires Owned(s) && HeadEvent(e) && !ClearsQueues(s, e)
    ensures AllMove(s, Step(s, e))
  {
    hide PoolOwned, TurnsPooled, LatchesOwned, MutationsSerial, DrainsHonest, LaunchesResolve, StartHead, Install;
    hide PoolRunning, DeliverInput, DeliverPeer, WakePeer, AutoResume, PublishExternal, BeginReviewed, Wf, Follows;
    hide Reserve, StartTurn, PolicyReturn, FinishTurn, IntentReturn, ParkedCurrent, PollTurns, RequestReplacement;
    hide InstallReplacement, PollLearning, AllMove, SameInputs;
    SameAsItself(s);
    SameMove(s, s);
    if s.mutations != [] {
      PhaseKeepsInputs(s, e.RebindPoll? && e.deadline, e.ReplacementReturned? && e.installed);
      if SameInputs(s, Step(s, e)) { SameMove(s, Step(s, e)); }
      if e.HeadStarts? && s.mutations[0].phase.Waiting? {
        StartHeadMovesInputs(s, e.uuids);
      } else if e.TargetDrained? && s.mutations[0].phase.AwaitingTarget? {
        InstallMovesInputs(s, e.install);
      }
    }
  }

  lemma PublishMoves(s: Host, key: Key, body: string)
    requires Wf(s)
    ensures AllMove(s, PublishExternal(s, key, body))
  {
    var pending := if key in s.inbox then s.inbox[key] else [];
    var s1 := s.(inbox := s.inbox[key := pending + [Text(Extension, key, body)]]);
    assert Wf(s1);
    ExternalMoves(s1, key);
    hide Wf, DeliverExternal, AllMove;
    assert SameInputs(s, s1);
    SameThenMove(s, s1, DeliverExternal(s1, key));
  }

  lemma WakeMoves(s: Host, key: Key)
    requires Wf(s) && key in s.peerWakes
    ensures SameInputs(s, WakePeer(s, key))
  {
    var s1 := s.(peerWakes := s.peerWakes - {key});
    assert Wf(s1);
    hide Wf, StartTurn;
    StartKeepsInputs(s1, key, Text(HostPrompt, key, WAKE_PROMPT), None);
  }

  lemma DeliverMoves(s: Host, mode: DeliveryMode, body: string)
    requires Wf(s)
    ensures AllMove(s, DeliverInput(s, mode, body))
  {
    StartKeepsInputs(s, s.activeKey, Text(User, s.activeKey, body), None);
    hide StartTurn, Follows;
  }

  lemma StartsMove(s: Host, e: Event)
    requires Owned(s) && MayStart(e)
    ensures AllMove(s, Step(s, e))
  {
    hide PoolOwned, TurnsPooled, LatchesOwned, MutationsSerial, DrainsHonest, Wf, StartTurn, Reserve, Follows;
    hide WakePeer, LaunchIsCurrent, DeliverInput;
    match e
    case Deliver(mode, body) => DeliverMoves(s, mode, body);
    case PeerWake(key) => if key in s.peerWakes { WakeMoves(s, key); }
    case ResumeTimer(body) => StartKeepsInputs(s, s.activeKey, Text(HostPrompt, s.activeKey, body), None);
    case ReviewedStart(body) =>
    case ScheduledStart(t) => if t < |s.tasks| { ContinuedMoves(s, t); }
    case TailSettled(t) => if t < |s.tasks| { ContinuedMoves(s, t); }
    case IntentIssued(t, ok) => if t < |s.tasks| { ContinuedMoves(s, t); }
  }

  lemma ContinuedMoves(s: Host, t: TaskId)
    requires Owned(s) && t < |s.tasks|
    ensures Wf(Finish(s, t))
    ensures s.tasks[t].WaitingStart? ==>
      SameInputs(s, Reserve(Finish(s, t), s.tasks[t].key, s.tasks[t].text, s.tasks[t].launch))
    ensures s.tasks[t].Scheduled? ==> SameInputs(s, StartTurn(Finish(s, t), s.tasks[t].key, s.tasks[t].text, None))
    ensures s.tasks[t].Issuing? ==>
      SameInputs(s, StartTurn(Finish(s, t), s.tasks[t].key, s.tasks[t].text,
        Some(Launch(s.tasks[t].rt, s.tasks[t].at, t))))
  {
    FinishGate(s, t);
    if !InFlight(s.tasks[t]) { ResumeKeepsOwned(s, t); }
    hide PoolOwned, TurnsPooled, LatchesOwned, MutationsSerial, DrainsHonest, Wf, StartTurn, Reserve;
    match s.tasks[t]
    case WaitingStart(key, text, launch, _) => StartKeepsInputs(Finish(s, t), key, text, launch);
    case Scheduled(key, text) => StartKeepsInputs(Finish(s, t), key, text, None);
    case Issuing(key, rt, text, at) => StartKeepsInputs(Finish(s, t), key, text, Some(Launch(rt, at, t)));
    case _ =>
  }

  lemma TurnMoves(s: Host, e: Event, id: RuntimeId)
    requires Owned(s) && (e.PolicyReturned? || e.TurnReturned?) && id < |s.runtimes|
    ensures id < |Step(s, e).runtimes| && QueueMoves(s, Step(s, e), id)
    ensures s.runtimes[id].agent.steering <= Step(s, e).runtimes[id].agent.steering || EndsTurnOn(s, e, id)
  {
    hide PoolOwned, TurnsPooled, LatchesOwned, MutationsSerial, DrainsHonest, FinishTurn, PolicyReturn, Follows;
    if e.task < |s.tasks| {
      if e.TurnReturned? && s.tasks[e.task].Running? { FinishTurnMoves(s, e.task, id); }
      if e.PolicyReturned? && s.tasks[e.task].Validating? { PolicyMoves(s, e.task, e.outcome); }
    }
  }

  /** The turn of this runtime ends. */
  predicate EndsTurnOn(s: Host, e: Event, id: RuntimeId) {
    e.TurnReturned? && e.task < |s.tasks| && s.tasks[e.task].Running? && s.tasks[e.task].rt == id
  }

  /** The agent of this runtime admits its oldest steers. */
  predicate AdmitsSteers(e: Event, id: RuntimeId, before: seq<Steer>, after: seq<Steer>) {
    e.AgentAdmits? && e.rt == id && e.count <= |before| && after == before[e.count..]
  }

  lemma OthersMove(s: Host, e: Event, id: RuntimeId)
    requires Owned(s) && id < |s.runtimes|
    requires !HeadEvent(e) && !MayStart(e) && !e.PolicyReturned? && !e.TurnReturned?
    ensures id < |Step(s, e).runtimes| && QueueMoves(s, Step(s, e), id)
    ensures var before, after := s.runtimes[id].agent.steering, Step(s, e).runtimes[id].agent.steering;
      before <= after || AdmitsSteers(e, id, before, after)
  {
    hide PoolOwned, TurnsPooled, LatchesOwned, MutationsSerial, DrainsHonest, LaunchesResolve, PublishExternal, Follows;
    hide DeliverInput, WakePeer, AutoResume, BeginReviewed, Reserve, StartTurn, PolicyReturn, FinishTurn, IntentReturn;
    hide StartHead, Install, ParkedCurrent, PollTurns, RequestReplacement, InstallReplacement, PollLearning;
    if e.Publish? { PublishMoves(s, e.key, e.body); }
    hide Wf;
  }

  /**
   * Over any step: a runtime's queue grows only at its end, and an input leaves it only from the front,
   * scheduled as the next prompt, or by the tenant switch that empties the pool's queues; a steer joins
   * at the end, and leaves from the front when the agent admits it or when the turn ends.
   */
  lemma InputsAreKept(s: Host, e: Event, id: RuntimeId)
    requires Owned(s) && id < |s.runtimes|
    ensures id < |Step(s, e).runtimes|
    ensures || QueueMoves(s, Step(s, e), id)
            || (ClearsQueues(s, e) && id in s.pool.Values && Step(s, e).runtimes[id].queue == [])
    ensures var before, after := s.runtimes[id].agent.steering, Step(s, e).runtimes[id].agent.steering;
      before <= after || AdmitsSteers(e, id, before, after) || EndsTurnOn(s, e, id)
  {
    hide Step, PoolOwned, TurnsPooled, LatchesOwned, MutationsSerial, DrainsHonest, LaunchesResolve, Wf, Follows;
    if ClearsQueues(s, e) {
      RebindClears(s, e);
    } else if HeadEvent(e) {
      HeadMovesInputs(s, e);
    } else if MayStart(e) {
      StartsMove(s, e);
    } else if e.PolicyReturned? || e.TurnReturned? {
      TurnMoves(s, e, id);
    } else {
      OthersMove(s, e, id);
    }
  }
}
