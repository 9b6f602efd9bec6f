/**
 * Where prompts come from and whom they were addressed to: peer text never becomes a prompt, the
 * steers left at turn end are each dealt with once and in order, and an input stays with its
 * session except when a reused runtime carries its leftovers into another one.
 */
module HostInputs {
  import opened Common
  import opened HostModel
  import opened HostInvariants

  /** Which texts a session may hold: with `home` those addressed to it, and in any case only given ones. */
  datatype Rule = Rule(home: bool, given: iset<Text>)

  /** Every text was given at some time. */
  ghost const HOME := Rule(true, iset x: Text | true)
  ghost const ANY := Rule(false, iset x: Text | true)

  /** The texts an event brings to the host. */
  function EventTexts(s: Host, e: Event): set<Text> {
    match e
    case Deliver(_, body) => {Text(User, s.activeKey, body)}
    case PeerMessage(target, body, _, _) => {Text(Peer, target, body)}
    case PeerWake(key) => {Text(HostPrompt, key, WAKE_PROMPT)}
    case Publish(key, body) => {Text(Extension, key, body)}
    case ResumeTimer(body) => {Text(HostPrompt, s.activeKey, body)}
    case ReviewedStart(body) => {Text(User, s.activeKey, body)}
    case _ => {}
  }

  predicate CleanText(x: Text, key: Key, rule: Rule) {
    x.origin != Peer && (rule.home ==> x.addressed == key) && x in rule.given
  }

  predicate CleanSteer(p: Steer, key: Key, rule: Rule) {
    (p.source == Peer <==> p.text.origin == Peer) && (rule.home ==> p.text.addressed == key) && p.text in rule.given
  }

  /** No peer text is queued, and a steer is labelled as peer exactly when its text is. */
  ghost predicate CleanRuntime(r: Runtime, rule: Rule) {
    && (forall i :: 0 <= i < |r.queue| ==> CleanText(r.queue[i].text, r.agent.sessionKey, rule))
    && (forall i :: 0 <= i < |r.agent.steering| ==> CleanSteer(r.agent.steering[i], r.agent.sessionKey, rule))
  }

  predicate CleanTask(t: Task, rule: Rule) {
    t.Done? || CleanText(t.text, t.key, rule)
  }

  ghost predicate Clean(s: Host, rule: Rule) {
    && (forall id :: 0 <= id < |s.runtimes| ==> CleanRuntime(s.runtimes[id], rule))
    && (forall t :: 0 <= t < |s.tasks| ==> CleanTask(s.tasks[t], rule))
    && (forall k <- s.inbox :: forall i :: 0 <= i < |s.inbox[k]| ==>
        s.inbox[k][i].origin == Extension && s.inbox[k][i].addressed == k && s.inbox[k][i] in rule.given)
  }

  // ---------------------------------------------------------------------------------------
  // The loop over pending steers
  // ---------------------------------------------------------------------------------------

  /** User and extension steers become ordinary queued inputs. */
  function Requeueable(pending: seq<Steer>): seq<Queued> {
    if pending == [] then []
    else
      var p := pending[0];
      (if p.source == Peer then [] else [Queued(p.text, p.source)]) + Requeueable(pending[1..])
  }

  /** Peer steers with a known device go back to the agent. */
  function Resteerable(pending: seq<Steer>): seq<Steer> {
    if pending == [] then []
    else (if pending[0].source == Peer && pending[0].deviceKnown then [pending[0]] else []) + Resteerable(pending[1..])
  }

  /** The input queue can hold every steer that would be queued. */
  predicate Fits(pending: seq<Steer>, queue: seq<Queued>, closing: bool) {
    closing || Requeueable(pending) == [] || |queue| + |Requeueable(pending)| <= MAX_PENDING_SESSION_INPUTS
  }

  /** Whatever the outcome, each steer that was reached met exactly one fate, in order. */
  lemma {:induction false} RouteFates(pending: seq<Steer>, r: Routing, closing: bool)
    ensures var out := Route(pending, r, closing);
      && |r.fates| <= |out.fates| <= |r.fates| + |pending|
      && out.fates[..|r.fates|] == r.fates
      && (forall i :: |r.fates| <= i < |out.fates| ==> out.fates[i] == FateOf(pending[i - |r.fates|], closing))
  {
    if pending != [] && !Blocked(pending[0], r, closing) {
      var r1 := Admit(pending[0], r, closing);
      RouteFates(pending[1..], r1, closing);
      assert r1.fates == r.fates + [FateOf(pending[0], closing)];
    }
  }

  /** The loop runs to its end exactly when the queue has room for every user and extension steer. */
  lemma {:induction false} RouteCompletes(pending: seq<Steer>, r: Routing, closing: bool)
    ensures |Route(pending, r, closing).fates| == |r.fates| + |pending| <==> Fits(pending, r.queue, closing)
  {
    RouteFates(pending, r, closing);
    if pending != [] {
      var p := pending[0];
      assert |Requeueable(pending)| == (if p.source == Peer then 0 else 1) + |Requeueable(pending[1..])|;
      if !Blocked(p, r, closing) {
        RouteCompletes(pending[1..], Admit(p, r, closing), closing);
        assert |Admit(p, r, closing).queue| == |r.queue| + (if FateOf(p, closing) == Requeued then 1 else 0);
      }
    }
  }

  /**
   * With room, every user or extension steer is queued and every peer steer goes back to the
   * agent, in order and once each; a closing host does neither. Without room the loop throws, and
   * by `RouteCompletes` the steers from the first that does not fit onwards meet no fate at all.
   */
  lemma {:induction false} RouteExactly(pending: seq<Steer>, r: Routing, closing: bool)
    requires Fits(pending, r.queue, closing)
    ensures Route(pending, r, closing).queue == r.queue + (if closing then [] else Requeueable(pending))
    ensures Route(pending, r, closing).steering == r.steering + (if closing then [] else Resteerable(pending))
  {
    if pending != [] {
      var r1 := Admit(pending[0], r, closing);
      FitsOn(pending, r, closing);
      AdmitExactly(pending, r, closing);
      RouteExactly(pending[1..], r1, closing);
      hide Fits, Requeueable, Resteerable, Admit, Blocked;
    }
  }

  /**
   * Also when the queue overflows: the steers reached go where their fates say, in order, and the
   * first one not reached is a user's or an extension's that found the queue full.
   */
  lemma {:induction false} RouteTakes(pending: seq<Steer>, r: Routing, closing: bool)
    ensures var out := Route(pending, r, closing); var n := |out.fates| - |r.fates|;
      && 0 <= n <= |pending|
      && out.queue == r.queue + (if closing then [] else Requeueable(pending[..n]))
      && out.steering == r.steering + (if closing then [] else Resteerable(pending[..n]))
      && (n < |pending| ==>
            !closing && pending[n].source != Peer && |out.queue| >= MAX_PENDING_SESSION_INPUTS)
  {
    if pending != [] && !Blocked(pending[0], r, closing) {
      var r1 := Admit(pending[0], r, closing);
      RouteTakes(pending[1..], r1, closing);
      var n := |Route(pending[1..], r1, closing).fates| - |r1.fates|;
      assert pending[..n + 1][1..] == pending[1..][..n];
      AdmitExactly(pending[..n + 1], r, closing);
      hide Requeueable, Resteerable, Route;
    }
  }

  /** The first steer is not refused, and the rest fits behind it. */
  lemma FitsOn(pending: seq<Steer>, r: Routing, closing: bool)
    requires pending != [] && Fits(pending, r.queue, closing)
    ensures !Blocked(pending[0], r, closing) && Fits(pending[1..], Admit(pending[0], r, closing).queue, closing)
  {
    var p := pending[0];
    assert |Requeueable(pending)| == (if p.source == Peer then 0 else 1) + |Requeueable(pending[1..])|;
  }

  /** What the first steer adds comes before what the rest will add. */
  lemma AdmitExactly(pending: seq<Steer>, r: Routing, closing: bool)
    requires pending != []
    ensures var r1, rest := Admit(pending[0], r, closing), pending[1..];
      && (closing ==> r1.queue == r.queue && r1.steering == r.steering)
      && (!closing ==> r1.queue + Requeueable(rest) == r.queue + Requeueable(pending))
      && (!closing ==> r1.steering + Resteerable(rest) == r.steering + Resteerable(pending))
  {
    var p, rest := pending[0], pending[1..];
    var q, b := Requeueable(rest), Resteerable(rest);
    var queued := if p.source == Peer then [] else [Queued(p.text, p.source)];
    var back := if p.source == Peer && p.deviceKnown then [p] else [];
    assert Requeueable(pending) == queued + q && Resteerable(pending) == back + b;
    hide Requeueable, Resteerable;
    Regroup(r.queue, queued, q);
    Regroup(r.steering, back, b);
    assert r.queue + [] == r.queue && r.steering + [] == r.steering;
  }

  lemma Regroup<T>(a: seq<T>, b: seq<T>, c: seq<T>)
    ensures (a + b) + c == a + (b + c)
  {}

  ghost predicate CleanRouting(r: Routing, key: Key, rule: Rule) {
    && (forall i :: 0 <= i < |r.queue| ==> CleanText(r.queue[i].text, key, rule))
    && (forall i :: 0 <= i < |r.steering| ==> CleanSteer(r.steering[i], key, rule))
  }

  lemma {:induction false} RouteClean(pending: seq<Steer>, r: Routing, closing: bool, key: Key, rule: Rule)
    requires forall i :: 0 <= i < |pending| ==> CleanSteer(pending[i], key, rule)
    requires CleanRouting(r, key, rule)
    ensures CleanRouting(Route(pending, r, closing), key, rule)
  {
    if pending != [] && !Blocked(pending[0], r, closing) {
      assert CleanSteer(pending[0], key, rule);
      var r1 := Admit(pending[0], r, closing);
      assert CleanRouting(r1, key, rule);
      RouteClean(pending[1..], r1, closing, key, rule);
    }
  }

  // ---------------------------------------------------------------------------------------
  // Building blocks
  // ---------------------------------------------------------------------------------------

  lemma CleanSet(s: Host, id: RuntimeId, r: Runtime, rule: Rule)
    requires Clean(s, rule) && id < |s.runtimes| && CleanRuntime(r, rule)
    ensures Clean(SetRuntime(s, id, r), rule)
  {}

  lemma CleanAdd(s: Host, t: Task, rule: Rule)
    requires Clean(s, rule) && CleanTask(t, rule)
    ensures Clean(AddTask(s, t), rule)
  {}

  lemma CleanFinish(s: Host, t: TaskId, rule: Rule)
    requires Clean(s, rule) && t < |s.tasks|
    ensures Clean(Finish(s, t), rule)
  {}

  /** Parts of the host that hold no text do not matter. */
  lemma CleanSame(s: Host, s': Host, rule: Rule)
    requires Clean(s, rule) && s'.runtimes == s.runtimes && s'.tasks == s.tasks && s'.inbox == s.inbox
    ensures Clean(s', rule)
  {}

  lemma CleanStart(s: Host, key: Key, text: Text, launch: Option<Launch>, rule: Rule)
    requires Wf(s) && Clean(s, rule) && CleanText(text, key, rule)
    requires launch.Some? ==> launch.value.rt < |s.runtimes|
    ensures Clean(Reserve(s, key, text, launch), rule)
    ensures Clean(StartTurn(s, key, text, launch), rule)
  {
    hide Clean;
    CleanAdd(s, WaitingStart(key, text, launch, s.settled + |s.mutations|), rule);
    if key in s.pool {
      var id := s.pool[key];
      var r := s.runtimes[id];
      assert CleanRuntime(r, rule) ==> CleanRuntime(r.(turn := Some(|s.tasks|)), rule);
      CleanAt(s, id, rule);
      CleanSet(s, id, r.(turn := Some(|s.tasks|)), rule);
      var s1 := Advance(SetRuntime(s, id, r.(turn := Some(|s.tasks|))), TurnReserved(key, |s.tasks|));
      CleanSame(SetRuntime(s, id, r.(turn := Some(|s.tasks|))), s1, rule);
      CleanAdd(s1, Validating(key, id, text, launch, Generation(s1)), rule);
    }
  }

  lemma CleanAt(s: Host, id: RuntimeId, rule: Rule)
    requires Clean(s, rule) && id < |s.runtimes|
    ensures CleanRuntime(s.runtimes[id], rule)
  {}

  lemma CleanNext(s: Host, id: RuntimeId, rule: Rule)
    requires Clean(s, rule) && id < |s.runtimes|
    ensures var (s', next) := TakeNext(s, id);
      Clean(s', rule) && (next.Some? ==> CleanText(next.value.text, s.runtimes[id].agent.sessionKey, rule))
  {
    CleanAt(s, id, rule);
    var r := s.runtimes[id];
    if r.queue != [] {
      CleanSet(s, id, r.(queue := r.queue[1..]), rule);
    }
  }

  lemma CleanFollowUp(s: Host, key: Key, next: Option<Queued>, rule: Rule)
    requires Clean(s, rule) && (next.Some? ==> CleanText(next.value.text, key, rule))
    ensures Clean(ScheduleNext(s, key, next), rule)
    ensures Clean(ScheduleNext(RunPendingSwitch(s), key, next), rule)
  {
    CleanSame(s, RunPendingSwitch(s), rule);
    hide Clean, RunPendingSwitch;
    if next.Some? {
      CleanAdd(s, Scheduled(key, next.value.text), rule);
      CleanAdd(RunPendingSwitch(s), Scheduled(key, next.value.text), rule);
    }
  }

  lemma CleanRelease(s: Host, t: TaskId, id: RuntimeId, r: Runtime, rule: Rule)
    requires Clean(s, rule) && t < |s.tasks| && id < |s.runtimes| && CleanRuntime(r, rule)
    ensures Clean(Finish(SetRuntime(s, id, r), t), rule)
  {
    CleanSet(s, id, r, rule);
    CleanFinish(SetRuntime(s, id, r), t, rule);
  }

  lemma CleanFinishTurn(s: Host, t: TaskId, rule: Rule)
    requires Owned(s) && Clean(s, rule) && t < |s.tasks| && s.tasks[t].Running?
    ensures Clean(FinishTurn(s, t), rule)
  {
    LatchOf(s, t);
    var task := s.tasks[t];
    var r := s.runtimes[task.rt];
    CleanAt(s, task.rt, rule);
    RouteClean(r.agent.steering, Routing(r.queue, [], []), Closing(s), task.sk, rule);
    var routed := Route(r.agent.steering, Routing(r.queue, [], []), Closing(s));
    var r1 := r.(turn := None, queue := routed.queue, agent := r.agent.(steering := routed.steering));
    CleanRelease(s, t, task.rt, r1, rule);
    hide Clean, PoolOwned, TurnsPooled, LatchesOwned, MutationsSerial, DrainsHonest, LaunchesResolve;
    var s1 := Finish(SetRuntime(s, task.rt, r1), t);
    var s2 := s1.(peerWakes := if Resteered in routed.fates then s1.peerWakes + {task.sk} else s1.peerWakes);
    CleanSame(s1, s2, rule);
    CleanNext(s2, task.rt, rule);
    var (s3, next) := TakeNext(s2, task.rt);
    var s4 := if task.sk != s3.activeKey && s3.spawns && next.None? then Evict(s3, task.sk, task.rt) else s3;
    CleanSame(s3, s4, rule);
    CleanFollowUp(s4, task.sk, next, rule);
  }

  lemma CleanAbandon(s: Host, t: TaskId, rule: Rule)
    requires Owned(s) && Clean(s, rule) && t < |s.tasks| && s.tasks[t].Validating?
    ensures Clean(Abandon(s, t), rule)
  {
    LatchOf(s, t);
    var task := s.tasks[t];
    var r1 := s.runtimes[task.rt].(turn := None);
    CleanAt(s, task.rt, rule);
    CleanRelease(s, t, task.rt, r1, rule);
    hide Clean, PoolOwned, TurnsPooled, LatchesOwned, MutationsSerial, DrainsHonest, LaunchesResolve;
    var s1 := Finish(SetRuntime(s, task.rt, r1), t);
    CleanNext(s1, task.rt, rule);
    var (s2, next) := TakeNext(s1, task.rt);
    var s3 := RunPendingSwitch(s2);
    CleanSame(s2, s3, rule);
    CleanFollowUp(s3, task.key, next, rule);
    var s4 := Evict(s3, task.key, task.rt);
    CleanSame(s3, s4, rule);
    CleanFollowUp(s4, task.key, next, rule);
  }

  lemma CleanPolicy(s: Host, t: TaskId, outcome: PolicyOutcome, rule: Rule)
    requires Owned(s) && Clean(s, rule) && t < |s.tasks| && s.tasks[t].Validating?
    ensures Clean(PolicyReturn(s, t, outcome), rule)
  {
    LatchOf(s, t);
    var task := s.tasks[t];
    CleanAbandon(s, t, rule);
    CleanAt(s, task.rt, rule);
    CleanRelease(s, t, task.rt, s.runtimes[task.rt].(turn := None), rule);
    CleanBegin(s, t, rule);
    hide Clean, Abandon, BeginRun, PoolOwned, TurnsPooled, LatchesOwned, MutationsSerial, DrainsHonest;
  }

  lemma CleanBegin(s: Host, t: TaskId, rule: Rule)
    requires Wf(s) && Clean(s, rule) && t < |s.tasks| && s.tasks[t].Validating?
    ensures Clean(BeginRun(s, t), rule)
  {
    var task := s.tasks[t];
    assert CleanTask(task, rule);
    CleanAt(s, task.rt, rule);
  }

  // ---------------------------------------------------------------------------------------
  // Inputs
  // ---------------------------------------------------------------------------------------

  lemma CleanDeliver(s: Host, mode: DeliveryMode, body: string, rule: Rule)
    requires Owned(s) && Clean(s, rule) && Text(User, s.activeKey, body) in rule.given
    ensures Clean(DeliverInput(s, mode, body), rule)
  {
    var key := s.activeKey;
    var text := Text(User, key, body);
    CleanStart(s, key, text, None, rule);
    if key in s.pool {
      var id := s.pool[key];
      var r := s.runtimes[id];
      assert r.agent.sessionKey == key;
      CleanAt(s, id, rule);
      CleanSet(s, id, r.(queue := r.queue + [Queued(text, User)]), rule);
      CleanSet(s, id, r.(agent := r.agent.(steering := r.agent.steering + [Steer(text, User, false)])), rule);
    }
    hide Clean, StartTurn, PoolOwned, TurnsPooled, LatchesOwned, MutationsSerial, DrainsHonest;
  }

  lemma CleanPeer(s: Host, target: Key, body: string, deviceKnown: bool, accepted: bool, rule: Rule)
    requires Owned(s) && Clean(s, rule) && Text(Peer, target, body) in rule.given
    ensures Clean(DeliverPeer(s, target, body, deviceKnown, accepted), rule)
  {
    if target in s.pool {
      var id := s.pool[target];
      var r := s.runtimes[id];
      var steer := Steer(Text(Peer, target, body), Peer, deviceKnown);
      assert r.agent.sessionKey == target;
      CleanAt(s, id, rule);
      var s1 := SetRuntime(s, id, r.(agent := r.agent.(steering := r.agent.steering + [steer])));
      CleanSet(s, id, r.(agent := r.agent.(steering := r.agent.steering + [steer])), rule);
      CleanSame(s1, SchedulePeerWake(s1, target), rule);
    }
    hide Clean, PoolOwned, TurnsPooled, LatchesOwned, MutationsSerial, DrainsHonest;
  }

  lemma CleanWake(s: Host, key: Key, rule: Rule)
    requires Wf(s) && Clean(s, rule) && Text(HostPrompt, key, WAKE_PROMPT) in rule.given
    ensures key in s.peerWakes ==> Clean(WakePeer(s, key), rule)
  {
    var s1 := s.(peerWakes := s.peerWakes - {key});
    CleanSame(s, s1, rule);
    assert Wf(s1);
    CleanStart(s1, key, Text(HostPrompt, key, WAKE_PROMPT), None, rule);
    hide Clean, StartTurn;
  }

  lemma CleanResume(s: Host, body: string, rule: Rule)
    requires Wf(s) && Clean(s, rule) && Text(HostPrompt, s.activeKey, body) in rule.given
    ensures Clean(AutoResume(s, body), rule)
  {
    CleanStart(s, s.activeKey, Text(HostPrompt, s.activeKey, body), None, rule);
    hide Clean, StartTurn;
  }

  /** The runtime after extension results were delivered to it is still clean. */
  lemma CleanExternal(s: Host, key: Key, rule: Rule)
    requires Wf(s) && Clean(s, rule)
    requires key in s.pool ==> s.runtimes[s.pool[key]].agent.sessionKey == key
    ensures Clean(DeliverExternal(s, key), rule)
  {
    if key in s.pool && key in s.inbox && s.inbox[key] != [] {
      var events := s.inbox[key];
      var s1 := s.(inbox := s.inbox - {key});
      var id := s.pool[key];
      var r := s.runtimes[id];
      CleanAt(s, id, rule);
      assert Clean(s1, rule);
      var fits := Fitting(AsQueued(events), |r.queue|);
      var queue := r.queue + fits;
      var r1 := r.(agent := r.agent.(steering := r.agent.steering + Fitting(AsSteers(events), |r.agent.steering|)));
      assert CleanRuntime(r1, rule);
      assert CleanRuntime(r.(queue := queue), rule);
      CleanSet(s1, id, r1, rule);
      CleanSet(s1, id, r.(queue := queue), rule);
      if |fits| >= |events| {
        assert CleanText(queue[0].text, key, rule);
        assert CleanRuntime(r.(queue := queue[1..]), rule);
        CleanSet(s1, id, r.(queue := queue[1..]), rule);
        CleanFollowUp(SetRuntime(s1, id, r.(queue := queue[1..])), key, Some(queue[0]), rule);
      }
      hide Clean;
    }
  }

  lemma CleanPublish(s: Host, key: Key, body: string, rule: Rule)
    requires Owned(s) && Clean(s, rule) && Text(Extension, key, body) in rule.given
    ensures Clean(PublishExternal(s, key, body), rule)
  {
    var pending := if key in s.inbox then s.inbox[key] else [];
    var s1 := s.(inbox := s.inbox[key := pending + [Text(Extension, key, body)]]);
    assert Clean(s1, rule) && Wf(s1);
    CleanExternal(s1, key, rule);
    hide Clean, DeliverExternal;
  }

  // ---------------------------------------------------------------------------------------
  // Session mutations
  // ---------------------------------------------------------------------------------------

  lemma CleanFocus(s: Host, switch: Switch, rule: Rule)
    requires Owned(s) && Clean(s, rule) && s.mutations != []
    ensures Clean(Focus(s, switch), rule)
  {
    var s1 := s.(activeKey := switch.target);
    assert Wf(s1);
    CleanSame(s, s1, rule);
    if switch.target in s.pool {
      CleanExternal(s1, switch.target, rule);
      CleanSame(DeliverExternal(s1, switch.target), Settle(DeliverExternal(s1, switch.target)), rule);
    } else {
      hide DeliverExternal;
      CleanSame(s, Focus(s, switch), rule);
    }
    hide Clean, DeliverExternal, PoolOwned, TurnsPooled, LatchesOwned, MutationsSerial, DrainsHonest, LaunchesResolve;
  }

  lemma CleanClearQueues(s: Host, rule: Rule)
    requires Clean(s, rule)
    ensures Clean(ClearQueues(s), rule)
  {}

  lemma CleanStartHead(s: Host, uuids: seq<string>, rule: Rule)
    requires Owned(s) && Clean(s, rule) && s.mutations != [] && s.mutations[0].phase.Waiting?
    ensures Clean(StartHead(s, uuids), rule)
  {
    CleanSame(s, Settle(s), rule);
    CleanClearQueues(s, rule);
    hide Clean, Focus, ClearQueues, PoolOwned, TurnsPooled, LatchesOwned, MutationsSerial, DrainsHonest;
    hide LaunchesResolve;
    match s.mutations[0].request
    case NewSession =>
      var minted := Mint(s, uuids, MINT_ATTEMPTS);
      if minted.Some? { CleanFocus(s, Switch(minted.value, FreshStart), rule); }
    case ResumeSession(key) =>
      CleanFocus(s, Switch(key, LazyResume), rule);
      CleanFocus(s, Switch(key, FreshStart), rule);
    case DeferredSwitch(switch) => CleanFocus(s, switch, rule);
    case RebindTenant =>
      var s1 := ClearQueues(s);
      CleanSame(s1, SetPhase(s1.(tenantRebinding := true, pendingSwitch := None), StoppingTurns(s.activeKey)), rule);
    case BindLearning(binding) => CleanSame(s, SetPhase(s, AwaitingIdle(binding)), rule);
  }

  /** A runtime holds inputs that were accepted for the session it serves now. */
  predicate Leftover(r: Runtime) {
    r.queue != [] || r.agent.steering != []
  }

  lemma CleanRetarget(s: Host, id: RuntimeId, switch: Switch, outcome: InstallOutcome, rule: Rule)
    requires Wf(s) && Clean(s, rule) && s.mutations != [] && id < |s.runtimes|
    requires rule.home ==> !Leftover(s.runtimes[id])
    ensures Clean(Retarget(s, id, switch, outcome), rule)
  {
    var r := s.runtimes[id];
    var r1 := r.(agent := r.agent.(sessionKey := switch.target), pendingHistoryKey := None);
    var r2 := Retargeted(r, switch);
    CleanAt(s, id, rule);
    assert CleanRuntime(r1, rule) && CleanRuntime(r2, rule);
    CleanSet(s, id, r1, rule);
    CleanSet(s, id, r2, rule);
    var s1 := SetRuntime(s, id, r2).(pool := s.pool[switch.target := id], activeKey := switch.target);
    CleanSame(SetRuntime(s, id, r2), s1, rule);
    CleanExternal(s1, switch.target, rule);
    hide Clean, DeliverExternal;
    CleanSame(SetRuntime(s, id, r1), Settle(SetRuntime(s, id, r1)), rule);
    PassiveExternal(s1, switch.target);
    CleanSame(DeliverExternal(s1, switch.target), Settle(DeliverExternal(s1, switch.target)), rule);
  }

  /** The step hands a runtime that still holds inputs of its old session to another session. */
  predicate Carries(s: Host, e: Event) {
    && e.TargetDrained?
    && s.mutations != []
    && var p := s.mutations[0].phase;
       && p.AwaitingTarget? && p.reused.Some? && p.snapshot !! s.drains
       && p.reused.value < |s.runtimes| && Leftover(s.runtimes[p.reused.value])
  }

  lemma CleanInstall(s: Host, outcome: InstallOutcome, rule: Rule)
    requires Owned(s) && Clean(s, rule) && s.mutations != [] && s.mutations[0].phase.AwaitingTarget?
    requires rule.home ==> !Carries(s, TargetDrained(outcome))
    ensures Clean(Install(s, outcome), rule)
  {
    var p := s.mutations[0].phase;
    var s1 := s.(runtimes := s.runtimes + [FreshRuntime(p.switch.target)]);
    assert CleanRuntime(FreshRuntime(p.switch.target), rule);
    assert Clean(s1, rule) && Wf(s1);
    CleanSame(s, Settle(s), rule);
    hide Clean, Retarget, PoolOwned, TurnsPooled, LatchesOwned, MutationsSerial, DrainsHonest, LaunchesResolve;
    if p.snapshot !! s.drains {
      if p.reused.Some? {
        CleanRetarget(s, p.reused.value, p.switch, outcome, rule);
      } else {
        CleanRetarget(s1, |s.runtimes|, p.switch, outcome, rule);
      }
    }
  }

  lemma CleanReplacement(s: Host, installed: bool, rule: Rule)
    requires Owned(s) && Clean(s, rule) && s.mutations != [] && s.mutations[0].phase.Replacing?
    ensures Clean(InstallReplacement(s, installed), rule)
  {}

  lemma CleanLearning(s: Host, rule: Rule)
    requires Wf(s) && Clean(s, rule) && s.mutations != [] && s.mutations[0].phase.AwaitingIdle?
    ensures Clean(PollLearning(s), rule)
  {
    if !PoolRunning(s) {
      var s1 := BindPool(s, s.mutations[0].phase.binding);
      forall id | 0 <= id < |s1.runtimes| ensures CleanRuntime(s1.runtimes[id], rule) { CleanAt(s, id, rule); }
      CleanSame(s1, Settle(s1), rule);
    }
  }

  lemma CleanAdmits(s: Host, id: RuntimeId, n: nat, rule: Rule)
    requires Clean(s, rule) && id < |s.runtimes| && n <= |s.runtimes[id].agent.steering|
    ensures Clean(SetRuntime(s, id, s.runtimes[id].(agent :=
      s.runtimes[id].agent.(steering := s.runtimes[id].agent.steering[n..]))), rule)
  {
    CleanAt(s, id, rule);
  }

  // ---------------------------------------------------------------------------------------
  // Every step
  // ---------------------------------------------------------------------------------------

  /** A suspended start goes on. */
  lemma CleanResumed(s: Host, e: Event, rule: Rule)
    requires Owned(s) && Clean(s, rule) && (e.TailSettled? || e.ScheduledStart? || e.IntentIssued?)
    requires e.task < |s.tasks| && !InFlight(s.tasks[e.task])
    ensures Clean(Step(s, e), rule)
  {
    assert CleanTask(s.tasks[e.task], rule);
    ResumeKeepsOwned(s, e.task);
    CleanFinish(s, e.task, rule);
    hide Clean, PoolOwned, TurnsPooled, LatchesOwned, MutationsSerial, DrainsHonest, LaunchesResolve, Wf, StartTurn;
    hide Reserve;
    var s1 := Finish(s, e.task);
    match s.tasks[e.task]
    case WaitingStart(key, text, launch, _) => CleanStart(s1, key, text, launch, rule);
    case Issuing(key, rt, text, at) => CleanStart(s1, key, text, Some(Launch(rt, at, e.task)), rule);
    case Scheduled(key, text) => CleanStart(s1, key, text, None, rule);
    case Done =>
  }

  lemma CleanTurnEvent(s: Host, e: Event, rule: Rule)
    requires Owned(s) && Clean(s, rule)
    requires e.TailSettled? || e.PolicyReturned? || e.TurnReturned? || e.ScheduledStart? || e.IntentIssued?
    ensures Clean(Step(s, e), rule)
  {
    hide Clean, PoolOwned, TurnsPooled, LatchesOwned, MutationsSerial, DrainsHonest, LaunchesResolve, Wf;
    hide StartTurn, Reserve, FinishTurn, PolicyReturn;
    if e.task < |s.tasks| {
      match e
      case TurnReturned(t) => if s.tasks[t].Running? { CleanFinishTurn(s, t, rule); }
      case PolicyReturned(t, outcome) => if s.tasks[t].Validating? { CleanPolicy(s, t, outcome, rule); }
      case TailSettled(t) => if s.tasks[t].WaitingStart? { CleanResumed(s, e, rule); }
      case ScheduledStart(t) => if s.tasks[t].Scheduled? { CleanResumed(s, e, rule); }
      case IntentIssued(t, _) => if s.tasks[t].Issuing? { CleanResumed(s, e, rule); }
    }
  }

  lemma CleanReviewed(s: Host, body: string, rule: Rule)
    requires Wf(s) && Clean(s, rule) && Text(User, s.activeKey, body) in rule.given
    ensures Clean(BeginReviewed(s, body), rule)
  {}

  /** Events that touch no text. */
  predicate Silent(e: Event) {
    || e.Interrupt? || e.Revoke? || e.Submit? || e.CurrentDrained? || e.RebindPoll? || e.PoolDrained?
    || e.DrainSettled? || e.Shutdown? || e.ShutdownDrain? || e.TranscriptWritten? || e.TranscriptLost?
  }

  predicate SameText(s: Host, s': Host) {
    s'.runtimes == s.runtimes && s'.tasks == s.tasks && s'.inbox == s.inbox
  }

  lemma PollKeepsText(s: Host, deadline: bool)
    requires Wf(s) && s.mutations != []
    ensures s.mutations[0].phase.StoppingTurns? ==> SameText(s, PollTurns(s, deadline))
    ensures s.mutations[0].phase.ParkingCurrent? ==> SameText(s, ParkedCurrent(s))
    ensures s.mutations[0].phase.DrainingPool? ==> SameText(s, RequestReplacement(s))
  {
    hide Wf, PoolRunning;
  }

  lemma SilentKeepsText(s: Host, e: Event)
    requires Owned(s) && Silent(e)
    ensures SameText(s, Step(s, e))
  {
    hide PoolOwned, TurnsPooled, LatchesOwned, MutationsSerial, DrainsHonest, LaunchesResolve, PollTurns, ParkedCurrent;
    hide RequestReplacement, DeliverInput, DeliverPeer, WakePeer, AutoResume, PublishExternal, BeginReviewed, Reserve;
    hide StartTurn, PolicyReturn, FinishTurn, IntentReturn, StartHead, Install, InstallReplacement, PollLearning;
    if e.CurrentDrained? || e.RebindPoll? || e.PoolDrained? {
      hide Wf;
      if s.mutations != [] { PollKeepsText(s, e.RebindPoll? && e.deadline); }
    }
  }

  lemma CleanOtherEvent(s: Host, e: Event, rule: Rule)
    requires Owned(s) && Clean(s, rule)
    requires !(e.TailSettled? || e.PolicyReturned? || e.TurnReturned? || e.ScheduledStart? || e.IntentIssued?)
    requires (rule.home ==> !Carries(s, e)) && (forall x <- EventTexts(s, e) :: x in rule.given)
    ensures Clean(Step(s, e), rule)
  {
    hide Clean, PoolOwned, TurnsPooled, LatchesOwned, MutationsSerial, DrainsHonest, LaunchesResolve, Wf;
    hide DeliverInput, DeliverPeer, WakePeer, AutoResume, PublishExternal, BeginReviewed, Carries;
    hide StartHead, Install, InstallReplacement, PollLearning, PoolRunning;
    if Silent(e) {
      SilentKeepsText(s, e);
      hide Step, Silent;
      CleanSame(s, Step(s, e), rule);
    } else {
      match e
      case Deliver(mode, body) => CleanDeliver(s, mode, body, rule);
      case AgentAdmits(id, n) =>
        if id < |s.runtimes| && n <= |s.runtimes[id].agent.steering| {
          CleanAdmits(s, id, n, rule);
        }
      case PeerMessage(target, body, deviceKnown, accepted) =>
        CleanPeer(s, target, body, deviceKnown, accepted, rule);
      case PeerWake(key) => CleanWake(s, key, rule);
      case Publish(key, body) => CleanPublish(s, key, body, rule);
      case ResumeTimer(body) => CleanResume(s, body, rule);
      case ReviewedStart(body) => CleanReviewed(s, body, rule);
      case HeadStarts(uuids) =>
        if s.mutations != [] && s.mutations[0].phase.Waiting? {
          CleanStartHead(s, uuids, rule);
        }
      case TargetDrained(outcome) =>
        if s.mutations != [] && s.mutations[0].phase.AwaitingTarget? {
          CleanInstall(s, outcome, rule);
        }
      case ReplacementReturned(installed) =>
        if s.mutations != [] && s.mutations[0].phase.Replacing? {
          CleanReplacement(s, installed, rule);
        }
      case LearningPoll => if s.mutations != [] && s.mutations[0].phase.AwaitingIdle? { CleanLearning(s, rule); }
    }
  }

  /** No step lets peer text become a prompt; and none misaddresses an input unless it carries leftovers. */
  lemma StepKeepsClean(s: Host, e: Event, rule: Rule)
    requires Owned(s) && Clean(s, rule)
    requires (rule.home ==> !Carries(s, e)) && (forall x <- EventTexts(s, e) :: x in rule.given)
    ensures Clean(Step(s, e), rule)
  {
    if e.TailSettled? || e.PolicyReturned? || e.TurnReturned? || e.ScheduledStart? || e.IntentIssued? {
      CleanTurnEvent(s, e, rule);
    } else {
      CleanOtherEvent(s, e, rule);
    }
  }

  /** Leftovers do follow the runtime: right after such a step some input sits in a session it was not addressed to. */
  lemma CarriedInputIsMisaddressed(s: Host, e: Event)
    requires Owned(s) && Clean(s, HOME) && Carries(s, e)
    ensures !Clean(Step(s, e), HOME)
  {
    var p := s.mutations[0].phase;
    var id := p.reused.value;
    var r := s.runtimes[id];
    UnpooledIsIdle(s, id);
    CleanAt(s, id, HOME);
    RetargetCarries(s, id, p.switch, e.install);
    hide Clean, Retarget, PoolOwned, TurnsPooled, LatchesOwned, MutationsSerial, DrainsHonest, LaunchesResolve;
  }

  lemma UnpooledIsIdle(s: Host, id: RuntimeId)
    requires Owned(s) && s.mutations != [] && s.mutations[0].phase.AwaitingTarget?
    requires s.mutations[0].phase.reused == Some(id)
    ensures id < |s.runtimes| && s.runtimes[id].turn == None
    ensures s.runtimes[id].agent.sessionKey != s.mutations[0].phase.switch.target
  {}

  /** What the retargeted runtime and the continuations look like afterwards. */
  lemma RetargetKeepsLeftovers(s: Host, id: RuntimeId, switch: Switch, outcome: InstallOutcome)
    requires Wf(s) && s.mutations != [] && id < |s.runtimes| && s.runtimes[id].turn == None
    ensures var r, s' := s.runtimes[id], Retarget(s, id, switch, outcome);
      && id < |s'.runtimes| && s'.runtimes[id].agent.sessionKey == switch.target
      && s'.runtimes[id].agent.steering == r.agent.steering
      && (r.queue != [] ==>
           || (s'.runtimes[id].queue != [] && s'.runtimes[id].queue[0] == r.queue[0])
           || s'.tasks == s.tasks + [Scheduled(switch.target, r.queue[0].text)])
  {
    hide Wf;
  }

  lemma RetargetCarries(s: Host, id: RuntimeId, switch: Switch, outcome: InstallOutcome)
    requires Wf(s) && s.mutations != [] && id < |s.runtimes| && s.runtimes[id].turn == None
    requires CleanRuntime(s.runtimes[id], HOME) && Leftover(s.runtimes[id])
    requires s.runtimes[id].agent.sessionKey != switch.target
    ensures !Clean(Retarget(s, id, switch, outcome), HOME)
  {
    hide Retarget, Wf;
    RetargetKeepsLeftovers(s, id, switch, outcome);
    var r := s.runtimes[id];
    var s' := Retarget(s, id, switch, outcome);
    var r' := s'.runtimes[id];
    if r.agent.steering != [] {
      assert CleanSteer(r.agent.steering[0], r.agent.sessionKey, HOME);
      assert !CleanSteer(r'.agent.steering[0], r'.agent.sessionKey, HOME);
    } else {
      assert CleanText(r.queue[0].text, r.agent.sessionKey, HOME);
      if r'.queue != [] && r'.queue[0] == r.queue[0] {
        assert !CleanText(r'.queue[0].text, r'.agent.sessionKey, HOME);
      } else {
        assert !CleanTask(s'.tasks[|s.tasks|], HOME);
      }
    }
  }

  /**
   * From a state whose inputs are all addressed properly, a step keeps it so exactly when it carries no
   * leftovers over.
   */
  lemma StepAddressedExactly(s: Host, e: Event)
    requires Owned(s) && Clean(s, HOME)
    ensures Clean(Step(s, e), HOME) <==> !Carries(s, e)
  {
    hide Clean, Carries, Step, PoolOwned, TurnsPooled, LatchesOwned, MutationsSerial, DrainsHonest, LaunchesResolve, Wf;
    if Carries(s, e) {
      CarriedInputIsMisaddressed(s, e);
    } else {
      StepKeepsClean(s, e, HOME);
    }
  }

  /**
   * When the input queue has no room for the leftover steers, the end of the turn stops there: the
   * steers before the first that found it full went their way in order, that one and the rest are lost,
   * no follow-up is scheduled, no deferred switch runs, and a background runtime stays pooled.
   */
  lemma OverflowSkipsTheRest(s: Host, t: TaskId)
    requires Wf(s) && t < |s.tasks| && s.tasks[t].Running?
    requires var r := s.runtimes[s.tasks[t].rt]; !Fits(r.agent.steering, r.queue, Closing(s))
    ensures var s' := FinishTurn(s, t);
      && s'.tasks == s.tasks[t := Done] && s'.pool == s.pool && s'.pendingSwitch == s.pendingSwitch
      && s'.mutations == s.mutations && s'.drains == s.drains && !s'.runtimes[s.tasks[t].rt].Running()
    ensures var r, r' := s.runtimes[s.tasks[t].rt], FinishTurn(s, t).runtimes[s.tasks[t].rt];
      var n := |Route(r.agent.steering, Routing(r.queue, [], []), Closing(s)).fates|;
      && n < |r.agent.steering| && r.agent.steering[n].source != Peer && |r'.queue| >= MAX_PENDING_SESSION_INPUTS
      && r'.queue == r.queue + Requeueable(r.agent.steering[..n])
      && r'.agent.steering == Resteerable(r.agent.steering[..n])
  {
    var r := s.runtimes[s.tasks[t].rt];
    RouteCompletes(r.agent.steering, Routing(r.queue, [], []), Closing(s));
    RouteTakes(r.agent.steering, Routing(r.queue, [], []), Closing(s));
    hide Route, Fits, Requeueable, Resteerable;
    assert [] + Resteerable(r.agent.steering) == Resteerable(r.agent.steering);
  }
}
