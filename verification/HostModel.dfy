/**
 * The desktop session host as a transition system (brainrouter-desktop/electron/hostCore.ts).
 *
 * Code between two `await`s runs to completion, so every such stretch is one function from a
 * `Host` to the next `Host`, and every promise the host waits for is an `Event` that may arrive
 * in any order. Runtimes and continuations live in append-only sequences, so an index is an
 * object identity. A runtime and its agent are created together and never separated, so one
 * index stands for both.
 */
module HostModel {
  import opened Common

  type Key = s: string | s != "" witness "workspace:session"
  type RuntimeId = nat
  type TaskId = nat

  /** Depth of the input queue and of the agent's steering queue. */
  const MAX_PENDING_SESSION_INPUTS := 100

  /** The hidden prompt of a peer wake; it carries no peer text. */
  const WAKE_PROMPT := "Continue after admitting the pending peer-session observation."

  /** Mint attempts made before a new session is refused. */
  const MINT_ATTEMPTS := 8

  datatype Source = User | Extension | Peer | HostPrompt

  /** A piece of text: where it came from and which session it was addressed to. */
  datatype Text = Text(origin: Source, addressed: Key, body: string)

  /** An entry of a session's input queue, with the label the code attached to it. */
  datatype Queued = Queued(text: Text, source: Source)

  /** A steer the agent has accepted but not yet shown to the model. */
  datatype Steer = Steer(text: Text, source: Source, deviceKnown: bool)

  /** `history` is the set of sessions whose conversation is in the agent's memory. */
  datatype Agent = Agent(sessionKey: Key, history: set<Key>, steering: seq<Steer>, learning: int)

  /** `turn` is the `running` latch together with the continuation that took it. */
  datatype Runtime = Runtime(agent: Agent, turn: Option<TaskId>, queue: seq<Queued>, pendingHistoryKey: Option<Key>) {
    predicate Running() {
      turn.Some?
    }
  }

  /** What a session switch does to the runtime it installs. */
  datatype Init = FreshStart | LazyResume

  datatype Switch = Switch(target: Key, init: Init)

  datatype Request =
    | NewSession
    | ResumeSession(key: Key)
    | DeferredSwitch(switch: Switch)
    | RebindTenant
    | BindLearning(binding: int)

  /** Where the session mutation at the head of the queue is waiting. */
  datatype Phase =
    | Waiting
    | ParkingCurrent(rt: RuntimeId, switch: Switch)
    | AwaitingTarget(reused: Option<RuntimeId>, switch: Switch, snapshot: set<Drain>)
    | StoppingTurns(home: Key)
    | DrainingPool(home: Key)
    | Replacing(home: Key)
    | AwaitingIdle(binding: int)

  datatype Mutation = Mutation(request: Request, phase: Phase)

  /** An `endSession` checkpoint in flight. */
  datatype Drain = Drain(rt: RuntimeId, key: Key)

  /**
   * Authority captured by a reviewed launch: its agent, the generation it saw, and the continuation
   * that awaited its issuer, which stands for the handle that issuer returned.
   */
  datatype Launch = Launch(rt: RuntimeId, at: nat, review: TaskId)

  /** Continuations: code suspended at an `await` or handed to `setImmediate`. */
  datatype Task =
    | Done
    | Issuing(key: Key, rt: RuntimeId, text: Text, at: nat)
    | WaitingStart(key: Key, text: Text, launch: Option<Launch>, until: nat)
    | Scheduled(key: Key, text: Text)
    | Validating(key: Key, rt: RuntimeId, text: Text, launch: Option<Launch>, reservedAt: nat)
    | Running(key: Key, rt: RuntimeId, text: Text, launch: Option<Launch>, sk: Key, calledAt: nat, loaded: Option<Key>)

  /** Events that advance the runtime authority generation, in order. */
  datatype Authority =
    | MutationQueued
    | TurnReserved(key: Key, task: TaskId)
    | Interrupted
    | Revoked

  datatype Host = Host(
    spawns: bool,
    runtimes: seq<Runtime>,
    pool: map<Key, RuntimeId>,
    activeKey: Key,
    shuttingDown: bool,
    tenantRebinding: bool,
    mutations: seq<Mutation>,
    submitted: seq<Request>,
    settled: nat,
    authority: seq<Authority>,
    pendingSwitch: Option<Switch>,
    drains: set<Drain>,
    peerWakes: set<Key>,
    inbox: map<Key, seq<Text>>,
    transcripts: set<Key>,
    tasks: seq<Task>
  )

  datatype DeliveryMode = Immediate | QueueMode | SteerMode
  datatype PolicyOutcome = Allowed | Refused | Threw
  datatype InstallOutcome = Installed | SpawnThrew | ConfigThrew

  datatype Event =
    | Deliver(mode: DeliveryMode, body: string)
    | TailSettled(task: TaskId)
    | PolicyReturned(task: TaskId, outcome: PolicyOutcome)
    | TurnReturned(task: TaskId)
    | ScheduledStart(task: TaskId)
    | AgentAdmits(rt: RuntimeId, count: nat)
    | PeerMessage(target: Key, body: string, deviceKnown: bool, accepted: bool)
    | PeerWake(key: Key)
    | Publish(key: Key, body: string)
    | ResumeTimer(body: string)
    | ReviewedStart(body: string)
    | IntentIssued(task: TaskId, ok: bool)
    | Interrupt
    | Revoke
    | Submit(request: Request)
    | HeadStarts(uuids: seq<string>)
    | CurrentDrained
    | TargetDrained(install: InstallOutcome)
    | RebindPoll(deadline: bool)
    | PoolDrained
    | ReplacementReturned(installed: bool)
    | LearningPoll
    | DrainSettled(drain: Drain)
    | Shutdown
    | ShutdownDrain
    | TranscriptWritten(key: Key)
    | TranscriptLost(key: Key)

  // ---------------------------------------------------------------------------------------
  // Vocabulary
  // ---------------------------------------------------------------------------------------

  predicate InFlight(t: Task) {
    t.Validating? || t.Running?
  }

  predicate Closing(s: Host) {
    s.shuttingDown || s.tenantRebinding
  }

  predicate Rebinding(p: Phase) {
    p.StoppingTurns? || p.DrainingPool? || p.Replacing?
  }

  /** The value of `runtimeAuthorityGeneration`. */
  function Generation(s: Host): nat {
    |s.authority|
  }

  /** References resolve: every index held anywhere names an existing runtime. */
  ghost predicate Wf(s: Host) {
    && (forall k <- s.pool :: s.pool[k] < |s.runtimes|)
    && (forall d <- s.drains :: d.rt < |s.runtimes|)
    && (forall t :: 0 <= t < |s.tasks| && (s.tasks[t].Issuing? || InFlight(s.tasks[t])) ==>
        s.tasks[t].rt < |s.runtimes|)
    && (forall i :: 0 <= i < |s.mutations| && s.mutations[i].phase.ParkingCurrent? ==>
        s.mutations[i].phase.rt < |s.runtimes|)
    && (forall i ::
          0 <= i < |s.mutations| && s.mutations[i].phase.AwaitingTarget? && s.mutations[i].phase.reused.Some? ==>
            s.mutations[i].phase.reused.value < |s.runtimes|)
  }

  predicate PoolRunning(s: Host)
    requires forall k <- s.pool :: s.pool[k] < |s.runtimes|
  {
    exists k <- s.pool :: s.runtimes[s.pool[k]].Running()
  }

  function AddTask(s: Host, t: Task): Host {
    s.(tasks := s.tasks + [t])
  }

  function Finish(s: Host, t: TaskId): Host
    requires t < |s.tasks|
  {
    s.(tasks := s.tasks[t := Done])
  }

  function SetRuntime(s: Host, id: RuntimeId, r: Runtime): Host
    requires id < |s.runtimes|
  {
    s.(runtimes := s.runtimes[id := r])
  }

  function Advance(s: Host, a: Authority): Host {
    s.(authority := s.authority + [a])
  }

  /** `runSessionMutation`: join the queue and advance the authority generation at once. */
  function Enqueue(s: Host, r: Request): Host {
    Advance(s.(mutations := s.mutations + [Mutation(r, Waiting)], submitted := s.submitted + [r]), MutationQueued)
  }

  /** The head of the mutation queue returns, normally or by throwing. */
  function Settle(s: Host): Host
    requires s.mutations != []
  {
    s.(mutations := s.mutations[1..], settled := s.settled + 1)
  }

  function SetPhase(s: Host, p: Phase): Host
    requires s.mutations != []
  {
    s.(mutations := s.mutations[0 := s.mutations[0].(phase := p)])
  }

  /** `trackSessionDrain`: one checkpoint per agent and session; a second call joins the first. */
  function Track(s: Host, id: RuntimeId): Host
    requires id < |s.runtimes|
  {
    s.(drains := s.drains + {Drain(id, s.runtimes[id].agent.sessionKey)})
  }

  function DrainsFor(s: Host, key: Key): set<Drain> {
    set d <- s.drains | d.key == key
  }

  /** `reviewedExecutionIsCurrent`. */
  predicate LaunchIsCurrent(s: Host, key: Key, launch: Launch, expected: nat)
    requires launch.rt < |s.runtimes|
  {
    && !s.shuttingDown
    && !s.tenantRebinding
    && s.pendingSwitch.None?
    && Generation(s) == expected
    && s.activeKey == key
    && key in s.pool
    && s.pool[key] == launch.rt
    && s.runtimes[launch.rt].agent.sessionKey == key
  }

  // ---------------------------------------------------------------------------------------
  // Turns
  // ---------------------------------------------------------------------------------------

  /** `startTurnForKey` up to its first await. */
  function StartTurn(s: Host, key: Key, text: Text, launch: Option<Launch>): Host
    requires Wf(s) && (launch.Some? ==> launch.value.rt < |s.runtimes|)
  {
    if s.mutations != [] then AddTask(s, WaitingStart(key, text, launch, s.settled + |s.mutations|))
    else Reserve(s, key, text, launch)
  }

  /**
   * `startTurnForKey` from the shutdown check to the policy refresh: the `running` latch is taken
   * here. The source repeats the fence right after the latch (lines 516-525); nothing runs in
   * between, and `HostFence.SecondFenceHolds` shows that the repeated check cannot fail.
   */
  function Reserve(s: Host, key: Key, text: Text, launch: Option<Launch>): Host
    requires Wf(s) && (launch.Some? ==> launch.value.rt < |s.runtimes|)
  {
    if Closing(s) then s
    else if launch.Some? && !LaunchIsCurrent(s, key, launch.value, launch.value.at) then s
    else if key !in s.pool || s.runtimes[s.pool[key]].Running() then s
    else
      var id := s.pool[key];
      var t := |s.tasks|;
      var s1 := Advance(SetRuntime(s, id, s.runtimes[id].(turn := Some(t))), TurnReserved(key, t));
      AddTask(s1, Validating(key, id, text, launch, Generation(s1)))
  }

  /** The async policy check returns and the turn is abandoned, refused or begun. */
  function PolicyReturn(s: Host, t: TaskId, outcome: PolicyOutcome): Host
    requires Wf(s) && t < |s.tasks| && s.tasks[t].Validating?
    requires s.tasks[t].launch.Some? ==> s.tasks[t].launch.value.rt < |s.runtimes|
  {
    var task := s.tasks[t];
    if task.launch.Some? && !LaunchIsCurrent(s, task.key, task.launch.value, task.reservedAt) then Abandon(s, t)
    else if outcome != Allowed then Finish(SetRuntime(s, task.rt, s.runtimes[task.rt].(turn := None)), t)
    else BeginRun(s, t)
  }

  /** The transcript that `loadHistory` is called with before `runTurn`, if any: the parked one, when it can be read. */
  function Loadable(s: Host, r: Runtime): Option<Key> {
    if r.pendingHistoryKey.Some? && r.pendingHistoryKey.value in s.transcripts then r.pendingHistoryKey else None
  }

  /** The history the agent holds when `runTurn` is called. */
  function LoadedHistory(s: Host, r: Runtime): set<Key> {
    if Loadable(s, r).Some? then {Loadable(s, r).value} else r.agent.history
  }

  /** Lazy history lands and `runTurn` is called; the turn's own conversation joins the memory. */
  function BeginRun(s: Host, t: TaskId): Host
    requires Wf(s) && t < |s.tasks| && s.tasks[t].Validating?
  {
    var task := s.tasks[t];
    var r := s.runtimes[task.rt];
    var sk := r.agent.sessionKey;
    var r' := r.(pendingHistoryKey := None, agent := r.agent.(history := LoadedHistory(s, r) + {sk}));
    SetRuntime(s, task.rt, r').(tasks := s.tasks[t :=
      Running(task.key, task.rt, task.text, task.launch, sk, Generation(s), Loadable(s, r))])
  }

  /** What became of a steer that missed the last model boundary. */
  datatype Fate = Canceled | Resteered | Requeued

  datatype Routing = Routing(queue: seq<Queued>, steering: seq<Steer>, fates: seq<Fate>)

  function FateOf(p: Steer, closing: bool): Fate {
    if closing || (p.source == Peer && !p.deviceKnown) then Canceled
    else if p.source == Peer then Resteered
    else Requeued
  }

  /** One round of the loop over pending steers. */
  function Admit(p: Steer, r: Routing, closing: bool): Routing {
    match FateOf(p, closing)
    case Canceled => Routing(r.queue, r.steering, r.fates + [Canceled])
    case Resteered => Routing(r.queue, r.steering + [p], r.fates + [Resteered])
    case Requeued => Routing(r.queue + [Queued(p.text, p.source)], r.steering, r.fates + [Requeued])
  }

  /** `enqueue` throws on a full input queue. */
  predicate Blocked(p: Steer, r: Routing, closing: bool) {
    FateOf(p, closing) == Requeued && |r.queue| >= MAX_PENDING_SESSION_INPUTS
  }

  /**
   * The loop over steers left pending at turn end. When `enqueue` throws, the rest of the loop is
   * skipped: `fates` is then shorter than `pending`.
   */
  function Route(pending: seq<Steer>, r: Routing, closing: bool): Routing {
    if pending == [] || Blocked(pending[0], r, closing) then r
    else Route(pending[1..], Admit(pending[0], r, closing), closing)
  }

  /** The `finally` block of a turn. */
  function FinishTurn(s: Host, t: TaskId): Host
    requires Wf(s) && t < |s.tasks| && s.tasks[t].Running?
  {
    var task := s.tasks[t];
    var r := s.runtimes[task.rt];
    var routed := Route(r.agent.steering, Routing(r.queue, [], []), Closing(s));
    var s1 := Finish(SetRuntime(s, task.rt,
      r.(turn := None, queue := routed.queue, agent := r.agent.(steering := routed.steering))), t);
    var s2 := s1.(peerWakes := if Resteered in routed.fates then s1.peerWakes + {task.sk} else s1.peerWakes);
    if |routed.fates| < |r.agent.steering| then s2
    else
      var (s3, next) := TakeNext(s2, task.rt);
      var s4 := if task.sk != s3.activeKey && s3.spawns && next.None? then Evict(s3, task.sk, task.rt) else s3;
      ScheduleNext(RunPendingSwitch(s4), task.sk, next)
  }

  /** `abandonReservedReviewedExecution`: give the latch back and let the session go on. */
  function Abandon(s: Host, t: TaskId): Host
    requires Wf(s) && t < |s.tasks| && s.tasks[t].Validating?
  {
    var task := s.tasks[t];
    var s1 := Finish(SetRuntime(s, task.rt, s.runtimes[task.rt].(turn := None)), t);
    var (s2, next) := TakeNext(s1, task.rt);
    var s3 := RunPendingSwitch(s2);
    var s4 := if
        && next.None?
        && task.key != s3.activeKey
        && s3.spawns
        && s3.runtimes[task.rt].queue == []
        && s3.runtimes[task.rt].agent.steering == []
        && task.key !in s3.peerWakes
        && task.key in s3.pool && s3.pool[task.key] == task.rt
      then Evict(s3, task.key, task.rt) else s3;
    ScheduleNext(s4, task.key, next)
  }

  /** Take the oldest queued input unless the host is closing. */
  function TakeNext(s: Host, id: RuntimeId): (Host, Option<Queued>)
    requires id < |s.runtimes|
  {
    var r := s.runtimes[id];
    if Closing(s) || r.queue == [] then (s, None)
    else (SetRuntime(s, id, r.(queue := r.queue[1..])), Some(r.queue[0]))
  }

  /** Drop a finished background runtime from the pool; its checkpoint drains on its own. */
  function Evict(s: Host, key: Key, id: RuntimeId): Host
    requires id < |s.runtimes|
  {
    Track(s.(pool := s.pool - {key}), id)
  }

  function RunPendingSwitch(s: Host): Host {
    if s.pendingSwitch.Some? && !s.shuttingDown then
      Enqueue(s.(pendingSwitch := None), DeferredSwitch(s.pendingSwitch.value))
    else s.(pendingSwitch := None)
  }

  function ScheduleNext(s: Host, key: Key, next: Option<Queued>): Host {
    if next.Some? then AddTask(s, Scheduled(key, next.value.text)) else s
  }

  // ---------------------------------------------------------------------------------------
  // Inputs
  // ---------------------------------------------------------------------------------------

  /** `deliverInput` for the viewed session. */
  function DeliverInput(s: Host, mode: DeliveryMode, body: string): Host
    requires Wf(s)
  {
    var key := s.activeKey;
    var text := Text(User, key, body);
    if key !in s.pool then s
    else
      var id := s.pool[key];
      var r := s.runtimes[id];
      if !r.Running() then StartTurn(s, key, text, None)
      else match mode
        case Immediate => s
        case QueueMode =>
          if |r.queue| >= MAX_PENDING_SESSION_INPUTS then s
          else SetRuntime(s, id, r.(queue := r.queue + [Queued(text, User)]))
        case SteerMode =>
          if |r.agent.steering| >= MAX_PENDING_SESSION_INPUTS then s
          else SetRuntime(s, id, r.(agent := r.agent.(steering := r.agent.steering + [Steer(text, User, false)])))
  }

  function SchedulePeerWake(s: Host, key: Key): Host {
    if Closing(s) then s else s.(peerWakes := s.peerWakes + {key})
  }

  /** `deliverPeerMessage`: peer text enters the agent's steering queue and nothing else. */
  function DeliverPeer(s: Host, target: Key, body: string, deviceKnown: bool, accepted: bool): Host
    requires Wf(s)
  {
    if Closing(s) || target !in s.pool then s
    else
      var id := s.pool[target];
      var r := s.runtimes[id];
      if !accepted || |r.agent.steering| >= MAX_PENDING_SESSION_INPUTS then s
      else
        var steer := Steer(Text(Peer, target, body), Peer, deviceKnown);
        var s1 := SetRuntime(s, id, r.(agent := r.agent.(steering := r.agent.steering + [steer])));
        if r.Running() then s1 else SchedulePeerWake(s1, target)
  }

  /** The scheduled wake: a hidden host prompt that carries no peer text. */
  function WakePeer(s: Host, key: Key): Host
    requires Wf(s) && key in s.peerWakes
  {
    var s1 := s.(peerWakes := s.peerWakes - {key});
    if key !in s.pool || s.runtimes[s.pool[key]].Running() || Closing(s) then s1
    else StartTurn(s1, key, Text(HostPrompt, key, WAKE_PROMPT),
      None)
  }

  function AsSteers(events: seq<Text>): seq<Steer> {
    seq(|events|, i requires 0 <= i < |events| => Steer(events[i], Extension, false))
  }

  function AsQueued(events: seq<Text>): seq<Queued> {
    seq(|events|, i requires 0 <= i < |events| => Queued(events[i], Extension))
  }

  /** As many leading elements as a queue that already holds `used` can still take. */
  function Fitting<T>(xs: seq<T>, used: nat): seq<T> {
    if used + |xs| <= MAX_PENDING_SESSION_INPUTS then xs
    else if used >= MAX_PENDING_SESSION_INPUTS then []
    else xs[..MAX_PENDING_SESSION_INPUTS - used]
  }

  /** `deliverExternalSteeringForKey`: extension results steer a running session or queue for an idle one. */
  function DeliverExternal(s: Host, key: Key): Host
    requires Wf(s)
  {
    if key !in s.pool || key !in s.inbox || s.inbox[key] == [] then s
    else
      var events := s.inbox[key];
      var s1 := s.(inbox := s.inbox - {key});
      var id := s.pool[key];
      var r := s.runtimes[id];
      if Closing(s) then s1
      else if r.Running() then
        SetRuntime(s1, id, r.(agent := r.agent.(steering :=
          r.agent.steering + Fitting(AsSteers(events), |r.agent.steering|))))
      else
        var fits := Fitting(AsQueued(events), |r.queue|);
        var queue := r.queue + fits;
        if |fits| < |events| then SetRuntime(s1, id, r.(queue := queue))
        else ScheduleNext(SetRuntime(s1, id, r.(queue := queue[1..])), key, Some(queue[0]))
  }

  /** An extension publishes a result; the listener delivers it when the session is pooled. */
  function PublishExternal(s: Host, key: Key, body: string): Host
    requires Wf(s)
  {
    var pending := if key in s.inbox then s.inbox[key] else [];
    if |pending| >= MAX_PENDING_SESSION_INPUTS then s
    else DeliverExternal(s.(inbox := s.inbox[key := pending + [Text(Extension, key, body)]]), key)
  }

  /** The auto-resume timer fires. */
  function AutoResume(s: Host, body: string): Host
    requires Wf(s)
  {
    if s.activeKey !in s.pool || s.runtimes[s.pool[s.activeKey]].Running() then s
    else StartTurn(s, s.activeKey, Text(HostPrompt, s.activeKey, body), None)
  }

  // ---------------------------------------------------------------------------------------
  // Reviewed launches
  // ---------------------------------------------------------------------------------------

  /** `startReviewedExecution` up to the agent's issuer: origin and generation are captured here. */
  function BeginReviewed(s: Host, body: string): Host
    requires Wf(s)
  {
    var key := s.activeKey;
    if s.mutations != [] || Closing(s) || key !in s.pool || s.runtimes[s.pool[key]].Running() then s
    else AddTask(s, Issuing(key, s.pool[key], Text(User, key, body), Generation(s)))
  }

  /** The issuer returns a handle, or fails. */
  function IntentReturn(s: Host, t: TaskId, ok: bool): Host
    requires Wf(s) && t < |s.tasks| && s.tasks[t].Issuing?
  {
    var task := s.tasks[t];
    var launch := Launch(task.rt, task.at, t);
    var s1 := Finish(s, t);
    if !ok || s.runtimes[task.rt].Running() || !LaunchIsCurrent(s, task.key, launch, launch.at) then s1
    else StartTurn(s1, task.key, task.text, Some(launch))
  }

  // ---------------------------------------------------------------------------------------
  // Session mutations
  // ---------------------------------------------------------------------------------------

  /** The part of a session key before its first colon. */
  function Prefix(key: string): string {
    key[..IndexOf(key, ':')]
  }

  function NewKey(s: Host, uuid: string): Key {
    Prefix(s.activeKey) + ":new-" + uuid
  }

  /** The first unused key among the first eight candidates. */
  function Mint(s: Host, uuids: seq<string>, attempts: nat): Option<Key>
    decreases attempts
  {
    if attempts == 0 || uuids == [] then None
    else if NewKey(s, uuids[0]) !in s.pool && NewKey(s, uuids[0]) !in s.transcripts then Some(NewKey(s, uuids[0]))
    else Mint(s, uuids[1..], attempts - 1)
  }

  /** `isUnsavedNewSessionKey`. */
  predicate IsUnsavedNew(key: string) {
    var i := IndexOf(key, ':');
    "new-" <= (if i < |key| then key[i + 1..] else key)
  }

  /** The head of the mutation queue begins. */
  function StartHead(s: Host, uuids: seq<string>): Host
    requires Wf(s) && s.mutations != [] && s.mutations[0].phase.Waiting?
  {
    match s.mutations[0].request
    case NewSession =>
      var minted := Mint(s, uuids, MINT_ATTEMPTS);
      if minted.None? then Settle(s) else Focus(s, Switch(minted.value, FreshStart))
    case ResumeSession(key) =>
      if key in s.pool || key in s.transcripts then Focus(s, Switch(key, LazyResume))
      else if IsUnsavedNew(key) then Focus(s, Switch(key, FreshStart))
      else Settle(s)
    case DeferredSwitch(switch) => Focus(s, switch)
    case RebindTenant =>
      if Closing(s) then Settle(s)
      else SetPhase(ClearQueues(s).(tenantRebinding := true, pendingSwitch := None), StoppingTurns(s.activeKey))
    case BindLearning(binding) =>
      if s.shuttingDown then Settle(s) else SetPhase(s, AwaitingIdle(binding))
  }

  /** The viewed runtime can be handed to another session: idle, with no peer boundary pending. */
  predicate Reusable(s: Host)
    requires Wf(s)
  {
    && s.activeKey in s.pool
    && !s.runtimes[s.pool[s.activeKey]].Running()
    && s.runtimes[s.pool[s.activeKey]].agent.steering == []
    && s.activeKey !in s.peerWakes
  }

  /** `focusOrCreate` with `acquireRuntime`, up to their first await. */
  function Focus(s: Host, switch: Switch): Host
    requires Wf(s) && s.mutations != []
  {
    if switch.target in s.pool then
      Settle(DeliverExternal(s.(activeKey := switch.target), switch.target))
    else if Reusable(s) then
      var id := s.pool[s.activeKey];
      SetPhase(Track(s.(pool := s.pool - {s.activeKey}), id), ParkingCurrent(id, switch))
    else if s.spawns then
      SetPhase(s, AwaitingTarget(None, switch, DrainsFor(s, switch.target)))
    else
      Settle(s.(pendingSwitch := Some(switch)))
  }

  /** The reused agent's checkpoint is done; wait for checkpoints of the target session. */
  function ParkedCurrent(s: Host): Host
    requires Wf(s) && s.mutations != [] && s.mutations[0].phase.ParkingCurrent?
  {
    var p := s.mutations[0].phase;
    if Drain(p.rt, s.runtimes[p.rt].agent.sessionKey) in s.drains then s
    else SetPhase(s, AwaitingTarget(Some(p.rt), p.switch, DrainsFor(s, p.switch.target)))
  }

  function FreshRuntime(key: Key): Runtime {
    Runtime(Agent(key, {}, [], 0), None, [], None)
  }

  /** `focusOrCreate` after `acquireRuntime`, once the awaited checkpoints are done. */
  function Install(s: Host, outcome: InstallOutcome): Host
    requires Wf(s) && s.mutations != [] && s.mutations[0].phase.AwaitingTarget?
  {
    var p := s.mutations[0].phase;
    if !(p.snapshot !! s.drains) then s
    else if p.reused.Some? then Retarget(s, p.reused.value, p.switch, outcome)
    else if outcome == SpawnThrew then Settle(s)
    else Retarget(s.(runtimes := s.runtimes + [FreshRuntime(p.switch.target)]), |s.runtimes|, p.switch, outcome)
  }

  /** The acquired runtime as the target session's runtime. */
  function Retargeted(r: Runtime, switch: Switch): Runtime {
    var agent := r.agent.(sessionKey := switch.target);
    match switch.init
    case FreshStart => r.(agent := agent.(history := {}), pendingHistoryKey := None)
    case LazyResume => r.(agent := agent, pendingHistoryKey := Some(switch.target))
  }

  /** Retarget, initialise, pool and view the runtime; a throwing model restore leaves it unpooled. */
  function Retarget(s: Host, id: RuntimeId, switch: Switch, outcome: InstallOutcome): Host
    requires Wf(s) && s.mutations != [] && id < |s.runtimes|
  {
    var r := s.runtimes[id];
    if outcome == ConfigThrew then
      Settle(SetRuntime(s, id, r.(agent := r.agent.(sessionKey := switch.target), pendingHistoryKey := None)))
    else
      var s1 := SetRuntime(s, id, Retargeted(r, switch))
        .(pool := s.pool[switch.target := id], activeKey := switch.target);
      Settle(DeliverExternal(s1, switch.target))
  }

  /** Every pooled input queue is emptied when a tenant switch begins. */
  function ClearQueues(s: Host): Host {
    s.(runtimes := seq(|s.runtimes|, i requires 0 <= i < |s.runtimes| =>
      if i in s.pool.Values then s.runtimes[i].(queue := []) else s.runtimes[i]))
  }

  /** The tenant switch waits, with a deadline, for every pooled turn to stop. */
  function PollTurns(s: Host, deadline: bool): Host
    requires Wf(s) && s.mutations != [] && s.mutations[0].phase.StoppingTurns?
  {
    if PoolRunning(s) then
      if deadline then Settle(s.(tenantRebinding := false)) else s
    else
      SetPhase(TrackPool(s), DrainingPool(s.mutations[0].phase.home))
  }

  function TrackPool(s: Host): Host
    requires Wf(s)
  {
    s.(drains := s.drains + set k <- s.pool :: Drain(s.pool[k], s.runtimes[s.pool[k]].agent.sessionKey))
  }

  /** All checkpoints have drained: the pool is emptied and the replacement is requested. */
  function RequestReplacement(s: Host): Host
    requires Wf(s) && s.mutations != [] && s.mutations[0].phase.DrainingPool?
  {
    if s.drains != {} then s
    else SetPhase(s.(pool := map[]), Replacing(s.mutations[0].phase.home))
  }

  /** The replacement (or the fallback agent) is installed, or there is none. */
  function InstallReplacement(s: Host, installed: bool): Host
    requires Wf(s) && s.mutations != [] && s.mutations[0].phase.Replacing?
  {
    var home := s.mutations[0].phase.home;
    var s1 := Settle(s.(tenantRebinding := false));
    if !installed then s1
    else
      var r := FreshRuntime(home).(pendingHistoryKey := if home in s.transcripts then Some(home) else None);
      s1.(runtimes := s.runtimes + [r], pool := s.pool[home := |s.runtimes|], activeKey := home)
  }

  /** `bindLearning`: once no pooled turn runs, every pooled agent gets the binding. */
  function PollLearning(s: Host): Host
    requires Wf(s) && s.mutations != [] && s.mutations[0].phase.AwaitingIdle?
  {
    if PoolRunning(s) then s else Settle(BindPool(s, s.mutations[0].phase.binding))
  }

  function BindPool(s: Host, binding: int): Host {
    s.(runtimes := seq(|s.runtimes|, i requires 0 <= i < |s.runtimes| =>
      if i in s.pool.Values then s.runtimes[i].(agent := s.runtimes[i].agent.(learning := binding)) else s.runtimes[i]))
  }

  // ---------------------------------------------------------------------------------------
  // One step of the host
  // ---------------------------------------------------------------------------------------

  /** Launches held by continuations name existing runtimes. */
  ghost predicate LaunchesResolve(s: Host) {
    forall t :: 0 <= t < |s.tasks| && (s.tasks[t].WaitingStart? || InFlight(s.tasks[t])) && s.tasks[t].launch.Some? ==>
      s.tasks[t].launch.value.rt < |s.runtimes|
  }

  /** What the event does; an event that is not enabled leaves the host as it is. */
  ghost function Step(s: Host, e: Event): Host
    requires Wf(s) && LaunchesResolve(s)
  {
    match e
    case Deliver(mode, body) => DeliverInput(s, mode, body)
    case TailSettled(t) =>
      if t < |s.tasks| && s.tasks[t].WaitingStart? && s.tasks[t].until <= s.settled then
        Reserve(Finish(s, t), s.tasks[t].key, s.tasks[t].text, s.tasks[t].launch)
      else s
    case PolicyReturned(t, outcome) =>
      if t < |s.tasks| && s.tasks[t].Validating? then PolicyReturn(s, t, outcome) else s
    case TurnReturned(t) =>
      if t < |s.tasks| && s.tasks[t].Running? then FinishTurn(s, t) else s
    case ScheduledStart(t) =>
      if t < |s.tasks| && s.tasks[t].Scheduled?
        then StartTurn(Finish(s, t), s.tasks[t].key, s.tasks[t].text, None) else s
    case AgentAdmits(id, n) =>
      if id < |s.runtimes| && s.runtimes[id].Running() && n <= |s.runtimes[id].agent.steering| then
        SetRuntime(s, id, s.runtimes[id].(agent :=
          s.runtimes[id].agent.(steering := s.runtimes[id].agent.steering[n..])))
      else s
    case PeerMessage(target, body, deviceKnown, accepted) => DeliverPeer(s, target, body, deviceKnown, accepted)
    case PeerWake(key) => if key in s.peerWakes then WakePeer(s, key) else s
    case Publish(key, body) => PublishExternal(s, key, body)
    case ResumeTimer(body) => AutoResume(s, body)
    case ReviewedStart(body) => BeginReviewed(s, body)
    case IntentIssued(t, ok) =>
      if t < |s.tasks| && s.tasks[t].Issuing? then IntentReturn(s, t, ok) else s
    case Interrupt => Advance(s, Interrupted)
    case Revoke => Advance(s, Revoked)
    case Submit(r) => if r.DeferredSwitch? then s else Enqueue(s, r)
    case HeadStarts(uuids) =>
      if s.mutations != [] && s.mutations[0].phase.Waiting? then StartHead(s, uuids) else s
    case CurrentDrained =>
      if s.mutations != [] && s.mutations[0].phase.ParkingCurrent? then ParkedCurrent(s) else s
    case TargetDrained(outcome) =>
      if s.mutations != [] && s.mutations[0].phase.AwaitingTarget? then Install(s, outcome) else s
    case RebindPoll(deadline) =>
      if s.mutations != [] && s.mutations[0].phase.StoppingTurns? then PollTurns(s, deadline) else s
    case PoolDrained =>
      if s.mutations != [] && s.mutations[0].phase.DrainingPool? then RequestReplacement(s) else s
    case ReplacementReturned(installed) =>
      if s.mutations != [] && s.mutations[0].phase.Replacing? then InstallReplacement(s, installed) else s
    case LearningPoll =>
      if s.mutations != [] && s.mutations[0].phase.AwaitingIdle? then PollLearning(s) else s
    case DrainSettled(d) => s.(drains := s.drains - {d})
    case Shutdown => s.(shuttingDown := true, pendingSwitch := None)
    case ShutdownDrain => if s.shuttingDown then TrackPool(s) else s
    case TranscriptWritten(key) => s.(transcripts := s.transcripts + {key})
    case TranscriptLost(key) => s.(transcripts := s.transcripts - {key})
  }

  /** A host just created around its first agent. */
  function NewHost(key: Key, spawns: bool, transcripts: set<Key>): Host {
    Host(spawns, [FreshRuntime(key)], map[key := 0], key, false, false, [], [], 0, [], None, {}, {}, map[], transcripts,
      [])
  }
}
