/**
 * Runs of a freshly created host that show which promises the code does not keep: a prompt that
 * runs in a session it was not sent to, a turn that starts from another session's conversation, and
 * an extension result that stays undelivered. `HostInputs`, `HostConversations` and `HostLifecycle`
 * say exactly when that happens.
 */
module HostExamples {
  import opened Common
  import opened HostModel
  import opened HostInvariants
  import opened HostRuns

  const A: Key := "a"
  const B: Key := "b"

  /** Some sequence of events leads from `s` to `r`. */
  ghost predicate Reachable(s: Host, r: Host)
    requires Owned(s)
  {
    exists es: seq<Event> :: Run(s, es) == r
  }

  lemma Reach(s: Host, r: Host, e: Event)
    requires Owned(s) && Reachable(s, r)
    ensures Owned(r) && Reachable(s, Step(r, e))
  {
    hide PoolOwned, TurnsPooled, LatchesOwned, MutationsSerial, DrainsHonest, LaunchesResolve, Wf, Step;
    var es: seq<Event> :| Run(s, es) == r;
    RunAppend(s, es, [e]);
    StepKeepsOwned(r, e);
    assert Run(r, [e]) == Run(Step(r, e), []);
  }

  /** A host that views one idle session and has nothing else going on. */
  ghost predicate Resting(s: Host, key: Key) {
    && Wf(s)
    && s.mutations == [] && s.drains == {} && s.transcripts == {B} && s.inbox == map[] && s.peerWakes == {}
    && s.pool == map[key := 0] && s.activeKey == key && |s.runtimes| == 1
    && !s.runtimes[0].Running() && s.runtimes[0].agent.steering == [] && s.runtimes[0].agent.sessionKey == key
    && !Closing(s) && s.pendingSwitch == None
  }

  function Switching(s: Host, phase: Phase): Host {
    s.(mutations := [Mutation(ResumeSession(B), phase)], submitted := s.submitted + [ResumeSession(B)],
       authority := s.authority + [MutationQueued])
  }

  function Parking(): Phase {
    ParkingCurrent(0, Switch(B, LazyResume))
  }

  function Awaiting(): Phase {
    AwaitingTarget(Some(0), Switch(B, LazyResume), {})
  }

  lemma Parks(s: Host)
    requires Resting(s, A)
    ensures StartHead(Switching(s, Waiting), []) ==
      Switching(s, Parking()).(pool := map[], drains := {Drain(0, A)})
  {
    assert map[A := 0] - {A} == map[];
  }

  lemma Waits(s: Host)
    requires Resting(s, A)
    ensures ParkedCurrent(Switching(s, Parking()).(pool := map[])) ==
      Switching(s, Awaiting()).(pool := map[])
  {
    assert DrainsFor(s, B) == {};
  }

  function Moved(s: Host): Host
    requires |s.runtimes| == 1
  {
    Switching(s, Waiting).(mutations := [], settled := s.settled + 1, pool := map[B := 0], activeKey := B,
      runtimes := [Retargeted(s.runtimes[0], Switch(B, LazyResume))])
  }

  lemma Lands(s: Host)
    requires Resting(s, A)
    ensures Install(Switching(s, Awaiting()).(pool := map[]), Installed) == Moved(s)
  {}

  lemma ResumeSteps(s: Host)
    requires Resting(s, A) && LaunchesResolve(s)
    ensures Step(s, Submit(ResumeSession(B))) == Switching(s, Waiting)
    ensures Step(Switching(s, Waiting), HeadStarts([])) == Switching(s, Parking())
      .(pool := map[], drains := {Drain(0, A)})
    ensures Step(Switching(s, Parking()).(pool := map[], drains := {Drain(0, A)}), DrainSettled(Drain(0, A))) ==
      Switching(s, Parking()).(pool := map[])
  {
    hide ParkedCurrent, Install, StartHead;
    Parks(s);
  }

  lemma ResumeInstalls(s: Host)
    requires Resting(s, A) && LaunchesResolve(s)
    ensures Step(Switching(s, Parking()).(pool := map[]), CurrentDrained) == Switching(s, Awaiting()).(pool := map[])
    ensures Step(Switching(s, Awaiting()).(pool := map[]), TargetDrained(Installed)) == Moved(s)
  {
    hide ParkedCurrent, Install, StartHead, Moved;
    Waits(s);
    Lands(s);
  }

  /** From "a" to "b" and back to rest: a resume that reuses the viewed runtime. */
  lemma ResumeMoves(s: Host, r: Host)
    requires Owned(s) && Reachable(s, r) && Resting(r, A)
    ensures Reachable(s, Moved(r))
  {
    assert |r.runtimes| == 1;
    hide PoolOwned, TurnsPooled, LatchesOwned, MutationsSerial, DrainsHonest, LaunchesResolve, Wf, Moved, Step;
    hide Switching, Resting, Reachable;
    Reach(s, r, Submit(ResumeSession(B)));
    ResumeSteps(r);
    Reach(s, Switching(r, Waiting), HeadStarts([]));
    Reach(s, Switching(r, Parking()).(pool := map[], drains := {Drain(0, A)}), DrainSettled(Drain(0, A)));
    Reach(s, Switching(r, Parking()).(pool := map[]), CurrentDrained);
    ResumeInstalls(r);
    Reach(s, Switching(r, Awaiting()).(pool := map[]), TargetDrained(Installed));
  }

  // ---------------------------------------------------------------------------------------
  // One session, one runtime
  // ---------------------------------------------------------------------------------------

  function Text1(addressed: Key, body: string): Text {
    Text(User, addressed, body)
  }

  function Alone(key: Key, history: set<Key>, turn: Option<TaskId>, queue: seq<Queued>, parked: Option<Key>): Runtime {
    Runtime(Agent(key, history, [], 0), turn, queue, parked)
  }

  /** A host that spawns and views its only runtime. */
  function At(key: Key, r: Runtime, submitted: seq<Request>, authority: seq<Authority>, transcripts: set<Key>,
      tasks: seq<Task>): Host {
    Host(true, [r], map[key := 0], key, false, false, [], submitted, |submitted|, authority, None, {}, {}, map[],
      transcripts, tasks)
  }

  predicate Lone(s: Host, key: Key) {
    |s.runtimes| == 1 && s == At(key, s.runtimes[0], s.submitted, s.authority, s.transcripts, s.tasks)
  }

  lemma Starts(s: Host, key: Key, body: string)
    requires Wf(s) && LaunchesResolve(s)
    requires Lone(s, key) && !s.runtimes[0].Running()
    ensures var r, n := s.runtimes[0], |s.tasks|;
      Step(s, Deliver(Immediate, body)) ==
        At(key, r.(turn := Some(n)), s.submitted, s.authority + [TurnReserved(key, n)], s.transcripts,
        s.tasks + [Validating(key, 0, Text1(key, body), None, |s.authority| + 1)])
  {}

  lemma Resumes(s: Host, key: Key, t: TaskId)
    requires Wf(s) && LaunchesResolve(s)
    requires Lone(s, key) && !s.runtimes[0].Running()
    requires t < |s.tasks| && s.tasks[t].Scheduled? && s.tasks[t].key == key
    ensures var r, n := s.runtimes[0], |s.tasks|;
      Step(s, ScheduledStart(t)) == At(key, r.(turn := Some(n)), s.submitted, s.authority + [TurnReserved(key, n)],
        s.transcripts,
        s.tasks[t := Done] + [Validating(key, 0, s.tasks[t].text, None, |s.authority| + 1)])
  {}

  /** The policy check returns for a turn that runs no reviewed execution. */
  lemma Begins(s: Host, key: Key, t: TaskId)
    requires Wf(s) && LaunchesResolve(s)
    requires Lone(s, key) && s.runtimes[0].agent.sessionKey == key
    requires t < |s.tasks| && s.tasks[t].Validating? && s.tasks[t].rt == 0 && s.tasks[t].launch.None?
    ensures var r, task := s.runtimes[0], s.tasks[t];
      Step(s, PolicyReturned(t, Allowed)) == At(key,
        r.(pendingHistoryKey := None, agent := r.agent.(history := LoadedHistory(s, r) + {key})), s.submitted,
          s.authority, s.transcripts,
        s.tasks[t := Running(task.key, 0, task.text, None, key, |s.authority|, Loadable(s, r))])
  {}

  lemma Refuses(s: Host, key: Key, t: TaskId)
    requires Wf(s) && LaunchesResolve(s)
    requires Lone(s, key)
    requires t < |s.tasks| && s.tasks[t].Validating? && s.tasks[t].rt == 0 && s.tasks[t].launch.None?
    ensures Step(s, PolicyReturned(t, Refused)) ==
      At(key, s.runtimes[0].(turn := None), s.submitted, s.authority, s.transcripts, s.tasks[t := Done])
  {}

  /** A viewed turn ends with no steer pending; the oldest queued input, if any, is scheduled. */
  lemma Returns(s: Host, key: Key, t: TaskId)
    requires Wf(s) && LaunchesResolve(s)
    requires Lone(s, key) && s.runtimes[0].agent.steering == []
    requires t < |s.tasks| && s.tasks[t].Running? && s.tasks[t].rt == 0 && s.tasks[t].sk == key
    ensures var r := s.runtimes[0];
      Step(s, TurnReturned(t)) ==
        if r.queue == [] then At(key, r.(turn := None), s.submitted, s.authority, s.transcripts, s.tasks[t := Done])
        else At(key, r.(turn := None, queue := r.queue[1..]), s.submitted, s.authority, s.transcripts,
                s.tasks[t := Done] + [Scheduled(key, r.queue[0].text)])
  {}

  /** A follow-up is queued while a turn is being checked or run. */
  lemma Queues(s: Host, key: Key, body: string)
    requires Wf(s) && LaunchesResolve(s) && Lone(s, key) && s.runtimes[0].Running() && s.runtimes[0].queue == []
    ensures Step(s, Deliver(QueueMode, body)) ==
      At(key, s.runtimes[0].(queue := [Queued(Text1(key, body), User)]), s.submitted, s.authority, s.transcripts,
        s.tasks)
  {
    assert s.runtimes[0].queue + [Queued(Text1(key, body), User)] == [Queued(Text1(key, body), User)];
  }

  lemma Loses(s: Host, key: Key)
    requires Wf(s) && LaunchesResolve(s) && Lone(s, key) && s.transcripts == {B}
    ensures Step(s, TranscriptLost(B)) == At(key, s.runtimes[0], s.submitted, s.authority, {}, s.tasks)
  {
    assert {B} - {B} == {};
  }

  // ---------------------------------------------------------------------------------------
  // The two runs
  // ---------------------------------------------------------------------------------------

  function FirstHost(): Host {
    NewHost(A, true, {B})
  }

  lemma FirstTurnStarts()
    ensures Owned(FirstHost())
    ensures Reachable(FirstHost(), At(A, Alone(A, {}, Some(0), [], None), [], [TurnReserved(A, 0)], {B},
      [Validating(A, 0, Text1(A, "x"), None, 1)]))
  {
    var s0 := FirstHost();
    NewHostOwned(A, true, {B});
    assert Run(s0, []) == s0;
    assert s0 == At(A, Alone(A, {}, None, [], None), [], [], {B}, []);
    hide PoolOwned, TurnsPooled, LatchesOwned, MutationsSerial, DrainsHonest, LaunchesResolve, Wf, Run, Step, Reachable;
    Reach(s0, s0, Deliver(Immediate, "x"));
    Starts(s0, A, "x");
  }

  /** After a refused turn with a follow-up queued behind it. */
  function Left(): Host {
    At(A, Alone(A, {}, None, [Queued(Text1(A, "y"), User)], None), [], [TurnReserved(A, 0)], {B}, [Done])
  }

  lemma FollowUpIsLeft()
    ensures Owned(FirstHost()) && Reachable(FirstHost(), Left())
  {
    FirstTurnStarts();
    var s1 := At(A, Alone(A, {}, Some(0), [], None), [], [TurnReserved(A, 0)], {B},
      [Validating(A, 0, Text1(A, "x"), None, 1)]);
    var s2 := s1.(runtimes := [Alone(A, {}, Some(0), [Queued(Text1(A, "y"), User)], None)]);
    hide PoolOwned, TurnsPooled, LatchesOwned, MutationsSerial, DrainsHonest, LaunchesResolve, Wf, Run, Step, Reachable;
    Reach(FirstHost(), s1, Deliver(QueueMode, "y"));
    Queues(s1, A, "y");
    Reach(FirstHost(), s2, PolicyReturned(0, Refused));
    Refuses(s2, A, 0);
  }

  lemma FollowUpMoves()
    ensures Owned(FirstHost())
    ensures Reachable(FirstHost(), At(B, Alone(B, {}, None, [Queued(Text1(A, "y"), User)], Some(B)),
      [ResumeSession(B)], [TurnReserved(A, 0), MutationQueued], {B}, [Done]))
  {
    FollowUpIsLeft();
    ResumeMoves(FirstHost(), Left());
  }

  /** The resumed session "b" runs a turn on the reused runtime. */
  lemma TurnRunsInB(history: set<Key>, queue: seq<Queued>, authority: seq<Authority>, transcripts: set<Key>)
    requires Owned(FirstHost())
    requires Reachable(FirstHost(), At(B, Alone(B, history, None, queue, Some(B)), [ResumeSession(B)], authority,
      transcripts, [Done]))
    ensures Reachable(FirstHost(), At(B, Alone(B, (if B in transcripts then {B} else history) + {B}, Some(1), queue,
      None), [ResumeSession(B)],
      authority + [TurnReserved(B, 1)], transcripts, [Done, Running(B, 0, Text1(B, "z"), None, B, |authority| + 1,
        if B in transcripts then Some(B) else None)]))
  {
    var s1 := At(B, Alone(B, history, None, queue, Some(B)), [ResumeSession(B)], authority, transcripts, [Done]);
    var s2 := At(B, Alone(B, history, Some(1), queue, Some(B)), [ResumeSession(B)], authority + [TurnReserved(B, 1)],
      transcripts,
      [Done, Validating(B, 0, Text1(B, "z"), None, |authority| + 1)]);
    hide PoolOwned, TurnsPooled, LatchesOwned, MutationsSerial, DrainsHonest, LaunchesResolve, Wf, Run, Step, Reachable;
    Reach(FirstHost(), s1, Deliver(Immediate, "z"));
    Starts(s1, B, "z");
    Reach(FirstHost(), s2, PolicyReturned(1, Allowed));
    Begins(s2, B, 1);
  }

  /** The turn in "b" ends and the oldest queued input is scheduled. */
  lemma FollowUpIsTaken(q: Queued, authority: seq<Authority>)
    requires Owned(FirstHost())
    requires Reachable(FirstHost(), At(B, Alone(B, {B}, Some(1), [q], None), [ResumeSession(B)], authority, {B},
      [Done, Running(B, 0, Text1(B, "z"), None, B, |authority|, Some(B))]))
    ensures Reachable(FirstHost(), At(B, Alone(B, {B}, None, [], None), [ResumeSession(B)], authority, {B},
      [Done, Done, Scheduled(B, q.text)]))
  {
    var s := At(B, Alone(B, {B}, Some(1), [q], None), [ResumeSession(B)], authority, {B},
      [Done, Running(B, 0, Text1(B, "z"), None, B, |authority|, Some(B))]);
    hide PoolOwned, TurnsPooled, LatchesOwned, MutationsSerial, DrainsHonest, LaunchesResolve, Wf, Run, Step, Reachable;
    assert s.tasks[1 := Done] + [Scheduled(B, q.text)] == [Done, Done, Scheduled(B, q.text)] && [q][1..] == [];
    Reach(FirstHost(), s, TurnReturned(1));
    Returns(s, B, 1);
  }

  lemma FollowUpStarts(text: Text, authority: seq<Authority>)
    requires Owned(FirstHost())
    requires Reachable(FirstHost(), At(B, Alone(B, {B}, None, [], None), [ResumeSession(B)], authority, {B},
      [Done, Done, Scheduled(B, text)]))
    ensures Reachable(FirstHost(), At(B, Alone(B, {B}, Some(3), [], None), [ResumeSession(B)],
      authority + [TurnReserved(B, 3)], {B},
      [Done, Done, Done, Validating(B, 0, text, None, |authority| + 1)]))
  {
    var s := At(B, Alone(B, {B}, None, [], None), [ResumeSession(B)], authority, {B}, [Done, Done, Scheduled(B, text)]);
    hide PoolOwned, TurnsPooled, LatchesOwned, MutationsSerial, DrainsHonest, LaunchesResolve, Wf, Run, Step, Reachable;
    assert s.tasks[2 := Done] + [Validating(B, 0, text, None, |authority| + 1)] ==
      [Done, Done, Done, Validating(B, 0, text, None, |authority| + 1)];
    Reach(FirstHost(), s, ScheduledStart(2));
    Resumes(s, B, 2);
  }

  lemma FollowUpRuns(text: Text, authority: seq<Authority>) returns (r: Host)
    requires Owned(FirstHost()) && Reachable(FirstHost(), At(B, Alone(B, {B}, Some(3), [], None), [ResumeSession(B)],
      authority + [TurnReserved(B, 3)], {B}, [Done, Done, Done, Validating(B, 0, text, None, |authority| + 1)]))
    ensures Reachable(FirstHost(), r)
    ensures |r.tasks| > 3 && r.tasks[3].Running? && r.tasks[3].text == text && r.tasks[3].key == B
  {
    var s := At(B, Alone(B, {B}, Some(3), [], None), [ResumeSession(B)], authority + [TurnReserved(B, 3)], {B},
      [Done, Done, Done, Validating(B, 0, text, None, |authority| + 1)]);
    hide PoolOwned, TurnsPooled, LatchesOwned, MutationsSerial, DrainsHonest, LaunchesResolve, Wf, Run, Step, Reachable;
    Reach(FirstHost(), s, PolicyReturned(3, Allowed));
    Begins(s, B, 3);
    r := Step(s, PolicyReturned(3, Allowed));
  }

  /**
   * A follow-up queued for "a" while a policy check was refusing a turn stays in the runtime's
   * queue, moves with the runtime to "b", and is run there as a prompt of "b".
   */
  lemma PromptRunsAbroad() returns (r: Host)
    ensures Owned(FirstHost()) && Reachable(FirstHost(), r)
    ensures |r.tasks| > 3 && r.tasks[3].Running? && r.tasks[3].text == Text1(A, "y") && r.tasks[3].key == B
  {
    FollowUpMoves();
    var auth := [TurnReserved(A, 0), MutationQueued];
    var queue := [Queued(Text1(A, "y"), User)];
    hide PoolOwned, TurnsPooled, LatchesOwned, MutationsSerial, DrainsHonest, LaunchesResolve, Wf, Run, Step, Reachable;
    TurnRunsInB({}, queue, auth, {B});
    assert {B} + {B} == {B};
    auth := auth + [TurnReserved(B, 1)];
    FollowUpIsTaken(queue[0], auth);
    FollowUpStarts(Text1(A, "y"), auth);
    r := FollowUpRuns(Text1(A, "y"), auth);
  }

  lemma FirstTurnEnds()
    ensures Owned(FirstHost())
    ensures Reachable(FirstHost(), At(A, Alone(A, {A}, None, [], None), [], [TurnReserved(A, 0)], {B}, [Done]))
  {
    FirstTurnStarts();
    var s1 := At(A, Alone(A, {}, Some(0), [], None), [], [TurnReserved(A, 0)], {B},
      [Validating(A, 0, Text1(A, "x"), None, 1)]);
    var s2 := At(A, Alone(A, {A}, Some(0), [], None), [], [TurnReserved(A, 0)], {B},
      [Running(A, 0, Text1(A, "x"), None, A, 1, None)]);
    hide PoolOwned, TurnsPooled, LatchesOwned, MutationsSerial, DrainsHonest, LaunchesResolve, Wf, Run, Step, Reachable;
    Reach(FirstHost(), s1, PolicyReturned(0, Allowed));
    Begins(s1, A, 0);
    assert {} + {A} == {A};
    Reach(FirstHost(), s2, TurnReturned(0));
    Returns(s2, A, 0);
  }

  /**
   * When the transcript of "b" disappears between the resume and the first turn, that turn starts
   * from the conversation the agent still holds, which is the one of "a".
   */
  lemma ConversationLeaks() returns (r: Host)
    ensures Owned(FirstHost()) && Reachable(FirstHost(), r)
    ensures |r.tasks| > 1 && r.tasks[1].Running? && r.tasks[1].key == B && r.tasks[1].loaded == None
    ensures A in r.runtimes[0].agent.history
  {
    FirstTurnEnds();
    var s1 := At(A, Alone(A, {A}, None, [], None), [], [TurnReserved(A, 0)], {B}, [Done]);
    ResumeMoves(FirstHost(), s1);
    var auth := [TurnReserved(A, 0), MutationQueued];
    var s2 := At(B, Alone(B, {A}, None, [], Some(B)), [ResumeSession(B)], auth, {B}, [Done]);
    assert Moved(s1) == s2;
    hide Moved, Resting;
    hide PoolOwned, TurnsPooled, LatchesOwned, MutationsSerial, DrainsHonest, LaunchesResolve, Wf, Run, Step, Reachable;
    Reach(FirstHost(), s2, TranscriptLost(B));
    Loses(s2, B);
    TurnRunsInB({A}, [], auth, {});
    r := At(B, Alone(B, {A} + {B}, Some(1), [], None), [ResumeSession(B)], auth + [TurnReserved(B, 1)], {},
      [Done, Running(B, 0, Text1(B, "z"), None, B, 3, None)]);
  }

  /** The fence does let an undisturbed reviewed launch through: its intent reaches `runTurn`. */
  lemma ReviewedLaunchRuns() returns (r: Host)
    ensures Owned(FirstHost()) && Reachable(FirstHost(), r)
    ensures |r.tasks| > 1 && r.tasks[1].Running? && r.tasks[1].launch == Some(Launch(0, 0, 0))
    ensures r.authority == [TurnReserved(A, 1)]
  {
    NewHostOwned(A, true, {B});
    var text := Text1(A, "x");
    var s0 := At(A, Alone(A, {}, None, [], None), [], [], {B}, []);
    assert FirstHost() == s0;
    assert Run(FirstHost(), []) == s0;
    var s1 := At(A, Alone(A, {}, None, [], None), [], [], {B}, [Issuing(A, 0, text, 0)]);
    var s2 := At(A, Alone(A, {}, Some(1), [], None), [], [TurnReserved(A, 1)], {B},
      [Done, Validating(A, 0, text, Some(Launch(0, 0, 0)), 1)]);
    hide PoolOwned, TurnsPooled, LatchesOwned, MutationsSerial, DrainsHonest, LaunchesResolve, Wf, Run, Step, Reachable;
    Reach(FirstHost(), s0, ReviewedStart("x"));
    LaunchIsIssued();
    Reach(FirstHost(), s1, IntentIssued(0, true));
    LaunchIsReserved();
    Reach(FirstHost(), s2, PolicyReturned(1, Allowed));
    r := Step(s2, PolicyReturned(1, Allowed));
    LaunchBegins();
  }

  lemma LaunchIsIssued()
    ensures var s0 := At(A, Alone(A, {}, None, [], None), [], [], {B}, []);
      && Wf(s0) && LaunchesResolve(s0)
      && Step(s0, ReviewedStart("x")) == At(A, Alone(A, {}, None, [], None), [], [], {B},
          [Issuing(A, 0, Text1(A, "x"), 0)])
  {}

  lemma LaunchIsReserved()
    ensures var s1 := At(A, Alone(A, {}, None, [], None), [], [], {B}, [Issuing(A, 0, Text1(A, "x"), 0)]);
      && Wf(s1) && LaunchesResolve(s1)
      && Step(s1, IntentIssued(0, true)) == At(A, Alone(A, {}, Some(1), [], None), [], [TurnReserved(A, 1)], {B},
           [Done, Validating(A, 0, Text1(A, "x"), Some(Launch(0, 0, 0)), 1)])
  {}

  lemma LaunchBegins()
    ensures var s2 := At(A, Alone(A, {}, Some(1), [], None), [], [TurnReserved(A, 1)], {B},
        [Done, Validating(A, 0, Text1(A, "x"), Some(Launch(0, 0, 0)), 1)]);
      && Wf(s2) && LaunchesResolve(s2)
      && var r := Step(s2, PolicyReturned(1, Allowed));
         r.tasks == [Done, Running(A, 0, Text1(A, "x"), Some(Launch(0, 0, 0)), A, 1, None)]
           && r.authority == [TurnReserved(A, 1)]
  {}

  // ---------------------------------------------------------------------------------------
  // A tenant switch
  // ---------------------------------------------------------------------------------------

  /** The first host while its tenant switch is in this phase. */
  function Rebinding(phase: Phase, pool: map<Key, RuntimeId>, drains: set<Drain>, inbox: map<Key, seq<Text>>): Host {
    FirstHost().(mutations := [Mutation(RebindTenant, phase)], submitted := [RebindTenant],
      authority := [MutationQueued],
      tenantRebinding := !phase.Waiting?, pool := pool, drains := drains, inbox := inbox)
  }

  lemma RebindBegins()
    ensures var s := FirstHost();
      && Wf(s) && LaunchesResolve(s)
      && Step(s, Submit(RebindTenant)) == Rebinding(Waiting, map[A := 0], {}, map[])
    ensures var s := Rebinding(Waiting, map[A := 0], {}, map[]);
      && Wf(s) && LaunchesResolve(s)
      && Step(s, HeadStarts([])) == Rebinding(StoppingTurns(A), map[A := 0], {}, map[])
  {
    var s := Rebinding(Waiting, map[A := 0], {}, map[]);
    assert ClearQueues(s).runtimes == s.runtimes;
  }

  lemma RebindDrains()
    ensures var s := Rebinding(StoppingTurns(A), map[A := 0], {}, map[]);
      && Wf(s) && LaunchesResolve(s)
      && Step(s, RebindPoll(false)) == Rebinding(DrainingPool(A), map[A := 0], {Drain(0, A)}, map[])
  {
    var s := Rebinding(StoppingTurns(A), map[A := 0], {}, map[]);
    var tracked := set k <- s.pool :: Drain(s.pool[k], s.runtimes[s.pool[k]].agent.sessionKey);
    assert Drain(s.pool[A], s.runtimes[s.pool[A]].agent.sessionKey) in tracked;
    forall d | d in tracked ensures d == Drain(0, A) {
      var k :| k in s.pool && d == Drain(s.pool[k], s.runtimes[s.pool[k]].agent.sessionKey);
      assert k == A;
    }
    assert tracked == {Drain(0, A)};
  }

  lemma RebindDrained()
    ensures var s := Rebinding(DrainingPool(A), map[A := 0], {Drain(0, A)}, map[]);
      && Wf(s) && LaunchesResolve(s)
      && Step(s, DrainSettled(Drain(0, A))) == Rebinding(DrainingPool(A), map[A := 0], {}, map[])
    ensures var s := Rebinding(DrainingPool(A), map[A := 0], {}, map[]);
      && Wf(s) && LaunchesResolve(s)
      && Step(s, PoolDrained) == Rebinding(Replacing(A), map[], {}, map[])
  {
    assert {Drain(0, A)} - {Drain(0, A)} == {};
  }

  lemma ResultIsPublished()
    ensures var s := Rebinding(Replacing(A), map[], {}, map[]);
      && Wf(s) && LaunchesResolve(s)
      && Step(s, Publish(A, "r")) == Rebinding(Replacing(A), map[], {}, map[A := [Text(Extension, A, "r")]])
  {
    assert [] + [Text(Extension, A, "r")] == [Text(Extension, A, "r")];
  }

  lemma ReplacementArrives()
    ensures var s := Rebinding(Replacing(A), map[], {}, map[A := [Text(Extension, A, "r")]]);
      && Wf(s) && LaunchesResolve(s)
      && var r := Step(s, ReplacementReturned(true)); A in r.pool && r.inbox == map[A := [Text(Extension, A, "r")]]
  {}

  /**
   * An extension result published while a tenant switch has emptied the pool is still waiting after
   * the replacement for its session was installed, although that session is pooled and viewed.
   */
  lemma ResultLeftWaiting() returns (r: Host)
    ensures Owned(FirstHost()) && Reachable(FirstHost(), r)
    ensures A in r.pool && A in r.inbox && r.inbox[A] == [Text(Extension, A, "r")]
  {
    var s := FirstHost();
    NewHostOwned(A, true, {B});
    assert Run(s, []) == s;
    RebindBegins();
    RebindDrains();
    RebindDrained();
    ResultIsPublished();
    ReplacementArrives();
    hide PoolOwned, TurnsPooled, LatchesOwned, MutationsSerial, DrainsHonest, LaunchesResolve, Wf, Run, Step, Reachable;
    hide Rebinding;
    Reach(s, s, Submit(RebindTenant));
    Reach(s, Rebinding(Waiting, map[A := 0], {}, map[]), HeadStarts([]));
    Reach(s, Rebinding(StoppingTurns(A), map[A := 0], {}, map[]), RebindPoll(false));
    Reach(s, Rebinding(DrainingPool(A), map[A := 0], {Drain(0, A)}, map[]), DrainSettled(Drain(0, A)));
    Reach(s, Rebinding(DrainingPool(A), map[A := 0], {}, map[]), PoolDrained);
    Reach(s, Rebinding(Replacing(A), map[], {}, map[]), Publish(A, "r"));
    var waiting := Rebinding(Replacing(A), map[], {}, map[A := [Text(Extension, A, "r")]]);
    Reach(s, waiting, ReplacementReturned(true));
    r := Step(waiting, ReplacementReturned(true));
  }
}
