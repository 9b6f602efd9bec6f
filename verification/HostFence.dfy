/**
 * The reviewed-launch fence: an execution intent reaches `runTurn` only if, since it was captured,
 * nothing but its own turn reservation touched the runtime authority, and the viewed session and
 * its agent stayed the same in every state in between (so an A-B-A switch is excluded).
 */
module HostFence {
  import opened Common
  import opened HostModel
  import opened HostInvariants
  import opened HostSteps
  import opened HostQueue
  import opened HostRuns

  /** Every turn in flight with an intent was reserved directly after its capture. */
  ghost predicate Launched(s: Host) {
    forall t :: 0 <= t < |s.tasks| && InFlight(s.tasks[t]) && s.tasks[t].launch.Some? ==> ReservedByLaunch(s, t)
  }

  /** The fence repeated right after the latch is taken cannot fail: the code in between is synchronous. */
  lemma SecondFenceHolds(s: Host, key: Key, text: Text, launch: Launch)
    requires Wf(s) && launch.rt < |s.runtimes|
    requires LaunchIsCurrent(s, key, launch, launch.at) && !s.runtimes[s.pool[key]].Running()
    ensures var s' := Reserve(s, key, text, Some(launch));
      && Generation(s') == launch.at + 1
      && LaunchIsCurrent(s', key, launch, Generation(s'))
      && s'.tasks == s.tasks + [Validating(key, launch.rt, text, Some(launch), launch.at + 1)]
  {}

  // ---------------------------------------------------------------------------------------
  // Reservations
  // ---------------------------------------------------------------------------------------

  /** Continuations and authority while sessions move. */
  ghost predicate Spared(s: Host, s': Host) {
    TasksExtend(s, s') && s.authority <= s'.authority
  }

  lemma SparedKeepsLaunched(s: Host, s': Host)
    requires Launched(s) && Spared(s, s')
    ensures Launched(s')
  {
    forall t | 0 <= t < |s'.tasks| && InFlight(s'.tasks[t]) && s'.tasks[t].launch.Some?
      ensures ReservedByLaunch(s', t)
    {
      if t < |s.tasks| { assert ReservedByLaunch(s, t); }
    }
  }

  lemma ExternalSpares(s: Host, key: Key)
    requires Wf(s)
    ensures Spared(s, DeliverExternal(s, key))
  {
    ExternalOrdinary(s, key);
    hide DeliverExternal;
  }

  lemma FocusSpares(s: Host, switch: Switch)
    requires Wf(s) && s.mutations != []
    ensures Spared(s, Focus(s, switch))
  {
    ExternalSpares(s.(activeKey := switch.target), switch.target);
    hide DeliverExternal, Wf;
  }

  lemma RetargetSpares(s: Host, id: RuntimeId, switch: Switch, outcome: InstallOutcome)
    requires Wf(s) && s.mutations != [] && id < |s.runtimes|
    ensures Spared(s, Retarget(s, id, switch, outcome))
  {
    var s1 := SetRuntime(s, id, Retargeted(s.runtimes[id], switch))
      .(pool := s.pool[switch.target := id], activeKey := switch.target);
    ExternalSpares(s1, switch.target);
    hide DeliverExternal, Wf;
  }

  lemma StartHeadSpares(s: Host, uuids: seq<string>)
    requires Wf(s) && s.mutations != [] && s.mutations[0].phase.Waiting?
    ensures Spared(s, StartHead(s, uuids))
  {
    hide Wf, Focus;
    var minted := Mint(s, uuids, MINT_ATTEMPTS);
    match s.mutations[0].request {
      case NewSession => if minted.Some? { FocusSpares(s, Switch(minted.value, FreshStart)); }
      case ResumeSession(key) => FocusSpares(s, Switch(key, LazyResume)); FocusSpares(s, Switch(key, FreshStart));
      case DeferredSwitch(switch) => FocusSpares(s, switch);
      case _ =>
    }
  }

  lemma InstallSpares(s: Host, outcome: InstallOutcome)
    requires Owned(s) && s.mutations != [] && s.mutations[0].phase.AwaitingTarget?
    ensures Spared(s, Install(s, outcome))
  {
    hide Retarget, PoolOwned, TurnsPooled, LatchesOwned, MutationsSerial, DrainsHonest, LaunchesResolve;
    var p := s.mutations[0].phase;
    if p.reused.Some? {
      RetargetSpares(s, p.reused.value, p.switch, outcome);
    } else {
      SpawnKeepsOwned(s, FreshRuntime(p.switch.target));
      RetargetSpares(s.(runtimes := s.runtimes + [FreshRuntime(p.switch.target)]), |s.runtimes|, p.switch, outcome);
    }
  }

  lemma MoveSpares(s: Host, e: Event)
    requires Owned(s) && (MovesSessions(e) || TouchesDisk(e))
    ensures Spared(s, Step(s, e))
  {
    hide PoolOwned, TurnsPooled, LatchesOwned, MutationsSerial, DrainsHonest, LaunchesResolve, StartHead, Install, Wf;
    hide DeliverInput, DeliverPeer, WakePeer, AutoResume, PublishExternal, BeginReviewed, Reserve, StartTurn;
    hide PolicyReturn, FinishTurn, IntentReturn;
    if e.HeadStarts? && s.mutations != [] && s.mutations[0].phase.Waiting? {
      StartHeadSpares(s, e.uuids);
    } else if e.TargetDrained? && s.mutations != [] && s.mutations[0].phase.AwaitingTarget? {
      InstallSpares(s, e.install);
    }
  }

  lemma BeginKeepsLaunched(s: Host, e: Event)
    requires Owned(s) && Launched(s) && BeginsTurn(s, e)
    ensures Launched(Step(s, e)) && Step(s, e).authority == s.authority
  {
    var s' := Step(s, e);
    forall t | 0 <= t < |s'.tasks| && InFlight(s'.tasks[t]) && s'.tasks[t].launch.Some?
      ensures ReservedByLaunch(s', t)
    {
      assert ReservedByLaunch(s, t);
    }
  }

  lemma StepKeepsLaunched(s: Host, e: Event)
    requires Owned(s) && Launched(s)
    ensures Launched(Step(s, e)) && s.authority <= Step(s, e).authority
  {
    hide PoolOwned, TurnsPooled, LatchesOwned, MutationsSerial, DrainsHonest, LaunchesResolve, Launched, Step;
    hide TasksExtend;
    if BeginsTurn(s, e) {
      BeginKeepsLaunched(s, e);
    } else if MovesSessions(e) || TouchesDisk(e) {
      MoveSpares(s, e);
      SparedKeepsLaunched(s, Step(s, e));
    } else {
      StepOrdinary(s, e);
      SparedKeepsLaunched(s, Step(s, e));
    }
  }

  lemma {:induction false} RunKeepsLaunched(s: Host, es: seq<Event>)
    requires Owned(s) && Launched(s)
    ensures Launched(Run(s, es)) && s.authority <= Run(s, es).authority
    decreases es
  {
    if es != [] {
      StepKeepsOwned(s, es[0]);
      StepKeepsLaunched(s, es[0]);
      RunKeepsLaunched(Step(s, es[0]), es[1..]);
    }
  }

  // ---------------------------------------------------------------------------------------
  // Stability
  // ---------------------------------------------------------------------------------------

  /** No mutation outstanding, and the viewed session keeps its agent. */
  ghost predicate Steady(s: Host, s': Host) {
    && s'.mutations == [] && s'.activeKey == s.activeKey
    && (s.activeKey in s.pool ==> s.activeKey in s'.pool && s'.pool[s.activeKey] == s.pool[s.activeKey])
  }

  /** Every change of the viewed session or of its agent passes through a counted mutation. */
  lemma StepSteady(s: Host, e: Event)
    requires Owned(s) && s.mutations == [] && NoneQueued(s, Step(s, e))
    ensures Steady(s, Step(s, e))
  {
    hide PoolOwned, TurnsPooled, LatchesOwned, MutationsSerial, DrainsHonest, LaunchesResolve;
    if !BeginsTurn(s, e) && !MovesSessions(e) && !TouchesDisk(e) {
      StepOrdinary(s, e);
      hide Step;
    }
  }

  lemma {:induction false} RunSteady(s: Host, es: seq<Event>)
    requires Owned(s) && Launched(s) && s.mutations == [] && NoneQueued(s, Run(s, es))
    ensures Steady(s, Run(s, es))
    decreases es
  {
    if es != [] {
      StepKeepsOwned(s, es[0]);
      StepKeepsLaunched(s, es[0]);
      var s1 := Step(s, es[0]);
      RunKeepsLaunched(s1, es[1..]);
      assert Run(s, es) == Run(s1, es[1..]);
      forall i | |s.authority| <= i < |s1.authority| ensures !s1.authority[i].MutationQueued? {
        assert s1.authority[i] == Run(s, es).authority[i];
      }
      StepSteady(s, es[0]);
      RunSteady(s1, es[1..]);
    }
  }

  // ---------------------------------------------------------------------------------------
  // The fence
  // ---------------------------------------------------------------------------------------

  /** `startReviewedExecution` captured its origin in this state, which has no mutation outstanding. */
  ghost predicate CapturedHere(s: Host, launch: Launch) {
    && s.mutations == [] && !Closing(s)
    && s.activeKey in s.pool && s.pool[s.activeKey] == launch.rt
    && Generation(s) == launch.at
  }

  lemma CaptureIsClean(s: Host, body: string)
    requires Owned(s) && BeginReviewed(s, body) != s
    ensures var s' := BeginReviewed(s, body);
      && |s'.tasks| == |s.tasks| + 1 && s'.tasks[|s.tasks|].Issuing?
      && CapturedHere(s', Launch(s'.tasks[|s.tasks|].rt, s'.tasks[|s.tasks|].at, |s.tasks|))
  {}

  /**
   * A review is captured exactly if no mutation is outstanding, the host is open, and the viewed session
   * pooled and free.
   */
  lemma CapturesExactly(s: Host, body: string)
    requires Owned(s)
    ensures var s' := Step(s, ReviewedStart(body));
      if s.mutations == [] && !Closing(s) && s.activeKey in s.pool && s.runtimes[s.pool[s.activeKey]].turn == None then
        s' == s.(tasks := s.tasks
          + [Issuing(s.activeKey, s.pool[s.activeKey], Text(User, s.activeKey, body), |s.authority|)])
      else s' == s
  {
    hide PoolOwned, TurnsPooled, LatchesOwned, MutationsSerial, DrainsHonest, LaunchesResolve;
  }

  /** An issued handle starts its turn at once exactly if its session is still free and its capture still current. */
  lemma IssuedStartsExactly(s: Host, t: TaskId, ok: bool)
    requires Owned(s) && t < |s.tasks| && s.tasks[t].Issuing?
    ensures var task := s.tasks[t];
      var launch := Launch(task.rt, task.at, t);
      var s' := Step(s, IntentIssued(t, ok));
      if ok && s.runtimes[task.rt].turn == None && s.mutations == []
        && LaunchIsCurrent(s, task.key, launch, launch.at) then
        s'.tasks == s.tasks[t := Done] + [Validating(task.key, task.rt, task.text, Some(launch), |s.authority| + 1)]
      else s.mutations == [] ==> s' == s.(tasks := s.tasks[t := Done])
  {
    hide PoolOwned, TurnsPooled, LatchesOwned, MutationsSerial, DrainsHonest;
  }

  /**
   * From the capture to the moment `runTurn` is called with the intent: the only authority event
   * is the launch's own reservation, no mutation is ever outstanding, and the viewed session and
   * the agent it runs on are the captured ones throughout.
   */
  lemma ReviewedFence(s: Host, es: seq<Event>, t: TaskId, launch: Launch, m: nat)
    requires Owned(s) && Launched(s) && CapturedHere(s, launch) && m <= |es|
    requires var r := Run(s, es);
      t < |r.tasks| && r.tasks[t].Running? && r.tasks[t].launch == Some(launch) && r.tasks[t].calledAt == Generation(r)
    ensures var r := Run(s, es);
      && r.authority == s.authority + [TurnReserved(s.activeKey, t)]
      && r.tasks[t].key == s.activeKey && r.tasks[t].rt == launch.rt
    ensures Steady(s, Run(s, es[..m]))
  {
    hide PoolOwned, TurnsPooled, LatchesOwned, MutationsSerial, DrainsHonest, LaunchesResolve, Run;
    var r := Run(s, es);
    RunKeepsLaunched(s, es);
    assert ReservedByLaunch(r, t);
    assert r.authority == s.authority + [TurnReserved(r.tasks[t].key, t)];
    RunSteady(s, es);
    LatchOf(r, t);
    assert r.runtimes[r.pool[s.activeKey]].agent.sessionKey == s.activeKey by {
      PoolIsInjective(s, es, s.activeKey, s.activeKey);
    }
    PrefixQuiet(s, es, m);
    RunSteady(s, es[..m]);
  }

  /** What no event of the whole run did, no event of a prefix did. */
  lemma PrefixQuiet(s: Host, es: seq<Event>, m: nat)
    requires Owned(s) && Launched(s) && m <= |es| && NoneQueued(s, Run(s, es))
    ensures NoneQueued(s, Run(s, es[..m]))
  {
    hide PoolOwned, TurnsPooled, LatchesOwned, MutationsSerial, DrainsHonest, LaunchesResolve, Run, Launched;
    var mid := Run(s, es[..m]);
    assert es == es[..m] + es[m..];
    RunAppend(s, es[..m], es[m..]);
    RunKeepsLaunched(s, es[..m]);
    RunKeepsLaunched(mid, es[m..]);
    assert mid.authority <= Run(s, es).authority;
  }

  /** What a review of `body` captures in this state, if it captures anything. */
  ghost function CapturedBy(s: Host, body: string): Option<Launch>
    requires Wf(s)
  {
    var c := BeginReviewed(s, body);
    if |c.tasks| == |s.tasks| + 1 && c.tasks[|s.tasks|].Issuing?
      then Some(Launch(c.tasks[|s.tasks|].rt, c.tasks[|s.tasks|].at, |s.tasks|))
    else None
  }

  /** The reviewed launch whose origin is captured when `body` is reviewed after these events. */
  ghost function Captured(key: Key, spawns: bool, transcripts: set<Key>, before: seq<Event>,
      body: string): Option<Launch> {
    CapturedBy(FromStart(key, spawns, transcripts, before), body)
  }

  /** The fence, from the creation of the host: whatever happened before the capture and after it. */
  lemma FenceInEveryRun(key: Key, spawns: bool, transcripts: set<Key>, before: seq<Event>, body: string,
      after: seq<Event>, t: TaskId, m: nat)
    requires m <= |after|
    requires var r := FromStart(key, spawns, transcripts, before + [ReviewedStart(body)] + after);
      && t < |r.tasks| && r.tasks[t].Running? && r.tasks[t].launch.Some? && r.tasks[t].calledAt == Generation(r)
      && r.tasks[t].launch == Captured(key, spawns, transcripts, before, body)
    ensures var c := FromStart(key, spawns, transcripts, before + [ReviewedStart(body)]);
      var r := FromStart(key, spawns, transcripts, before + [ReviewedStart(body)] + after);
      && r.authority == c.authority + [TurnReserved(c.activeKey, t)]
      && r.tasks[t].key == c.activeKey && c.activeKey in c.pool && r.tasks[t].rt == c.pool[c.activeKey]
      && Steady(c, FromStart(key, spawns, transcripts, before + [ReviewedStart(body)] + after[..m]))
  {
    hide PoolOwned, TurnsPooled, LatchesOwned, MutationsSerial, DrainsHonest, LaunchesResolve, Run, Wf, BeginReviewed;
    hide Launched;
    var s0 := NewHost(key, spawns, transcripts);
    NewHostOwned(key, spawns, transcripts);
    NewHostLaunched(key, spawns, transcripts);
    var s := Run(s0, before);
    RunKeepsLaunched(s0, before);
    RunReviewed(s0, before, body);
    RunAppend(s0, before + [ReviewedStart(body)], after);
    RunAppend(s0, before + [ReviewedStart(body)], after[..m]);
    CaptureIsClean(s, body);
    CaptureKeepsLaunched(s, body);
    ReviewedFence(BeginReviewed(s, body), after, t, Captured(key, spawns, transcripts, before, body).value, m);
  }

  lemma NewHostLaunched(key: Key, spawns: bool, transcripts: set<Key>)
    ensures Launched(NewHost(key, spawns, transcripts))
  {}

  lemma RunReviewed(s0: Host, before: seq<Event>, body: string)
    requires Owned(s0)
    ensures Run(s0, before + [ReviewedStart(body)]) == BeginReviewed(Run(s0, before), body)
  {
    hide PoolOwned, TurnsPooled, LatchesOwned, MutationsSerial, DrainsHonest, LaunchesResolve, Wf, BeginReviewed;
    RunAppend(s0, before, [ReviewedStart(body)]);
    StepKeepsOwned(Run(s0, before), ReviewedStart(body));
    assert Run(Run(s0, before), [ReviewedStart(body)]) == Run(Step(Run(s0, before), ReviewedStart(body)), []);
  }

  lemma CaptureKeepsLaunched(s: Host, body: string)
    requires Owned(s) && Launched(s)
    ensures Launched(BeginReviewed(s, body))
  {
    StepKeepsLaunched(s, ReviewedStart(body));
  }
}
