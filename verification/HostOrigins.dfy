/**
 * Where the intents of running turns come from: every reviewed launch the host holds was captured
 * by one `startReviewedExecution` of the same run, so the fence binds every turn with an intent.
 */
module HostOrigins {
  import opened Common
  import opened HostModel
  import opened HostInvariants
  import opened HostSteps
  import opened HostQueue
  import opened HostRuns
  import opened HostFence
  import opened HostTasks

  /** A reviewed launch and the prompt that was reviewed. */
  datatype Review = Review(launch: Launch, text: Text)

  function Reviewed(launch: Option<Launch>, text: Text): Option<Review> {
    if launch.Some? then Some(Review(launch.value, text)) else None
  }

  /** The review a continuation carries; one awaiting its issuer carries its own. */
  function ReviewOf(s: Host, t: TaskId): Option<Review>
    requires t < |s.tasks|
  {
    match s.tasks[t]
    case Issuing(_, rt, text, at) => Some(Review(Launch(rt, at, t), text))
    case WaitingStart(_, text, launch, _) => Reviewed(launch, text)
    case Validating(_, _, text, launch, _) => Reviewed(launch, text)
    case Running(_, _, text, launch, _, _, _) => Reviewed(launch, text)
    case _ => None
  }

  /** The review's issuer has not answered yet. */
  ghost predicate Awaited(s: Host, v: Review) {
    exists t :: 0 <= t < |s.tasks| && s.tasks[t].Issuing? && ReviewOf(s, t) == Some(v)
  }

  /** The review's handle was issued: a start waits for the mutation queue, is being checked, or runs. */
  ghost predicate Issued(s: Host, v: Review) {
    exists t :: 0 <= t < |s.tasks| && !s.tasks[t].Issuing? && ReviewOf(s, t) == Some(v)
  }

  /** Continuations added between the two states carry no review. */
  ghost predicate NoNewReview(s: Host, s': Host) {
    forall t :: 0 <= t < |s'.tasks| && ReviewOf(s', t).Some? ==>
      t < |s.tasks| && ReviewOf(s', t) == ReviewOf(s, t) && (s'.tasks[t].Issuing? <==> s.tasks[t].Issuing?)
  }

  lemma QuietAddsNoReview(s: Host, s': Host)
    requires Quiet(s, s')
    ensures NoNewReview(s, s')
  {}

  lemma PlainStart(s: Host, s': Host, key: Key, text: Text)
    requires Wf(s) && AddsStart(s, s', key, text, None)
    ensures NoNewReview(s, s')
  {
    hide Wf;
    forall t | 0 <= t < |s.tasks| ensures s'.tasks[t] == s.tasks[t] {
      assert s'.tasks == s.tasks || s'.tasks[..|s.tasks|][t] == s.tasks[t];
    }
  }

  lemma WakeAdds(s: Host, key: Key)
    requires Wf(s) && key in s.peerWakes
    ensures NoNewReview(s, WakePeer(s, key))
  {
    var s1 := s.(peerWakes := s.peerWakes - {key});
    var text := Text(HostPrompt, key, WAKE_PROMPT);
    assert Wf(s1);
    hide Wf, StartTurn;
    StartAdds(s1, key, text, None);
    PlainStart(s1, StartTurn(s1, key, text, None), key, text);
  }

  lemma ScheduledAdds(s: Host, t: TaskId)
    requires Owned(s) && t < |s.tasks| && s.tasks[t].Scheduled?
    ensures NoNewReview(s, Step(s, ScheduledStart(t)))
  {
    hide PoolOwned, TurnsPooled, LatchesOwned, MutationsSerial, DrainsHonest, LaunchesResolve, StartTurn, Wf;
    ResumeKeepsOwned(s, t);
    var s1, key, text := Finish(s, t), s.tasks[t].key, s.tasks[t].text;
    StartAdds(s1, key, text, None);
    PlainStart(s1, StartTurn(s1, key, text, None), key, text);
  }

  /** Plain inputs, timers and follow-ups bring no review in. */
  lemma InputReviews(s: Host, e: Event)
    requires Owned(s) && (e.Deliver? || e.PeerWake? || e.ResumeTimer? || e.ScheduledStart?)
    ensures NoNewReview(s, Step(s, e))
  {
    hide PoolOwned, TurnsPooled, LatchesOwned, MutationsSerial, DrainsHonest, LaunchesResolve, StartTurn, Wf, WakePeer;
    match e
    case Deliver(mode, body) =>
      StartAdds(s, s.activeKey, Text(User, s.activeKey, body), None);
      PlainStart(s, StartTurn(s, s.activeKey, Text(User, s.activeKey, body), None), s.activeKey,
        Text(User, s.activeKey, body));
    case PeerWake(key) => if key in s.peerWakes { WakeAdds(s, key); }
    case ResumeTimer(body) =>
      StartAdds(s, s.activeKey, Text(HostPrompt, s.activeKey, body), None);
      PlainStart(s, StartTurn(s, s.activeKey, Text(HostPrompt, s.activeKey, body), None), s.activeKey,
        Text(HostPrompt, s.activeKey, body));
    case ScheduledStart(t) => if t < |s.tasks| && s.tasks[t].Scheduled? { ScheduledAdds(s, t); }
  }

  /** Only a capture brings a review in; a resumed continuation hands on the one it carries. */
  lemma StepAdds(s: Host, e: Event)
    requires Owned(s) && !e.TailSettled? && !e.IntentIssued? && !e.ReviewedStart?
    ensures NoNewReview(s, Step(s, e))
  {
    hide Step, PoolOwned, TurnsPooled, LatchesOwned, MutationsSerial, DrainsHonest, LaunchesResolve, Wf;
    if MayStart(e) {
      InputReviews(s, e);
    } else {
      OthersStartNothing(s, e);
      QuietAddsNoReview(s, Step(s, e));
    }
  }

  lemma TasksGrow(s: Host, e: Event)
    requires Owned(s)
    ensures |s.tasks| <= |Step(s, e).tasks|
  {
    hide PoolOwned, TurnsPooled, LatchesOwned, MutationsSerial, DrainsHonest, LaunchesResolve;
    if !BeginsTurn(s, e) {
      hide Step;
      if MovesSessions(e) || TouchesDisk(e) { MoveSpares(s, e); } else { StepOrdinary(s, e); }
    }
  }

  lemma NoNewOrigin(s: Host, s': Host, v: Review)
    requires NoNewReview(s, s')
    ensures (Awaited(s', v) ==> Awaited(s, v)) && (Issued(s', v) ==> Issued(s, v))
  {}

  /** The continuation ends, and hands what it carries to at most one new one, which awaits no issuer. */
  ghost predicate HandsOn(s: Host, s': Host, t: TaskId)
    requires t < |s.tasks|
  {
    && |s.tasks| <= |s'.tasks| <= |s.tasks| + 1
    && (forall u :: 0 <= u < |s.tasks| ==> s'.tasks[u] == if u == t then Done else s.tasks[u])
    && (|s'.tasks| > |s.tasks| ==> !s'.tasks[|s.tasks|].Issuing? && ReviewOf(s', |s.tasks|) == ReviewOf(s, t))
  }

  lemma StartHandsOn(s: Host, t: TaskId, key: Key, text: Text, launch: Option<Launch>)
    requires t < |s.tasks| && Wf(Finish(s, t)) && (launch.Some? ==> launch.value.rt < |s.runtimes|)
    requires ReviewOf(s, t) == Reviewed(launch, text)
    ensures HandsOn(s, Finish(s, t), t)
    ensures HandsOn(s, StartTurn(Finish(s, t), key, text, launch), t)
    ensures HandsOn(s, Reserve(Finish(s, t), key, text, launch), t)
  {
    hide StartTurn, Reserve, Wf, LaunchIsCurrent;
    var s1 := Finish(s, t);
    StartAdds(s1, key, text, launch);
    ReserveAdds(s1, key, text, launch);
    AddedHandsOn(s, t, StartTurn(s1, key, text, launch), key, text, launch);
    AddedHandsOn(s, t, Reserve(s1, key, text, launch), key, text, launch);
  }

  lemma AddedHandsOn(s: Host, t: TaskId, s': Host, key: Key, text: Text, launch: Option<Launch>)
    requires t < |s.tasks| && ReviewOf(s, t) == Reviewed(launch, text)
    requires || s'.tasks == s.tasks[t := Done]
             || (|s'.tasks| == |s.tasks| + 1 && s'.tasks[..|s.tasks|] == s.tasks[t := Done]
                 && (var x := s'.tasks[|s.tasks|];
                     (x.WaitingStart? || x.Validating?) && x.text == text && x.launch == launch))
    ensures HandsOn(s, s', t)
  {
    forall u | 0 <= u < |s.tasks| ensures s'.tasks[u] == if u == t then Done else s.tasks[u] {
      assert s'.tasks == s.tasks[t := Done] || s'.tasks[..|s.tasks|][u] == s.tasks[t := Done][u];
    }
  }

  /** A resumed start hands on its review, an issued intent its own; a refused intent hands on nothing. */
  lemma ResumedHandsOn(s: Host, e: Event)
    requires Owned(s) && (e.TailSettled? || e.IntentIssued?) && e.task < |s.tasks|
    requires if e.TailSettled? then s.tasks[e.task].WaitingStart? && s.tasks[e.task].until <= s.settled
      else s.tasks[e.task].Issuing?
    ensures HandsOn(s, Step(s, e), e.task)
    ensures e.IntentIssued? && !e.ok ==> |Step(s, e).tasks| == |s.tasks|
  {
    hide PoolOwned, TurnsPooled, LatchesOwned, MutationsSerial, DrainsHonest, Reserve, StartTurn, HandsOn;
    hide DeliverInput, DeliverPeer, WakePeer, AutoResume, PublishExternal, BeginReviewed, PolicyReturn, FinishTurn;
    hide StartHead, Install, ParkedCurrent, PollTurns, RequestReplacement, InstallReplacement, PollLearning;
    ResumeKeepsOwned(s, e.task);
    var task := s.tasks[e.task];
    var launch := if e.TailSettled? then task.launch else Some(Launch(task.rt, task.at, e.task));
    StartHandsOn(s, e.task, task.key, task.text, launch);
  }

  lemma HandedOrigin(s: Host, s': Host, t: TaskId, v: Review)
    requires t < |s.tasks| && HandsOn(s, s', t)
    ensures Awaited(s', v) ==> Awaited(s, v)
    ensures Issued(s', v) ==>
      || Issued(s, v)
      || (|s'.tasks| > |s.tasks| && s.tasks[t].Issuing? && ReviewOf(s, t) == Some(v))
  {
    if Issued(s', v) {
      var u :| 0 <= u < |s'.tasks| && !s'.tasks[u].Issuing? && ReviewOf(s', u) == Some(v);
      if u < |s.tasks| {
        assert ReviewOf(s, u) == Some(v);
      } else if !s.tasks[t].Issuing? {
        assert ReviewOf(s, t) == Some(v);
      }
    }
    if Awaited(s', v) {
      var u :| 0 <= u < |s'.tasks| && s'.tasks[u].Issuing? && ReviewOf(s', u) == Some(v);
      assert ReviewOf(s, u) == Some(v);
    }
  }

  lemma ReviewOrigin(s: Host, body: string, v: Review)
    requires Owned(s)
    ensures Issued(BeginReviewed(s, body), v) ==> Issued(s, v)
    ensures Awaited(BeginReviewed(s, body), v) ==>
      Awaited(s, v) || (CapturedBy(s, body) == Some(v.launch) && v.text == Text(User, s.activeKey, body))
  {
    var s' := BeginReviewed(s, body);
    if Issued(s', v) {
      var t :| 0 <= t < |s'.tasks| && !s'.tasks[t].Issuing? && ReviewOf(s', t) == Some(v);
      assert ReviewOf(s, t) == Some(v);
    }
    if Awaited(s', v) {
      var t :| 0 <= t < |s'.tasks| && s'.tasks[t].Issuing? && ReviewOf(s', t) == Some(v);
      assert t < |s.tasks| ==> ReviewOf(s, t) == Some(v);
    }
  }

  /** The issuer of this review answers, and with a handle. */
  ghost predicate Issues(s: Host, e: Event, v: Review) {
    e == IntentIssued(v.launch.review, true) && v.launch.review < |s.tasks| && ReviewOf(s, v.launch.review) == Some(v)
    && s.tasks[v.launch.review].Issuing?
  }

  /** A review awaits its issuer only since its capture, and is carried further only since its handle was issued. */
  lemma StepOrigin(s: Host, e: Event, v: Review)
    requires Owned(s)
    ensures Awaited(Step(s, e), v) ==>
      || Awaited(s, v)
      || (e.ReviewedStart? && CapturedBy(s, e.body) == Some(v.launch) && v.text == Text(User, s.activeKey, e.body))
    ensures Issued(Step(s, e), v) ==> Issued(s, v) || Issues(s, e, v)
  {
    hide PoolOwned, TurnsPooled, LatchesOwned, MutationsSerial, DrainsHonest, Wf, CapturedBy, BeginReviewed;
    hide DeliverInput, DeliverPeer, WakePeer, AutoResume, PublishExternal, Reserve, StartTurn, PolicyReturn, FinishTurn;
    hide IntentReturn, StartHead, Install, ParkedCurrent, PollTurns, RequestReplacement, InstallReplacement;
    hide PollLearning, NoNewReview, Awaited, Issued, HandsOn;
    if e.ReviewedStart? {
      ReviewOrigin(s, e.body, v);
    } else if e.TailSettled? {
      if e.task < |s.tasks| && s.tasks[e.task].WaitingStart? && s.tasks[e.task].until <= s.settled {
        ResumedHandsOn(s, e);
        HandedOrigin(s, Step(s, e), e.task, v);
      }
    } else if e.IntentIssued? {
      if e.task < |s.tasks| && s.tasks[e.task].Issuing? {
        ResumedHandsOn(s, e);
        HandedOrigin(s, Step(s, e), e.task, v);
      }
    } else {
      hide Step;
      StepAdds(s, e);
      NoNewOrigin(s, Step(s, e), v);
    }
  }

  // ---------------------------------------------------------------------------------------
  // Each review is carried once
  // ---------------------------------------------------------------------------------------

  predicate SameReview(v: Option<Review>, w: Option<Review>) {
    v.Some? && w.Some? && v.value.launch.review == w.value.launch.review
  }

  /** No two continuations carry one review, and none a review that was not captured yet. */
  ghost predicate Unique(s: Host) {
    && (forall t :: 0 <= t < |s.tasks| && ReviewOf(s, t).Some? ==> ReviewOf(s, t).value.launch.review < |s.tasks|)
    && (forall t, u :: 0 <= t < |s.tasks| && 0 <= u < |s.tasks| && SameReview(ReviewOf(s, t), ReviewOf(s, u)) ==>
        t == u)
  }

  lemma NoNewUnique(s: Host, s': Host)
    requires Unique(s) && NoNewReview(s, s') && |s.tasks| <= |s'.tasks|
    ensures Unique(s')
  {}

  lemma HandedUnique(s: Host, s': Host, t: TaskId)
    requires Unique(s) && t < |s.tasks| && HandsOn(s, s', t)
    ensures Unique(s')
  {
    assert forall u :: 0 <= u < |s.tasks| && u != t ==> ReviewOf(s', u) == ReviewOf(s, u);
    assert ReviewOf(s', t) == None;
  }

  lemma ReviewUnique(s: Host, body: string)
    requires Owned(s) && Unique(s)
    ensures Unique(BeginReviewed(s, body))
  {
    var s' := BeginReviewed(s, body);
    assert forall u :: 0 <= u < |s.tasks| ==> ReviewOf(s', u) == ReviewOf(s, u);
  }

  lemma StepKeepsUnique(s: Host, e: Event)
    requires Owned(s) && Unique(s)
    ensures Unique(Step(s, e))
  {
    hide PoolOwned, TurnsPooled, LatchesOwned, MutationsSerial, DrainsHonest, Wf, Unique, BeginReviewed;
    hide DeliverInput, DeliverPeer, WakePeer, AutoResume, PublishExternal, Reserve, StartTurn, PolicyReturn, FinishTurn;
    hide IntentReturn, StartHead, Install, ParkedCurrent, PollTurns, RequestReplacement, InstallReplacement;
    hide PollLearning, NoNewReview, HandsOn;
    if e.ReviewedStart? {
      ReviewUnique(s, e.body);
    } else if e.TailSettled? {
      if e.task < |s.tasks| && s.tasks[e.task].WaitingStart? && s.tasks[e.task].until <= s.settled {
        ResumedHandsOn(s, e);
        HandedUnique(s, Step(s, e), e.task);
      }
    } else if e.IntentIssued? {
      if e.task < |s.tasks| && s.tasks[e.task].Issuing? {
        ResumedHandsOn(s, e);
        HandedUnique(s, Step(s, e), e.task);
      }
    } else {
      hide Step;
      StepAdds(s, e);
      TasksGrow(s, e);
      NoNewUnique(s, Step(s, e));
    }
  }

  /** The review captured by this continuation was captured, and nobody carries it any more. */
  ghost predicate Spent(s: Host, review: TaskId) {
    && review < |s.tasks|
    && (forall t :: 0 <= t < |s.tasks| && ReviewOf(s, t).Some? ==> ReviewOf(s, t).value.launch.review != review)
  }

  lemma StepKeepsSpent(s: Host, e: Event, review: TaskId)
    requires Owned(s) && Spent(s, review)
    ensures Spent(Step(s, e), review)
  {
    hide PoolOwned, TurnsPooled, LatchesOwned, MutationsSerial, DrainsHonest, LaunchesResolve, Wf, Step;
    var s' := Step(s, e);
    TasksGrow(s, e);
    forall t | 0 <= t < |s'.tasks| && ReviewOf(s', t).Some? ensures ReviewOf(s', t).value.launch.review != review {
      var v := ReviewOf(s', t).value;
      StepOrigin(s, e, v);
      assert Awaited(s', v) || Issued(s', v);
    }
  }

  lemma {:induction false} RunKeepsSpent(s: Host, es: seq<Event>, review: TaskId)
    requires Owned(s) && Spent(s, review)
    ensures Spent(Run(s, es), review)
    decreases es
  {
    hide Step, Spent, PoolOwned, TurnsPooled, LatchesOwned, MutationsSerial, DrainsHonest, Wf;
    if es != [] {
      StepKeepsOwned(s, es[0]);
      StepKeepsSpent(s, es[0], review);
      RunKeepsSpent(Step(s, es[0]), es[1..], review);
    }
  }

  lemma {:induction false} RunKeepsUnique(s: Host, es: seq<Event>)
    requires Owned(s) && Unique(s)
    ensures Unique(Run(s, es))
    decreases es
  {
    hide Step, Unique, PoolOwned, TurnsPooled, LatchesOwned, MutationsSerial, DrainsHonest, Wf;
    if es != [] {
      StepKeepsOwned(s, es[0]);
      StepKeepsUnique(s, es[0]);
      RunKeepsUnique(Step(s, es[0]), es[1..]);
    }
  }

  /** When the issuer refuses, nothing carries that review any more. */
  lemma RefusalSpends(s: Host, review: TaskId)
    requires Owned(s) && Unique(s) && review < |s.tasks| && s.tasks[review].Issuing?
    ensures Spent(Step(s, IntentIssued(review, false)), review)
  {
    hide PoolOwned, TurnsPooled, LatchesOwned, MutationsSerial, DrainsHonest, StartTurn;
    var s' := Step(s, IntentIssued(review, false));
    assert s'.tasks == s.tasks[review := Done];
    forall t | 0 <= t < |s'.tasks| && ReviewOf(s', t).Some? ensures ReviewOf(s', t).value.launch.review != review {
      assert t != review && ReviewOf(s, t) == ReviewOf(s', t);
      assert ReviewOf(s, review).value.launch.review == review;
    }
  }

  // ---------------------------------------------------------------------------------------
  // Every run
  // ---------------------------------------------------------------------------------------

  /** Over every run no two continuations carry one review: a reviewed launch runs at most once at a time. */
  lemma EveryReviewIsCarriedOnce(key: Key, spawns: bool, transcripts: set<Key>, es: seq<Event>, t: TaskId, u: TaskId)
    requires var r := FromStart(key, spawns, transcripts, es);
      && t < |r.tasks| && u < |r.tasks| && ReviewOf(r, t).Some? && ReviewOf(r, u).Some?
      && ReviewOf(r, t).value.launch.review == ReviewOf(r, u).value.launch.review
    ensures t == u
  {
    NewHostOwned(key, spawns, transcripts);
    RunKeepsUnique(NewHost(key, spawns, transcripts), es);
  }

  /** After a refused intent no continuation carries that review, whatever follows. */
  lemma RefusedIntentNeverRuns(key: Key, spawns: bool, transcripts: set<Key>, before: seq<Event>, review: TaskId,
      after: seq<Event>, t: TaskId)
    requires var s := FromStart(key, spawns, transcripts, before); review < |s.tasks| && s.tasks[review].Issuing?
    requires var r := FromStart(key, spawns, transcripts, before + [IntentIssued(review, false)] + after);
      t < |r.tasks| && ReviewOf(r, t).Some?
    ensures var r := FromStart(key, spawns, transcripts, before + [IntentIssued(review, false)] + after);
      ReviewOf(r, t).value.launch.review != review
  {
    hide Step, Unique, PoolOwned, TurnsPooled, LatchesOwned, MutationsSerial, DrainsHonest, Wf;
    var s0 := NewHost(key, spawns, transcripts);
    assert Owned(s0) && Unique(s0) by { NewHostUnique(key, spawns, transcripts); }
    RunKeepsUnique(s0, before);
    var e := IntentIssued(review, false);
    RunLast(key, spawns, transcripts, before, e);
    RunAppend(s0, before + [e], after);
    RefusalSpends(Run(s0, before), review);
    RunKeepsSpent(Run(s0, before + [e]), after, review);
  }

  lemma NewHostUnique(key: Key, spawns: bool, transcripts: set<Key>)
    ensures Owned(NewHost(key, spawns, transcripts)) && Unique(NewHost(key, spawns, transcripts))
  {
    NewHostOwned(key, spawns, transcripts);
  }

  /** The run captured this review after `before`, by the review of `body`. */
  ghost predicate CapturedAt(key: Key, spawns: bool, transcripts: set<Key>, es: seq<Event>, v: Review,
      before: seq<Event>, body: string, after: seq<Event>) {
    && es == before + [ReviewedStart(body)] + after
    && Captured(key, spawns, transcripts, before, body) == Some(v.launch)
    && v.text == Text(User, FromStart(key, spawns, transcripts, before).activeKey, body)
  }

  /** Every review that awaits its issuer was captured by an event of the run. */
  lemma {:induction false} EveryReviewWasCaptured(key: Key, spawns: bool, transcripts: set<Key>, es: seq<Event>,
      v: Review)
    requires Awaited(FromStart(key, spawns, transcripts, es), v)
    ensures exists before, body, after :: CapturedAt(key, spawns, transcripts, es, v, before, body, after)
    decreases |es|
  {
    hide PoolOwned, TurnsPooled, LatchesOwned, MutationsSerial, DrainsHonest, LaunchesResolve, Wf, Step, Awaited;
    hide CapturedBy;
    if es == [] {
      NewHostHoldsNothing(key, spawns, transcripts, v);
    } else {
      var init, e := es[..|es| - 1], es[|es| - 1];
      assert es == init + [e];
      RunLast(key, spawns, transcripts, init, e);
      var s := FromStart(key, spawns, transcripts, init);
      StepOrigin(s, e, v);
      if Awaited(s, v) {
        EveryReviewWasCaptured(key, spawns, transcripts, init, v);
        var before, body, after :| CapturedAt(key, spawns, transcripts, init, v, before, body, after);
        assert es == before + [ReviewedStart(body)] + (after + [e]);
        assert CapturedAt(key, spawns, transcripts, es, v, before, body, after + [e]);
      } else {
        assert es == init + [ReviewedStart(e.body)] + [];
        assert CapturedAt(key, spawns, transcripts, es, v, init, e.body, []);
      }
    }
  }

  lemma NewHostHoldsNothing(key: Key, spawns: bool, transcripts: set<Key>, v: Review)
    ensures var s := FromStart(key, spawns, transcripts, []); !Awaited(s, v) && !Issued(s, v)
  {
    NewHostOwned(key, spawns, transcripts);
  }

  /** The run captured this review, and later its issuer returned a handle. */
  ghost predicate IssuedAt(key: Key, spawns: bool, transcripts: set<Key>, es: seq<Event>, v: Review,
      before: seq<Event>, body: string, awaiting: seq<Event>, after: seq<Event>) {
    && es == before + [ReviewedStart(body)] + awaiting + [IntentIssued(v.launch.review, true)] + after
    && CapturedAt(key, spawns, transcripts, before + [ReviewedStart(body)] + awaiting, v, before, body, awaiting)
  }

  /** Every review carried past its issuer was captured, and its handle was issued afterwards. */
  lemma {:induction false} EveryLaunchWasIssued(key: Key, spawns: bool, transcripts: set<Key>, es: seq<Event>,
      v: Review)
    requires Issued(FromStart(key, spawns, transcripts, es), v)
    ensures exists before, body, awaiting, after ::
      IssuedAt(key, spawns, transcripts, es, v, before, body, awaiting, after)
    decreases |es|
  {
    hide PoolOwned, TurnsPooled, LatchesOwned, MutationsSerial, DrainsHonest, LaunchesResolve, Wf, Step, Issued;
    hide CapturedAt;
    if es == [] {
      NewHostHoldsNothing(key, spawns, transcripts, v);
    } else {
      var init, e := es[..|es| - 1], es[|es| - 1];
      assert es == init + [e];
      RunLast(key, spawns, transcripts, init, e);
      var s := FromStart(key, spawns, transcripts, init);
      StepOrigin(s, e, v);
      if Issued(s, v) {
        EveryLaunchWasIssued(key, spawns, transcripts, init, v);
        var before, body, awaiting, after :|
          IssuedAt(key, spawns, transcripts, init, v, before, body, awaiting, after);
        assert es == before + [ReviewedStart(body)] + awaiting + [IntentIssued(v.launch.review, true)] + (after + [e]);
        assert IssuedAt(key, spawns, transcripts, es, v, before, body, awaiting, after + [e]);
      } else {
        EveryReviewWasCaptured(key, spawns, transcripts, init, v);
        var before, body, awaiting :| CapturedAt(key, spawns, transcripts, init, v, before, body, awaiting);
        CapturedSplits(key, spawns, transcripts, init, v, before, body, awaiting);
        assert es == before + [ReviewedStart(body)] + awaiting + [IntentIssued(v.launch.review, true)] + [];
        assert IssuedAt(key, spawns, transcripts, es, v, before, body, awaiting, []);
      }
    }
  }

  lemma CapturedSplits(key: Key, spawns: bool, transcripts: set<Key>, es: seq<Event>, v: Review,
      before: seq<Event>, body: string, after: seq<Event>)
    requires CapturedAt(key, spawns, transcripts, es, v, before, body, after)
    ensures es == before + [ReviewedStart(body)] + after
  {}

  /** A running turn was running before the step, or the step's allowed policy check called it. */
  lemma StepCalls(s: Host, e: Event, t: TaskId)
    requires Owned(s) && t < |Step(s, e).tasks| && Step(s, e).tasks[t].Running?
    ensures (t < |s.tasks| && s.tasks[t] == Step(s, e).tasks[t])
      || (e == PolicyReturned(t, Allowed) && Step(s, e).tasks[t].calledAt == Generation(Step(s, e)))
  {
    hide PoolOwned, TurnsPooled, LatchesOwned, MutationsSerial, DrainsHonest, LaunchesResolve;
    if !BeginsTurn(s, e) {
      hide Step;
      if MovesSessions(e) || TouchesDisk(e) { MoveSpares(s, e); } else { StepOrdinary(s, e); }
    }
  }

  /** The last event of the run called this turn. */
  ghost predicate CalledBy(key: Key, spawns: bool, transcripts: set<Key>, es: seq<Event>, t: TaskId, task: Task) {
    && es != [] && es[|es| - 1] == PolicyReturned(t, Allowed)
    && var r := FromStart(key, spawns, transcripts, es);
       t < |r.tasks| && r.tasks[t].Running? && r.tasks[t] == task && task.calledAt == Generation(r)
  }

  /** Every running turn was called by an allowed policy check at the end of some prefix of the run. */
  lemma {:induction false} EveryTurnWasCalled(key: Key, spawns: bool, transcripts: set<Key>, es: seq<Event>, t: TaskId)
    requires var r := FromStart(key, spawns, transcripts, es); t < |r.tasks| && r.tasks[t].Running?
    ensures exists n :: 0 <= n <= |es| && CalledBy(key, spawns, transcripts, es[..n], t,
      FromStart(key, spawns, transcripts, es).tasks[t])
    decreases |es|
  {
    hide PoolOwned, TurnsPooled, LatchesOwned, MutationsSerial, DrainsHonest, LaunchesResolve, Wf, Step;
    if es == [] {
      NewHostOwned(key, spawns, transcripts);
    } else {
      var init, e := es[..|es| - 1], es[|es| - 1];
      assert es == init + [e];
      RunLast(key, spawns, transcripts, init, e);
      var s := FromStart(key, spawns, transcripts, init);
      StepCalls(s, e, t);
      assert es[..|es|] == es;
      if !CalledBy(key, spawns, transcripts, es, t, FromStart(key, spawns, transcripts, es).tasks[t]) {
        EveryTurnWasCalled(key, spawns, transcripts, init, t);
        var n :| 0 <= n <= |init| && CalledBy(key, spawns, transcripts, init[..n], t, s.tasks[t]);
        assert init[..n] == es[..n];
      }
    }
  }

  /** The user interrupts, authority is revoked, or a session mutation is submitted. */
  predicate Interferes(e: Event) {
    e.Interrupt? || e.Revoke? || (e.Submit? && !e.request.DeferredSwitch?)
  }

  lemma AuthorityOnlyGrows(key: Key, spawns: bool, transcripts: set<Key>, a: seq<Event>, b: seq<Event>)
    ensures FromStart(key, spawns, transcripts, a).authority <= FromStart(key, spawns, transcripts, a + b).authority
  {
    hide Step, PoolOwned, TurnsPooled, LatchesOwned, MutationsSerial, DrainsHonest, LaunchesResolve, Wf, Launched;
    var s0 := NewHost(key, spawns, transcripts);
    NewHostOwned(key, spawns, transcripts);
    NewHostLaunched(key, spawns, transcripts);
    RunKeepsLaunched(s0, a);
    RunKeepsLaunched(Run(s0, a), b);
    RunAppend(s0, a, b);
  }

  lemma InterferenceCounts(s: Host, e: Event)
    requires Owned(s) && Interferes(e)
    ensures var s' := Step(s, e);
      |s'.authority| == |s.authority| + 1 && !s'.authority[|s.authority|].TurnReserved?
  {
    hide DeliverInput, DeliverPeer, WakePeer, AutoResume, PublishExternal, BeginReviewed, Reserve, StartTurn;
    hide PolicyReturn;
    hide FinishTurn, IntentReturn, StartHead, Install, ParkedCurrent, PollTurns, RequestReplacement, InstallReplacement;
    hide PollLearning, PoolOwned, TurnsPooled, LatchesOwned, MutationsSerial, DrainsHonest, Wf;
  }

  /** When one reservation is all that was added to the authority log, nothing interfered meanwhile. */
  lemma NothingInterfered(key: Key, spawns: bool, transcripts: set<Key>, before: seq<Event>, during: seq<Event>,
      reserved: Authority, e: Event)
    requires reserved.TurnReserved? && e in during
    requires FromStart(key, spawns, transcripts, before + during).authority ==
      FromStart(key, spawns, transcripts, before).authority + [reserved]
    ensures !Interferes(e)
  {
    hide FromStart, Step, PoolOwned, TurnsPooled, LatchesOwned, MutationsSerial, DrainsHonest, LaunchesResolve, Wf;
    var i :| 0 <= i < |during| && during[i] == e;
    var mid, next := before + during[..i], before + during[..i] + [e];
    RunLast(key, spawns, transcripts, mid, e);
    AuthorityOnlyGrows(key, spawns, transcripts, before, during[..i]);
    AuthorityOnlyGrows(key, spawns, transcripts, next, during[i + 1..]);
    assert before + during == next + during[i + 1..];
    if Interferes(e) {
      InterferenceCounts(FromStart(key, spawns, transcripts, mid), e);
    }
  }

  /**
   * The turn's intent was captured by the review of its own prompt, issued during what followed, and
   * called at the end of that; the fence's conclusions hold at every point in between.
   */
  ghost predicate Fenced(key: Key, spawns: bool, transcripts: set<Key>, es: seq<Event>, t: TaskId, task: Task,
      before: seq<Event>, body: string, during: seq<Event>, after: seq<Event>) {
    && es == before + [ReviewedStart(body)] + during + after
    && task.Running? && task.launch.Some? && Captured(key, spawns, transcripts, before, body) == task.launch
    && IntentIssued(task.launch.value.review, true) in during
    && (forall e <- during :: !Interferes(e))
    && CalledBy(key, spawns, transcripts, before + [ReviewedStart(body)] + during, t, task)
    && var c := FromStart(key, spawns, transcripts, before + [ReviewedStart(body)]);
       var r := FromStart(key, spawns, transcripts, before + [ReviewedStart(body)] + during);
       && task.launch.value.review < |c.tasks| && c.tasks[task.launch.value.review].Issuing?
       && r.authority == c.authority + [TurnReserved(c.activeKey, t)]
       && task.key == c.activeKey && c.activeKey in c.pool && task.rt == c.pool[c.activeKey]
       && task.text == Text(User, c.activeKey, body)
       && forall m :: 0 <= m <= |during| ==>
           Steady(c, FromStart(key, spawns, transcripts, before + [ReviewedStart(body)] + during[..m]))
  }

  /** What the capture leaves: the continuation that awaits the issuer, in the session that was viewed. */
  lemma CaptureAwaits(key: Key, spawns: bool, transcripts: set<Key>, before: seq<Event>, body: string)
    requires Captured(key, spawns, transcripts, before, body).Some?
    ensures var c := FromStart(key, spawns, transcripts, before + [ReviewedStart(body)]);
      var launch := Captured(key, spawns, transcripts, before, body).value;
      && launch.review < |c.tasks| && c.tasks[launch.review].Issuing?
      && c.activeKey == FromStart(key, spawns, transcripts, before).activeKey
  {
    RunLast(key, spawns, transcripts, before, ReviewedStart(body));
    hide FromStart, PoolOwned, TurnsPooled, LatchesOwned, MutationsSerial, DrainsHonest, LaunchesResolve;
  }

  /**
   * In every run, every running turn that carries an intent was captured by one review of the run,
   * its handle was issued by an event after that and its policy check allowed it after that; and
   * from capture to call nobody interrupted, revoked or submitted a mutation, only its own reservation
   * touched the authority, and the viewed session kept its agent.
   */
  lemma EveryIntentIsFenced(key: Key, spawns: bool, transcripts: set<Key>, es: seq<Event>, t: TaskId)
    requires var r := FromStart(key, spawns, transcripts, es);
      t < |r.tasks| && r.tasks[t].Running? && r.tasks[t].launch.Some?
    ensures exists before, body, during, after ::
      Fenced(key, spawns, transcripts, es, t, FromStart(key, spawns, transcripts, es).tasks[t], before, body, during,
        after)
  {
    hide PoolOwned, TurnsPooled, LatchesOwned, MutationsSerial, DrainsHonest, LaunchesResolve, Wf, Step, Captured;
    hide Steady, FromStart;
    var task := FromStart(key, spawns, transcripts, es).tasks[t];
    EveryTurnWasCalled(key, spawns, transcripts, es, t);
    var n :| 0 <= n <= |es| && CalledBy(key, spawns, transcripts, es[..n], t, task);
    var v := Review(task.launch.value, task.text);
    assert ReviewOf(FromStart(key, spawns, transcripts, es[..n]), t) == Some(v);
    EveryLaunchWasIssued(key, spawns, transcripts, es[..n], v);
    var before, body, awaiting, rest :|
      IssuedAt(key, spawns, transcripts, es[..n], v, before, body, awaiting, rest);
    var during := awaiting + [IntentIssued(v.launch.review, true)] + rest;
    assert es[..n] == before + [ReviewedStart(body)] + during;
    assert during[|awaiting|] == IntentIssued(v.launch.review, true);
    CaptureAwaits(key, spawns, transcripts, before, body);
    FenceInEveryRun(key, spawns, transcripts, before, body, during, t, |during|);
    forall m | 0 <= m <= |during|
      ensures Steady(FromStart(key, spawns, transcripts, before + [ReviewedStart(body)]),
        FromStart(key, spawns, transcripts, before + [ReviewedStart(body)] + during[..m]))
    {
      FenceInEveryRun(key, spawns, transcripts, before, body, during, t, m);
    }
    forall e | e in during ensures !Interferes(e) {
      NothingInterfered(key, spawns, transcripts, before + [ReviewedStart(body)], during,
        TurnReserved(FromStart(key, spawns, transcripts, before + [ReviewedStart(body)]).activeKey, t), e);
    }
    assert es == es[..n] + es[n..];
    assert Fenced(key, spawns, transcripts, es, t, task, before, body, during, es[n..]);
  }
}
