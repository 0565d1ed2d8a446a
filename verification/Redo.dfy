/** What a review can change: the redo frame, what synthesis sees, and whose feedback reaches
    the subtasks that are sent back. */
module Redo {
  import opened Schemas
  import opened Reducers
  import opened Graph
  import opened GraphInvariant
  import opened Progress
  import opened Traces

  // ---------------------------------------------------------------- the redo frame

  predicate BetweenReviews(pc: Node) {
    pc.ApplyReviewFeedback? || pc.RouteBatch? || pc.RunSpecialists?
  }

  /** Since `c0`, only subtasks of the plan among `sent` were executed, and every other result
      is the one `c0` had, still successful. */
  ghost predicate Frame(c0: Config, sent: set<Id>, c: Config) {
    var t0, t := c0.st.trace, c.st.trace;
    && c.st.plan == c0.st.plan && c.st.review == c0.st.review
    && |t0| <= |t| && t[..|t0|] == t0
    && (forall k :: |t0| <= k < |t| && t[k].EvRun? ==> t[k].id in sent && t[k].id in Subtasks(c0.st))
    && (forall id :: id !in sent ==> SameResult(c0.st, c.st, id))
    && (forall id :: id in Subtasks(c0.st) && id !in sent ==> Succeeded(c0.st.completed, id))
  }

  predicate SameResult(s: State, t: State, id: Id) {
    && (id in s.completed <==> id in t.completed)
    && (id in s.completed && id in t.completed ==> s.completed[id] == t.completed[id])
  }

  lemma BatchWasSent(L: Limits, c0: Config, sent: set<Id>, c: Config)
    requires c.pc.RunSpecialists? && ValidBatch(L, c.st, c.pc.batch) && Frame(c0, sent, c)
    ensures forall id :: id in c.pc.batch ==> id in sent && id in Subtasks(c0.st)
  {
    forall id | id in c.pc.batch ensures id in sent && id in Subtasks(c0.st) {
      assert IsReady(L, c.st, id);
      assert SameResult(c0.st, c.st, id) || id in sent;
    }
  }

  lemma OnlyBatchRuns(trace: seq<Event>, batch: seq<Id>, answers: map<Id, Outcome>, k: nat)
    requires |trace| <= k < |trace + RunEvents(batch, answers)|
    ensures var e := (trace + RunEvents(batch, answers))[k];
            e.EvRun? && e.id in batch
  {
    RunEventsAreRuns(batch, answers);
    assert (trace + RunEvents(batch, answers))[k] in RunEvents(batch, answers);
  }

  lemma BatchKeepsFrame(L: Limits, c0: Config, sent: set<Id>, c: Config, i: Input)
    requires Inv(L, c) && c.pc.RunSpecialists? && Frame(c0, sent, c)
    ensures Frame(c0, sent, Step(L, c, i))
  {
    BatchStepIs(L, c, i);
    BatchWasSent(L, c0, sent, c);
    var n := Step(L, c, i).st;
    forall k | |c.st.trace| <= k < |n.trace| ensures n.trace[k].EvRun? && n.trace[k].id in c.pc.batch {
      OnlyBatchRuns(c.st.trace, c.pc.batch, i.answers, k);
    }
    forall id | id !in sent ensures SameResult(c0.st, n, id) {
      assert SameResult(c0.st, c.st, id);
    }
  }

  lemma FeedbackKeepsFrame(L: Limits, c0: Config, sent: set<Id>, c: Config, i: Input)
    requires c.pc.ApplyReviewFeedback? && Frame(c0, sent, c)
    requires c.st.review.Some? && IdSet(c.st.review.value.redo) <= sent
    ensures Frame(c0, sent, Step(L, c, i))
  {
    forall id | id !in sent ensures SameResult(c0.st, Step(L, c, i).st, id) {
      assert SameResult(c0.st, c.st, id);
    }
  }

  ghost predicate Undisturbed(L: Limits, c: Config, inputs: seq<Input>) {
    forall k :: 0 <= k < |inputs| ==> StillBetween(L, c, inputs, k)
  }

  ghost predicate StillBetween(L: Limits, c: Config, inputs: seq<Input>, k: nat)
    requires k <= |inputs|
  {
    BetweenReviews(Run(L, c, inputs[..k]).pc)
  }

  lemma UndisturbedPrefix(L: Limits, c: Config, inputs: seq<Input>)
    requires inputs != [] && Undisturbed(L, c, inputs)
    ensures Undisturbed(L, c, inputs[..|inputs|-1])
    ensures BetweenReviews(Run(L, c, inputs[..|inputs|-1]).pc)
  {
    var front := inputs[..|inputs|-1];
    assert StillBetween(L, c, inputs, |front|);
    forall k | 0 <= k < |front| ensures StillBetween(L, c, front, k) {
      assert front[..k] == inputs[..k];
      assert StillBetween(L, c, inputs, k);
    }
  }

  lemma {:induction false} FrameHolds(L: Limits, c0: Config, sent: set<Id>, inputs: seq<Input>)
    requires Inv(L, c0) && c0.st.review.Some? && IdSet(c0.st.review.value.redo) <= sent
    requires Frame(c0, sent, c0) && Undisturbed(L, c0, inputs)
    ensures Inv(L, Run(L, c0, inputs)) && Frame(c0, sent, Run(L, c0, inputs))
  {
    if inputs != [] {
      var front, i := inputs[..|inputs|-1], inputs[|inputs|-1];
      UndisturbedPrefix(L, c0, inputs);
      FrameHolds(L, c0, sent, front);
      var c := Run(L, c0, front);
      StepKeepsInv(L, c, i);
      if c.pc.RunSpecialists? { BatchKeepsFrame(L, c0, sent, c, i); }
      else if c.pc.ApplyReviewFeedback? { FeedbackKeepsFrame(L, c0, sent, c, i); }
    }
  }

  /** From a rejecting review to the next review, with no human in between: only subtasks of the
      plan that the review named are executed, and every other result arrives there unchanged. In
      particular the dependents of a redone subtask are not run again. */
  lemma RedoFrame(L: Limits, requireApproval: bool, past: seq<Input>, i: Input, inputs: seq<Input>)
    requires Run(L, Start(requireApproval), past).pc.Review?
    requires Step(L, Run(L, Start(requireApproval), past), i).pc.ApplyReviewFeedback?
    requires Undisturbed(L, Step(L, Run(L, Start(requireApproval), past), i), inputs)
    ensures var c0 := Step(L, Run(L, Start(requireApproval), past), i);
            Frame(c0, IdSet(i.review.redo), Run(L, c0, inputs))
  {
    RunKeepsInv(L, requireApproval, past);
    var c := Run(L, Start(requireApproval), past);
    StepKeepsInv(L, c, i);
    FrameHolds(L, Step(L, c, i), IdSet(i.review.redo), inputs);
  }

  // ---------------------------------------------------------------- what synthesis sees

  /** The last piece of work in the log is a review, not a specialist run. */
  predicate ReviewedLast(trace: seq<Event>) {
    if trace == [] then false
    else
      var e := trace[|trace|-1];
      e.EvReview? || (!e.EvRun? && ReviewedLast(trace[..|trace|-1]))
  }

  ghost predicate SynthesisInv(L: Limits, c: Config) {
    var st := c.st;
    match c.pc
    case NotifyHuman => AllSucceeded(st) && ReviewedLast(st.trace)
    case HumanEscalation => st.review.Some? ==> (AllSucceeded(st) <==> ReviewedLast(st.trace))
    case ApplyHumanDecision => st.review.Some? ==> (AllSucceeded(st) <==> ReviewedLast(st.trace))
    case Synthesize => AllSucceeded(st) <==> ReviewedLast(st.trace)
    case RouteBatch => st.review.Some? && ReviewedLast(st.trace) ==> NoFailureOutside(st, {})
    case _ => true
  }

  lemma {:induction false} RunsAreNotReviews(trace: seq<Event>, batch: seq<Id>, answers: map<Id, Outcome>)
    requires batch != []
    ensures !ReviewedLast(trace + RunEvents(batch, answers))
  {
    var front, last := batch[..|batch|-1], batch[|batch|-1];
    AppendAssociates(trace, RunEvents(front, answers), EvRun(last, AnswerFor(answers, last).success));
    Snoc(trace + RunEvents(front, answers), EvRun(last, AnswerFor(answers, last).success));
  }

  /** After a review, the scheduler escalates only over a stuck specialist. */
  lemma EscalationAfterReview(L: Limits, st: State)
    requires PlanInv(st) && st.review.Some? && DecideNextBatch(L, st).Escalate?
    ensures SomeStuck(L, st) && !AllSucceeded(st) && !NoFailureOutside(st, {})
  {
    if SomeStuck(L, st) {
      var id :| id in Subtasks(st) && IsStuck(L, st, id);
      assert Failed(st.completed, id);
    } else {
      VerdictWithoutStuck(L, st);
      var id :| id in Subtasks(st) && !Succeeded(st.completed, id);
      assert Unfinished(st, id);
    }
  }

  /** The ids an escalation of the scheduler shows to the human are the ids that made it stop exactly
      when nothing was reviewed yet: `human_escalation` shows none after a review, though some are
      stuck. */
  lemma ShownIdsAreTheStuckOnes(L: Limits, requireApproval: bool, inputs: seq<Input>)
    ensures var c := Run(L, Start(requireApproval), inputs);
            var shown := RaiseEscalation(L, c.st).stuckIds;
            c.pc.RouteBatch? && DecideNextBatch(L, c.st).Escalate? ==>
              (shown == (set id | id in Subtasks(c.st) && IsStuck(L, c.st, id)) <==> c.st.review.None?)
  {
    RunKeepsInv(L, requireApproval, inputs);
    var c := Run(L, Start(requireApproval), inputs);
    if c.pc.RouteBatch? && DecideNextBatch(L, c.st).Escalate? {
      StuckIdsAreTheStuckOnes(L, c.st);
      if c.st.review.Some? { EscalationAfterReview(L, c.st); }
    }
  }

  lemma FeedbackLeavesNoFailure(st: State, r: ReviewResult)
    requires NoFailureOutside(st, IdSet(r.redo))
    ensures NoFailureOutside(FeedbackNode(st, r), {})
  {
    var s := FeedbackNode(st, r);
    assert forall id :: id in s.completed ==> id in st.completed && s.completed[id] == st.completed[id];
  }

  lemma ScheduleKeepsSynthesis(L: Limits, c: Config, i: Input)
    requires PlanInv(c.st) && c.pc.RouteBatch? && SynthesisInv(L, c)
    ensures SynthesisInv(L, Step(L, c, i))
  {
    if DecideNextBatch(L, c.st).Escalate? && c.st.review.Some? { EscalationAfterReview(L, c.st); }
  }

  lemma BatchKeepsSynthesis(L: Limits, c: Config, i: Input)
    requires Inv(L, c) && c.pc.RunSpecialists?
    ensures SynthesisInv(L, Step(L, c, i))
  {
    BatchStepIs(L, c, i);
    RunsAreNotReviews(c.st.trace, c.pc.batch, i.answers);
  }

  lemma ReviewKeepsSynthesis(L: Limits, c: Config, i: Input)
    requires c.pc.Review? && AllSucceeded(c.st)
    ensures SynthesisInv(L, Step(L, c, i))
  {
    Snoc(c.st.trace, EvReview(i.review));
    assert ReviewedLast(ReviewNode(c.st, i.review).trace);
    assert AllSucceeded(ReviewNode(c.st, i.review));
  }

  lemma NotifyKeepsSynthesis(L: Limits, c: Config, i: Input)
    requires c.pc.NotifyHuman? && c.st.review.Some? && SynthesisInv(L, c)
    ensures SynthesisInv(L, Step(L, c, i))
  {
    Snoc(c.st.trace, EvNotify);
    assert AllSucceeded(NotifyNode(c.st));
  }

  lemma EscalationKeepsSynthesis(L: Limits, c: Config, i: Input)
    requires c.pc.HumanEscalation? && SynthesisInv(L, c)
    ensures SynthesisInv(L, Step(L, c, i))
  {
    var n := EscalationNode(L, c.st, i.decision);
    Snoc(c.st.trace, EvEscalation(EscalationSource(L, c.st), i.decision.action, RaiseEscalation(L, c.st).stuckIds));
    assert ReviewedLast(n.trace) <==> ReviewedLast(c.st.trace);
    assert AllSucceeded(n) <==> AllSucceeded(c.st);
  }

  lemma DecisionKeepsSynthesis(L: Limits, c: Config, i: Input)
    requires c.pc.ApplyHumanDecision? && DecisionApplies(c.st) && SynthesisInv(L, c)
    requires IsReviewSource(c.st.source.value) ==> c.st.review.Some?
    requires c.st.source.value.SpecialistRetry? || IsPlanSource(c.st.source.value) ==> c.st.review.None?
    ensures SynthesisInv(L, Step(L, c, i))
  {
    var n := Step(L, c, i);
    if n.pc.Synthesize? {
      ApprovalOfReview(L, c, i);
    } else {
      assert n.pc.RouteBatch? ==> n.st.review.None?;
    }
  }

  /** Only an APPROVE of a reviewed result leads to synthesis, and it changes no result. */
  lemma ApprovalOfReview(L: Limits, c: Config, i: Input)
    requires c.pc.ApplyHumanDecision? && DecisionApplies(c.st) && Step(L, c, i).pc.Synthesize?
    ensures IsReviewSource(c.st.source.value)
    ensures AllSucceeded(Step(L, c, i).st) <==> AllSucceeded(c.st)
    ensures ReviewedLast(Step(L, c, i).st.trace) <==> ReviewedLast(c.st.trace)
  {
    var e := EvDecision(c.st.source.value, c.st.decision.value.action, c.st.escalation.value.stuckIds);
    Snoc(c.st.trace, e);
    assert Step(L, c, i).st == Log(c.st, e);
  }

  lemma StepKeepsSynthesis(L: Limits, c: Config, i: Input)
    requires Inv(L, c) && SynthesisInv(L, c)
    ensures SynthesisInv(L, Step(L, c, i))
  {
    match c.pc
    case RouteBatch => ScheduleKeepsSynthesis(L, c, i);
    case RunSpecialists(batch) => BatchKeepsSynthesis(L, c, i);
    case Review => ReviewKeepsSynthesis(L, c, i);
    case ApplyReviewFeedback => FeedbackLeavesNoFailure(c.st, c.st.review.value);
    case NotifyHuman => NotifyKeepsSynthesis(L, c, i);
    case HumanEscalation => EscalationKeepsSynthesis(L, c, i);
    case ApplyHumanDecision =>
      DecisionIsApplicable(L, c.st);
      DecisionKeepsSynthesis(L, c, i);
    case _ =>
  }

  /** Synthesis sees a fully successful plan exactly when the last work before it was a review:
      that is, unless a human approved an escalation the scheduler raised over a specialist that
      failed during a redo. */
  lemma {:induction false} SynthesisSeesAllSuccesses(L: Limits, requireApproval: bool, inputs: seq<Input>)
    ensures var c := Run(L, Start(requireApproval), inputs);
            && SynthesisInv(L, c)
            && (c.pc.Synthesize? ==> (AllSucceeded(c.st) <==> ReviewedLast(c.st.trace)))
  {
    if inputs != [] {
      var front := inputs[..|inputs|-1];
      SynthesisSeesAllSuccesses(L, requireApproval, front);
      RunKeepsInv(L, requireApproval, front);
      StepKeepsSynthesis(L, Run(L, Start(requireApproval), front), inputs[|inputs|-1]);
    }
  }

  // ---------------------------------------------------------------- failures since the last review

  /** The subtask failed after the last review in the log. */
  predicate FailedSinceReview(trace: seq<Event>, id: Id) {
    if trace == [] || trace[|trace|-1].EvReview? then false
    else trace[|trace|-1] == EvRun(id, false) || FailedSinceReview(trace[..|trace|-1], id)
  }

  ghost predicate FailuresAreRecent(st: State) {
    forall id :: Failed(st.completed, id) ==> FailedSinceReview(st.trace, id)
  }

  lemma {:induction false} FailedSinceOverBatch(trace: seq<Event>, batch: seq<Id>, answers: map<Id, Outcome>, id: Id)
    ensures FailedSinceReview(trace + RunEvents(batch, answers), id)
       <==> FailedSinceReview(trace, id) || (id in batch && !AnswerFor(answers, id).success)
  {
    if batch == [] {
      assert trace + [] == trace;
    } else {
      var front, last := batch[..|batch|-1], batch[|batch|-1];
      var e := EvRun(last, AnswerFor(answers, last).success);
      FailedSinceOverBatch(trace, front, answers, id);
      AppendAssociates(trace, RunEvents(front, answers), e);
      Snoc(trace + RunEvents(front, answers), e);
      assert id in batch <==> id in front || id == last;
    }
  }

  lemma BatchKeepsRecent(L: Limits, c: Config, i: Input)
    requires Inv(L, c) && c.pc.RunSpecialists? && FailuresAreRecent(c.st)
    ensures FailuresAreRecent(Step(L, c, i).st)
  {
    BatchStepIs(L, c, i);
    var n := Step(L, c, i).st;
    forall id | Failed(n.completed, id) ensures FailedSinceReview(n.trace, id) {
      FailedSinceOverBatch(c.st.trace, c.pc.batch, i.answers, id);
      if id !in c.pc.batch { assert Failed(c.st.completed, id); }
    }
  }

  lemma NoNewFailure(L: Limits, c: Config, i: Input, id: Id)
    requires Inv(L, c) && !c.pc.RunSpecialists? && Failed(Step(L, c, i).st.completed, id)
    ensures Failed(c.st.completed, id)
  {
    if c.pc.ApplyHumanDecision? {
      DecisionIsApplicable(L, c.st);
      DecisionAddsNoFailure(c.st, id);
    } else if c.pc.ApplyReviewFeedback? {
      FeedbackAddsNoFailure(c.st, c.st.review.value, id);
    }
  }

  lemma DecisionAddsNoFailure(st: State, id: Id)
    requires DecisionApplies(st) && Failed(DecisionNode(st).completed, id)
    ensures Failed(st.completed, id)
  {
  }

  lemma FeedbackAddsNoFailure(st: State, r: ReviewResult, id: Id)
    requires Failed(FeedbackNode(st, r).completed, id)
    ensures Failed(st.completed, id)
  {
  }

  lemma StepKeepsRecent(L: Limits, c: Config, i: Input)
    requires Inv(L, c) && FailuresAreRecent(c.st)
    ensures FailuresAreRecent(Step(L, c, i).st)
  {
    if c.pc.RunSpecialists? {
      BatchKeepsRecent(L, c, i);
    } else {
      var n := Step(L, c, i).st;
      StepAppends(L, c, i);
      forall id | Failed(n.completed, id) ensures FailedSinceReview(n.trace, id) {
        NoNewFailure(L, c, i, id);
        assert FailedSinceReview(c.st.trace, id);
        if c.pc.Review? { assert id in Subtasks(c.st); }
      }
    }
  }

  lemma {:induction false} RunKeepsRecent(L: Limits, requireApproval: bool, inputs: seq<Input>)
    ensures FailuresAreRecent(Run(L, Start(requireApproval), inputs).st)
  {
    if inputs != [] {
      var front := inputs[..|inputs|-1];
      RunKeepsRecent(L, requireApproval, front);
      RunKeepsInv(L, requireApproval, front);
      StepKeepsRecent(L, Run(L, Start(requireApproval), front), inputs[|inputs|-1]);
    }
  }

  lemma {:induction false} RecentFailureIsInTheLog(trace: seq<Event>, id: Id) returns (k: nat)
    requires FailedSinceReview(trace, id)
    ensures k < |trace| && trace[k] == EvRun(id, false)
    ensures forall m :: k < m < |trace| ==> !trace[m].EvReview?
  {
    if trace[|trace|-1] == EvRun(id, false) {
      k := |trace| - 1;
    } else {
      k := RecentFailureIsInTheLog(trace[..|trace|-1], id);
    }
  }

  /** Once something was reviewed, the scheduler escalates only over a stuck subtask whose specialist
      failed since the last review. */
  lemma EscalationsFollowAFailure(L: Limits, requireApproval: bool, inputs: seq<Input>) returns (id: Id, k: nat)
    ensures var c := Run(L, Start(requireApproval), inputs);
            c.pc.RouteBatch? && c.st.review.Some? && DecideNextBatch(L, c.st).Escalate? ==>
              && id in Subtasks(c.st) && IsStuck(L, c.st, id)
              && k < |c.st.trace| && c.st.trace[k] == EvRun(id, false)
              && forall m :: k < m < |c.st.trace| ==> !c.st.trace[m].EvReview?
  {
    var c := Run(L, Start(requireApproval), inputs);
    id, k := "", 0;
    if c.pc.RouteBatch? && c.st.review.Some? && DecideNextBatch(L, c.st).Escalate? {
      RunKeepsInv(L, requireApproval, inputs);
      RunKeepsRecent(L, requireApproval, inputs);
      EscalationAfterReview(L, c.st);
      id :| id in Subtasks(c.st) && IsStuck(L, c.st, id);
      k := RecentFailureIsInTheLog(c.st.trace, id);
    }
  }

  // ---------------------------------------------------------------- human guidance

  lemma ModifyUpdate(L: Limits, c: Config, i: Input)
    requires c.pc.ApplyHumanDecision? && DecisionApplies(c.st)
    requires IsReviewSource(c.st.source.value) && c.st.decision.value.action.Modify?
    ensures var n := Step(L, c, i);
            var ids := RedoIds(c.st, c.st.review.value);
            && n.pc.ApplyReviewFeedback? && n.st.plan == c.st.plan && n.st.retryCounts == c.st.retryCounts
            && n.st.review == c.st.review && n.st.decision == c.st.decision
            && n.st.completed == Merge(c.st.completed, Tombstones(ids))
            && n.st.feedback == Merge(c.st.feedback, Writes(ids, OrEmpty(c.st.decision.value.feedback)))
  {
  }

  predicate SameAt(a: map<Id, string>, b: map<Id, string>, id: Id) {
    (id in a <==> id in b) && (id in a ==> a[id] == b[id])
  }

  /** A MODIFY of a reviewed result takes back the results the review named, or those of every subtask
      if it named none, and gives exactly these the guidance. */
  lemma ModifySendsBack(L: Limits, c: Config, i: Input)
    requires c.pc.ApplyHumanDecision? && DecisionApplies(c.st)
    requires IsReviewSource(c.st.source.value) && c.st.decision.value.action.Modify?
    ensures var guidance := OrEmpty(c.st.decision.value.feedback);
            var r := c.st.review.value;
            var n := Step(L, c, i);
            && n.pc.ApplyReviewFeedback? && n.st.plan == c.st.plan && n.st.retryCounts == c.st.retryCounts
            && n.st.review == c.st.review && n.st.decision == c.st.decision
            && (forall id :: id in n.st.completed ==>
                  id in c.st.completed && n.st.completed[id] == c.st.completed[id])
            && (r.redo == [] ==> forall t :: t in c.st.plan.subtasks ==>
                  t.id !in n.st.completed && t.id in n.st.feedback && n.st.feedback[t.id] == guidance)
            && (r.redo != [] ==> forall id ::
                  && (id in n.st.completed <==> id in c.st.completed && id !in r.redo)
                  && (id in r.redo ==> id in n.st.feedback && n.st.feedback[id] == guidance)
                  && (id !in r.redo ==> SameAt(n.st.feedback, c.st.feedback, id)))
  {
    var r := c.st.review.value;
    var ids := RedoIds(c.st, r);
    ModifyUpdate(L, c, i);
    Dropped(c.st.completed, ids);
    Written(c.st.feedback, ids, OrEmpty(c.st.decision.value.feedback));
    assert r.redo != [] ==> forall id :: id in ids <==> id in r.redo;
  }

  /** Applying a review takes back exactly the results it named, and gives these its feedback. */
  lemma FeedbackSendsBack(L: Limits, c: Config, i: Input)
    requires c.pc.ApplyReviewFeedback? && c.st.review.Some?
    ensures var r := c.st.review.value;
            var n := Step(L, c, i);
            && n.pc.RouteBatch? && n.st.plan == c.st.plan && n.st.decision == c.st.decision
            && (forall id :: id in n.st.completed <==> id in c.st.completed && id !in r.redo)
            && (forall id :: id in n.st.completed ==> n.st.completed[id] == c.st.completed[id])
            && (forall id :: id in r.redo ==> id in n.st.feedback && n.st.feedback[id] == r.feedback)
            && (forall id :: id !in r.redo ==> SameAt(n.st.feedback, c.st.feedback, id))
  {
    var r := c.st.review.value;
    Dropped(c.st.completed, IdSet(r.redo));
    Written(c.st.feedback, IdSet(r.redo), r.feedback);
    assert forall id :: id in r.redo <==> id in IdSet(r.redo);
  }

  /** On MODIFY of a reviewed result, the human's guidance reaches the subtasks that are sent back
      exactly when the review named none or said the very same thing: otherwise the reviewer's
      feedback, applied one step later, overwrites it. */
  lemma GuidanceReachesRedo(L: Limits, c: Config, i: Input, j: Input)
    requires c.pc.ApplyHumanDecision? && DecisionApplies(c.st)
    requires IsReviewSource(c.st.source.value) && c.st.decision.value.action.Modify?
    ensures var guidance := OrEmpty(c.st.decision.value.feedback);
            var r := c.st.review.value;
            var n := Step(L, Step(L, c, i), j);
            && n.pc.RouteBatch?
            && (r.redo == [] ==> forall t :: t in c.st.plan.subtasks ==>
                  t.id in n.st.feedback && n.st.feedback[t.id] == guidance)
            && (r.redo != [] ==>
                  ((forall id :: id in r.redo ==> id in n.st.feedback && n.st.feedback[id] == guidance)
                   <==> r.feedback == guidance))
  {
    ModifySendsBack(L, c, i);
    FeedbackSendsBack(L, Step(L, c, i), j);
    var r := c.st.review.value;
    if r.redo != [] {
      assert r.redo[0] in r.redo;
    }
  }
}
