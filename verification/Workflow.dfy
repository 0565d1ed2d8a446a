/** The workflow as a grammar of the log: what each entry may be followed by, told from the entries alone.
    Every run obeys it. */
module Workflow {
  import opened Schemas
  import opened Graph
  import opened GraphInvariant
  import opened Traces
  import Accounting
  import Gate

  /** What the scheduler leads to. */
  predicate Scheduled(e: Event) {
    e.EvRun? || e.EvReview? || e.EvEscalation?
  }

  predicate MayFollow(L: Limits, requireApproval: bool, t: seq<Event>, e: Event) {
    if t == [] then e.EvIntake?
    else
      match t[|t|-1]
      case EvIntake => e.EvPlan?
      case EvPlan(p) =>
        if p.confidence < L.planThreshold || requireApproval || exists s :: s in p.subtasks && s.sensitive
        then e.EvEscalation?
        else Scheduled(e)
      case EvRun(_, _) => Scheduled(e)
      case EvReview(r) =>
        if r.requiresHuman then e.EvEscalation?
        else if r.approved && r.score < L.scoreThreshold then e.EvNotify?
        else if r.approved then e.EvSynthesize?
        else if Count(t, IsReview) >= L.maxCycles then e.EvEscalation?
        else e == EvFeedback(r.redo)
      case EvFeedback(_) => Scheduled(e)
      case EvNotify => e.EvSynthesize?
      case EvSynthesize => e.EvDeliver?
      case EvDeliver => false
      case EvReject => false
      case EvEscalation(s, a, ids) => e == EvDecision(s, a, ids)
      case EvDecision(s, a, _) => Answered(s, a, t, e)
  }

  /** What a human's decision leads to, by what it was asked about. */
  predicate Answered(s: Source, a: Action, t: seq<Event>, e: Event) {
    if a.Reject? then e.EvReject?
    else if s.SpecialistRetry? then Scheduled(e)
    else if s.ReviewSensitive? || s.ReviewExhausted? then
      match a
      case TakeOver => e.EvDeliver?
      case Approve => e.EvSynthesize?
      case _ => LastReview(t).Some? && e == EvFeedback(LastReview(t).value.redo)
    else
      match a
      case TakeOver => e.EvDeliver?
      case Approve => Scheduled(e)
      case _ => e.EvPlan?
  }

  /** What an escalation is about, told from the log. */
  function SourceFromLog(L: Limits, t: seq<Event>): Source {
    if LastReview(t).Some? then
      if LastReview(t).value.requiresHuman then ReviewSensitive else ReviewExhausted
    else if Ran(t) != {} || LastPlan(t).None? then SpecialistRetry
    else if LastPlan(t).value.confidence < L.planThreshold then PlanLowConfidence
    else if exists s :: s in LastPlan(t).value.subtasks && s.sensitive then PlanSensitive
    else PlanRequested
  }

  /** Every entry may follow what came before it, and every escalation names its source rightly. */
  ghost predicate Obeys(L: Limits, requireApproval: bool, t: seq<Event>) {
    forall k :: 0 <= k < |t| ==> ObeysAt(L, requireApproval, t[..k], t[k])
  }

  predicate ObeysAt(L: Limits, requireApproval: bool, before: seq<Event>, e: Event) {
    && MayFollow(L, requireApproval, before, e)
    && (e.EvEscalation? ==> e.source == SourceFromLog(L, before))
  }

  // ---------------------------------------------------------------- where the machine is

  predicate AtScheduler(pc: Node) {
    pc.RouteBatch? || pc.RunSpecialists? || pc.Review? || pc.HumanEscalation?
  }

  /** The node a log leaves the machine at. */
  predicate Fits(L: Limits, requireApproval: bool, t: seq<Event>, pc: Node) {
    if t == [] then pc.Intake?
    else
      match t[|t|-1]
      case EvIntake => pc.PlanTask?
      case EvPlan(p) => if Gated(L, p, requireApproval) then pc.HumanEscalation? else AtScheduler(pc)
      case EvRun(_, _) => AtScheduler(pc)
      case EvReview(r) =>
        if r.requiresHuman then pc.HumanEscalation?
        else if r.approved then (if r.score < L.scoreThreshold then pc.NotifyHuman? else pc.Synthesize?)
        else if Count(t, IsReview) >= L.maxCycles then pc.HumanEscalation?
        else pc.ApplyReviewFeedback?
      case EvFeedback(_) => AtScheduler(pc)
      case EvNotify => pc.Synthesize?
      case EvSynthesize => pc.Deliver?
      case EvDeliver => pc.End?
      case EvReject => pc.End?
      case EvEscalation(_, _, _) => pc.ApplyHumanDecision?
      case EvDecision(s, a, _) => FitsAnswer(s, a, pc)
  }

  predicate FitsAnswer(s: Source, a: Action, pc: Node) {
    if a.Reject? then pc.RejectTask?
    else if s.SpecialistRetry? then AtScheduler(pc)
    else if a.TakeOver? then pc.Deliver?
    else if IsReviewSource(s) then (if a.Approve? then pc.Synthesize? else pc.ApplyReviewFeedback?)
    else (if a.Approve? then AtScheduler(pc) else pc.PlanTask?)
  }

  /** The entry a node writes, as far as the grammar looks at it. */
  predicate Writes(c: Config, e: Event) {
    match c.pc
    case Intake => e.EvIntake?
    case PlanTask => e.EvPlan?
    case RunSpecialists(_) => e.EvRun?
    case Review => e.EvReview?
    case ApplyReviewFeedback => c.st.review.Some? && e == EvFeedback(c.st.review.value.redo)
    case NotifyHuman => e.EvNotify?
    case Synthesize => e.EvSynthesize?
    case Deliver => e.EvDeliver?
    case RejectTask => e.EvReject?
    case HumanEscalation => e.EvEscalation?
    case _ => false
  }

  lemma WrittenMayFollow(L: Limits, requireApproval: bool, t: seq<Event>, c: Config, e: Event)
    requires Fits(L, requireApproval, t, c.pc) && Writes(c, e) && LastReview(t) == c.st.review
    ensures MayFollow(L, requireApproval, t, e)
  {
  }

  /** The decision entry repeats the escalation it answers. */
  ghost predicate DecisionIsOpen(c: Config) {
    c.pc.ApplyHumanDecision? ==>
      var t := c.st.trace;
      && t != [] && c.st.source.Some? && c.st.decision.Some? && c.st.escalation.Some?
      && t[|t|-1] == EvEscalation(c.st.source.value, c.st.decision.value.action, c.st.escalation.value.stuckIds)
  }

  ghost predicate WorkflowInv(L: Limits, c: Config) {
    && Obeys(L, c.st.requireApproval, c.st.trace)
    && Fits(L, c.st.requireApproval, c.st.trace, c.pc)
    && DecisionIsOpen(c)
  }

  lemma ObeysSnoc(L: Limits, requireApproval: bool, t: seq<Event>, e: Event)
    requires Obeys(L, requireApproval, t) && ObeysAt(L, requireApproval, t, e)
    ensures Obeys(L, requireApproval, t + [e])
  {
    var n := t + [e];
    forall k | 0 <= k < |n| ensures ObeysAt(L, requireApproval, n[..k], n[k]) {
      assert n[..k] == if k < |t| then t[..k] else t;
    }
  }

  lemma {:induction false} RunsObey(L: Limits, requireApproval: bool, t: seq<Event>, batch: seq<Id>,
                                    answers: map<Id, Outcome>)
    requires Obeys(L, requireApproval, t) && Fits(L, requireApproval, t, RouteBatch)
    ensures Obeys(L, requireApproval, t + RunEvents(batch, answers))
    ensures Fits(L, requireApproval, t + RunEvents(batch, answers), RouteBatch)
  {
    if batch == [] {
      assert t + [] == t;
    } else {
      var front, last := batch[..|batch|-1], batch[|batch|-1];
      var e := EvRun(last, AnswerFor(answers, last).success);
      RunsObey(L, requireApproval, t, front, answers);
      RunMayFollow(L, requireApproval, t + RunEvents(front, answers), e);
      ObeysSnoc(L, requireApproval, t + RunEvents(front, answers), e);
      AppendAssociates(t, RunEvents(front, answers), e);
      Snoc(t + RunEvents(front, answers), e);
    }
  }

  lemma RunMayFollow(L: Limits, requireApproval: bool, t: seq<Event>, e: Event)
    requires Fits(L, requireApproval, t, RouteBatch) && e.EvRun?
    ensures ObeysAt(L, requireApproval, t, e) && Fits(L, requireApproval, t + [e], RouteBatch)
  {
  }

  // ---------------------------------------------------------------- step by step

  /** What the other invariants say of the log and the state. */
  ghost predicate LogMatches(c: Config) {
    && LastReview(c.st.trace) == c.st.review && Ran(c.st.trace) == c.st.retryCounts.Keys
    && Count(c.st.trace, IsReview) == c.st.reviewCycles
    && (Gate.Planned(c.pc) ==> LastPlan(c.st.trace) == Some(c.st.plan))
  }

  /** One entry more, written by a node other than the decision. */
  lemma OneEntry(L: Limits, c: Config, n: Config, e: Event)
    requires WorkflowInv(L, c) && LastReview(c.st.trace) == c.st.review && Writes(c, e)
    requires n.st.trace == c.st.trace + [e] && n.st.requireApproval == c.st.requireApproval
    requires e.EvEscalation? ==> e.source == SourceFromLog(L, c.st.trace)
    requires Fits(L, n.st.requireApproval, n.st.trace, n.pc) && DecisionIsOpen(n)
    ensures WorkflowInv(L, n)
  {
    WrittenMayFollow(L, c.st.requireApproval, c.st.trace, c, e);
    ObeysSnoc(L, c.st.requireApproval, c.st.trace, e);
  }

  lemma PlanStep(L: Limits, c: Config, i: Input)
    requires WorkflowInv(L, c) && LogMatches(c) && (c.pc.Intake? || c.pc.PlanTask?)
    ensures WorkflowInv(L, Step(L, c, i))
  {
    var e := if c.pc.Intake? then EvIntake else EvPlan(i.plan);
    Snoc(c.st.trace, e);
    OneEntry(L, c, Step(L, c, i), e);
  }

  lemma ReviewStep(L: Limits, c: Config, i: Input)
    requires WorkflowInv(L, c) && LogMatches(c) && c.pc.Review?
    ensures WorkflowInv(L, Step(L, c, i))
  {
    var e := EvReview(i.review);
    Snoc(c.st.trace, e);
    CountSnoc(c.st.trace, e, IsReview);
    OneEntry(L, c, Step(L, c, i), e);
  }

  lemma FeedbackStep(L: Limits, c: Config, i: Input)
    requires WorkflowInv(L, c) && LogMatches(c) && c.pc.ApplyReviewFeedback? && c.st.review.Some?
    ensures WorkflowInv(L, Step(L, c, i))
  {
    var e := EvFeedback(c.st.review.value.redo);
    Snoc(c.st.trace, e);
    OneEntry(L, c, Step(L, c, i), e);
  }

  lemma ClosingStep(L: Limits, c: Config, i: Input)
    requires WorkflowInv(L, c) && LogMatches(c)
    requires c.pc.NotifyHuman? || c.pc.Synthesize? || c.pc.Deliver? || c.pc.RejectTask?
    requires c.pc.NotifyHuman? ==> c.st.review.Some?
    ensures WorkflowInv(L, Step(L, c, i))
  {
    var e := match c.pc
      case NotifyHuman => EvNotify
      case Synthesize => EvSynthesize
      case Deliver => EvDeliver
      case _ => EvReject;
    Snoc(c.st.trace, e);
    OneEntry(L, c, Step(L, c, i), e);
  }

  lemma SourceIsRight(L: Limits, c: Config)
    requires Inv(L, c) && c.pc.HumanEscalation? && LogMatches(c)
    ensures EscalationSource(L, c.st) == SourceFromLog(L, c.st.trace)
  {
    if id :| id in c.st.completed {
      assert id in c.st.retryCounts.Keys;
    }
  }

  lemma EscalationStep(L: Limits, c: Config, i: Input)
    requires Inv(L, c) && WorkflowInv(L, c) && LogMatches(c) && c.pc.HumanEscalation?
    ensures WorkflowInv(L, Step(L, c, i))
  {
    var e := EvEscalation(EscalationSource(L, c.st), i.decision.action, RaiseEscalation(L, c.st).stuckIds);
    SourceIsRight(L, c);
    Snoc(c.st.trace, e);
    OneEntry(L, c, Step(L, c, i), e);
  }

  lemma DecisionStep(L: Limits, c: Config, i: Input)
    requires WorkflowInv(L, c) && c.pc.ApplyHumanDecision? && DecisionApplies(c.st)
    ensures WorkflowInv(L, Step(L, c, i))
  {
    var e := EvDecision(c.st.source.value, c.st.decision.value.action, c.st.escalation.value.stuckIds);
    DecisionStepEffect(L, c, i);
    Snoc(c.st.trace, e);
    ObeysSnoc(L, c.st.requireApproval, c.st.trace, e);
  }

  lemma BatchStep(L: Limits, c: Config, i: Input)
    requires Inv(L, c) && WorkflowInv(L, c) && c.pc.RunSpecialists?
    ensures WorkflowInv(L, Step(L, c, i))
  {
    BatchStepIs(L, c, i);
    RunsObey(L, c.st.requireApproval, c.st.trace, c.pc.batch, i.answers);
  }

  lemma ScheduleStep(L: Limits, c: Config, i: Input)
    requires WorkflowInv(L, c) && c.pc.RouteBatch?
    ensures WorkflowInv(L, Step(L, c, i))
  {
    assert Step(L, c, i).st == c.st && AtScheduler(Step(L, c, i).pc);
  }

  lemma StepObeys(L: Limits, c: Config, i: Input)
    requires Inv(L, c) && WorkflowInv(L, c) && LogMatches(c)
    ensures WorkflowInv(L, Step(L, c, i))
  {
    if c.pc.Intake? || c.pc.PlanTask? { PlanStep(L, c, i); }
    else if c.pc.RouteBatch? { ScheduleStep(L, c, i); }
    else if c.pc.RunSpecialists? { BatchStep(L, c, i); }
    else if c.pc.Review? { ReviewStep(L, c, i); }
    else if c.pc.ApplyReviewFeedback? { FeedbackStep(L, c, i); }
    else if c.pc.HumanEscalation? { EscalationStep(L, c, i); }
    else if c.pc.ApplyHumanDecision? {
      DecisionIsApplicable(L, c.st);
      DecisionStep(L, c, i);
    } else if !c.pc.End? { ClosingStep(L, c, i); }
  }

  lemma RunMatches(L: Limits, requireApproval: bool, inputs: seq<Input>)
    ensures LogMatches(Run(L, Start(requireApproval), inputs))
  {
    Gate.ReplanningStartsClean(L, requireApproval, inputs);
    Gate.RunKeepsGate(L, requireApproval, inputs);
    Accounting.RunKeepsBounds(L, requireApproval, inputs);
  }

  lemma {:induction false} RunKeepsWorkflow(L: Limits, requireApproval: bool, inputs: seq<Input>)
    ensures WorkflowInv(L, Run(L, Start(requireApproval), inputs))
  {
    if inputs != [] {
      var front := inputs[..|inputs|-1];
      RunKeepsWorkflow(L, requireApproval, front);
      RunKeepsInv(L, requireApproval, front);
      RunMatches(L, requireApproval, front);
      StepObeys(L, Run(L, Start(requireApproval), front), inputs[|inputs|-1]);
    }
  }

  /** Every run obeys the workflow: each entry of its log is one that may follow those before it, and
      each escalation names the source the log shows. */
  lemma EveryRunObeys(L: Limits, requireApproval: bool, inputs: seq<Input>)
    ensures Obeys(L, requireApproval, Run(L, Start(requireApproval), inputs).st.trace)
  {
    RunKeepsWorkflow(L, requireApproval, inputs);
    Gate.RunKeepsGate(L, requireApproval, inputs);
  }

  // ---------------------------------------------------------------- notifications

  lemma BeforeSynthesis(L: Limits, requireApproval: bool, t: seq<Event>, m: nat)
    requires Obeys(L, requireApproval, t) && m < |t| && t[m].EvSynthesize?
    ensures m > 0
    ensures t[m-1].EvNotify? || t[m-1].EvDecision?
            || (t[m-1].EvReview? && t[m-1].review.approved && t[m-1].review.score >= L.scoreThreshold)
  {
    assert ObeysAt(L, requireApproval, t[..m], t[m]);
  }

  lemma BeforeNotification(L: Limits, requireApproval: bool, t: seq<Event>, m: nat)
    requires Obeys(L, requireApproval, t) && m < |t| && t[m].EvNotify?
    ensures m > 0 && t[m-1].EvReview?
    ensures var r := t[m-1].review;
            r.approved && !r.requiresHuman && r.score < L.scoreThreshold
  {
    assert ObeysAt(L, requireApproval, t[..m], t[m]);
  }

  /** A human is notified right after a review, and only of one that approved with a low score. */
  lemma NotificationsAreOfLowScores(L: Limits, requireApproval: bool, inputs: seq<Input>, m: nat)
    ensures var t := Run(L, Start(requireApproval), inputs).st.trace;
            m < |t| && t[m].EvNotify? ==>
              && m > 0 && t[m-1].EvReview?
              && t[m-1].review.approved && !t[m-1].review.requiresHuman && t[m-1].review.score < L.scoreThreshold
  {
    EveryRunObeys(L, requireApproval, inputs);
    var t := Run(L, Start(requireApproval), inputs).st.trace;
    if m < |t| && t[m].EvNotify? { BeforeNotification(L, requireApproval, t, m); }
  }

  /** Between the last review and a synthesis no human decided on, a human is notified exactly when the
      score is low. */
  lemma LowScoresNotify(L: Limits, requireApproval: bool, inputs: seq<Input>, k: nat, m: nat)
    requires var t := Run(L, Start(requireApproval), inputs).st.trace;
             && k < m < |t| && t[k].EvReview? && t[m].EvSynthesize?
             && forall j :: k < j < m ==> !t[j].EvReview? && !t[j].EvDecision?
    ensures var t := Run(L, Start(requireApproval), inputs).st.trace;
            (exists j :: k < j < m && t[j].EvNotify?) <==> t[k].review.score < L.scoreThreshold
  {
    EveryRunObeys(L, requireApproval, inputs);
    var t := Run(L, Start(requireApproval), inputs).st.trace;
    BeforeSynthesis(L, requireApproval, t, m);
    if t[m-1].EvNotify? {
      BeforeNotification(L, requireApproval, t, m - 1);
      assert m - 2 == k;
    } else {
      assert m - 1 == k;
    }
  }
}
