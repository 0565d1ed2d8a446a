/** What the counters mean and how much work any run can do, read against the log. */
module Accounting {
  import opened Schemas
  import opened Graph
  import opened GraphInvariant
  import opened Traces
  import opened Fuel
  import Gate

  // ---------------------------------------------------------------- retry counters

  ghost predicate CountersCountFailures(st: State) {
    forall id :: RetriesOf(st.retryCounts, id) == FailuresSinceReset(st.trace, id)
  }

  function Limit(L: Limits): int {
    AtLeast(1, L.maxRetries)
  }

  /** A pending redo of the subtask: the log names it one step later. */
  function PendingRedo(c: Config, id: Id): nat {
    if c.pc.ApplyReviewFeedback? && c.st.review.Some? && id in c.st.review.value.redo then 1 else 0
  }

  ghost predicate CounterWithinLimit(L: Limits, c: Config, id: Id) {
    RetriesOf(c.st.retryCounts, id) + (if id in c.st.completed then 0 else 1)
      <= Limit(L) + Redos(c.st.trace, id) + (if id in c.st.completed then 0 else PendingRedo(c, id))
  }

  ghost predicate CounterInv(L: Limits, c: Config) {
    && CountersCountFailures(c.st)
    && forall id :: CounterWithinLimit(L, c, id)
  }

  lemma BatchCounterOf(st: State, batch: seq<Id>, answers: map<Id, Outcome>, id: Id)
    requires Distinct(batch)
    requires RetriesOf(st.retryCounts, id) == FailuresSinceReset(st.trace, id)
    ensures RetriesOf(st.retryCounts + BatchCounts(st, batch, answers), id)
         == FailuresSinceReset(st.trace + RunEvents(batch, answers), id)
    ensures RetriesOf(st.retryCounts + BatchCounts(st, batch, answers), id)
         <= RetriesOf(st.retryCounts, id) + (if id in batch then 1 else 0)
  {
    FailuresOverBatch(st.trace, batch, answers, id);
  }

  lemma BatchWithinLimit(L: Limits, c: Config, n: Config, id: Id)
    requires CounterWithinLimit(L, c, id) && c.pc.RunSpecialists? && n.pc.RouteBatch?
    requires RetriesOf(n.st.retryCounts, id)
               <= RetriesOf(c.st.retryCounts, id) + (if IsReady(L, c.st, id) then 1 else 0)
    requires id in n.st.completed <==> id in c.st.completed || IsReady(L, c.st, id)
    requires Redos(n.st.trace, id) == Redos(c.st.trace, id)
    ensures CounterWithinLimit(L, n, id)
  {
  }

  lemma BatchKeepsCounters(L: Limits, c: Config, i: Input)
    requires Inv(L, c) && CounterInv(L, c) && c.pc.RunSpecialists?
    ensures CounterInv(L, Step(L, c, i))
  {
    var st, batch, n := c.st, c.pc.batch, Step(L, c, i);
    BatchStepIs(L, c, i);
    RunEventsAreSilent(st.trace, batch, i.answers);
    forall id ensures RetriesOf(n.st.retryCounts, id) == FailuresSinceReset(n.st.trace, id) {
      BatchCounterOf(st, batch, i.answers, id);
    }
    forall id ensures CounterWithinLimit(L, n, id) {
      BatchCounterOf(st, batch, i.answers, id);
      BatchWithinLimit(L, c, n, id);
    }
  }

  lemma EventKeepsCounts(st: State, n: State, e: Event)
    requires CountersCountFailures(st) && n.trace == st.trace + [e]
    requires !e.EvRun?
    requires forall id :: RetriesOf(n.retryCounts, id) == if IsReset(e, id) then 0 else RetriesOf(st.retryCounts, id)
    ensures CountersCountFailures(n)
  {
    Snoc(st.trace, e);
    forall id ensures RetriesOf(n.retryCounts, id) == FailuresSinceReset(n.trace, id) {
      assert RetriesOf(st.retryCounts, id) == FailuresSinceReset(st.trace, id);
    }
  }

  lemma RedosSnoc(trace: seq<Event>, e: Event, id: Id)
    ensures Redos(trace + [e], id) >= Redos(trace, id)
    ensures e.EvFeedback? && id in e.redo ==> Redos(trace + [e], id) == Redos(trace, id) + 1
    ensures (IsReviewModify(e) && LastReview(trace).Some? && LastReview(trace).value.redo == [] ==>
               Redos(trace + [e], id) == Redos(trace, id) + 1)
  {
    Snoc(trace, e);
  }

  lemma FeedbackKeepsCounters(L: Limits, c: Config, i: Input)
    requires Inv(L, c) && CounterInv(L, c) && c.pc.ApplyReviewFeedback?
    ensures CounterInv(L, Step(L, c, i))
  {
    var r := c.st.review.value;
    var n := Step(L, c, i);
    EventKeepsCounts(c.st, n.st, EvFeedback(r.redo));
    forall id ensures CounterWithinLimit(L, n, id) {
      assert CounterWithinLimit(L, c, id);
      RedosSnoc(c.st.trace, EvFeedback(r.redo), id);
    }
  }

  /** A decision that is no redo leaves a subtask alone, finishes it, or puts it back with a fresh
      counter. */
  lemma RetryDecisionOn(st: State, id: Id)
    requires DecisionApplies(st)
    requires !(IsReviewSource(st.source.value) && st.decision.value.action.Modify?)
    ensures var n := DecisionUpdate(st);
            var reset := st.source.value.SpecialistRetry? && id in st.escalation.value.stuckIds
                         && !st.decision.value.action.Reject? && !st.decision.value.action.TakeOver?;
            && (!reset ==> RetriesOf(n.retryCounts, id) == RetriesOf(st.retryCounts, id))
            && (!reset && id in st.completed ==> id in n.completed)
            && (reset ==> RetriesOf(n.retryCounts, id) == 0)
  {
  }

  lemma DecisionIsUpdate(L: Limits, c: Config, i: Input)
    requires c.pc.ApplyHumanDecision? && DecisionApplies(c.st)
    ensures var n := Step(L, c, i);
            && n.st.retryCounts == DecisionUpdate(c.st).retryCounts && n.st.completed == DecisionUpdate(c.st).completed
            && (n.pc.ApplyReviewFeedback? ==>
                  IsReviewSource(c.st.source.value) && c.st.decision.value.action.Modify?)
  {
  }

  lemma RetryDecisionWithinLimit(L: Limits, c: Config, i: Input, id: Id)
    requires c.pc.ApplyHumanDecision? && DecisionApplies(c.st) && CounterWithinLimit(L, c, id)
    requires !(IsReviewSource(c.st.source.value) && c.st.decision.value.action.Modify?)
    ensures CounterWithinLimit(L, Step(L, c, i), id)
  {
    var st := c.st;
    RedosSnoc(st.trace, EvDecision(st.source.value, st.decision.value.action, st.escalation.value.stuckIds), id);
    RetryDecisionOn(st, id);
    DecisionIsUpdate(L, c, i);
    DecisionStepEffect(L, c, i);
    WithinLimitOnward(L, c, Step(L, c, i), id);
  }

  lemma WithinLimitOnward(L: Limits, c: Config, n: Config, id: Id)
    requires CounterWithinLimit(L, c, id) && !c.pc.ApplyReviewFeedback? && !n.pc.ApplyReviewFeedback?
    requires Redos(n.st.trace, id) >= Redos(c.st.trace, id)
    requires RetriesOf(n.st.retryCounts, id) == 0
             || (RetriesOf(n.st.retryCounts, id) == RetriesOf(c.st.retryCounts, id)
                 && (id in c.st.completed ==> id in n.st.completed))
    ensures CounterWithinLimit(L, n, id)
  {
  }

  lemma ReviewDecisionWithinLimit(L: Limits, c: Config, i: Input, id: Id)
    requires c.pc.ApplyHumanDecision? && DecisionApplies(c.st) && CounterWithinLimit(L, c, id)
    requires IsReviewSource(c.st.source.value) && c.st.decision.value.action.Modify?
    requires LastReview(c.st.trace) == c.st.review
    ensures CounterWithinLimit(L, Step(L, c, i), id)
  {
    var st := c.st;
    RedosSnoc(st.trace, EvDecision(st.source.value, st.decision.value.action, st.escalation.value.stuckIds), id);
    assert id in st.review.value.redo <==> id in IdSet(st.review.value.redo);
  }

  lemma DecisionCounters(L: Limits, c: Config, i: Input)
    requires c.pc.ApplyHumanDecision? && DecisionApplies(c.st)
    ensures var e := EvDecision(c.st.source.value, c.st.decision.value.action, c.st.escalation.value.stuckIds);
            forall id :: RetriesOf(Step(L, c, i).st.retryCounts, id)
                      == if IsReset(e, id) then 0 else RetriesOf(c.st.retryCounts, id)
  {
  }

  lemma DecisionKeepsCounters(L: Limits, c: Config, i: Input)
    requires PlanInv(c.st) && PendingDecision(L, c.st) && CounterInv(L, c) && c.pc.ApplyHumanDecision?
    requires LastReview(c.st.trace) == c.st.review
    ensures CounterInv(L, Step(L, c, i))
  {
    var st, n := c.st, Step(L, c, i);
    DecisionIsApplicable(L, st);
    DecisionStepEffect(L, c, i);
    DecisionCounters(L, c, i);
    EventKeepsCounts(st, n.st, EvDecision(st.source.value, st.decision.value.action, st.escalation.value.stuckIds));
    forall id ensures CounterWithinLimit(L, n, id) {
      assert CounterWithinLimit(L, c, id);
      if IsReviewSource(st.source.value) && st.decision.value.action.Modify? {
        ReviewDecisionWithinLimit(L, c, i, id);
      } else {
        RetryDecisionWithinLimit(L, c, i, id);
      }
    }
  }

  lemma OtherStepsKeepCounters(L: Limits, c: Config, i: Input)
    requires Inv(L, c) && CounterInv(L, c)
    requires !c.pc.RunSpecialists? && !c.pc.ApplyReviewFeedback? && !c.pc.ApplyHumanDecision?
    ensures CounterInv(L, Step(L, c, i))
  {
    var n := Step(L, c, i);
    StepAppends(L, c, i);
    if !c.pc.RouteBatch? && !c.pc.End? {
      var e := n.st.trace[|c.st.trace|];
      assert n.st.trace == c.st.trace + [e];
      assert n.st.retryCounts == c.st.retryCounts && n.st.completed == c.st.completed;
      EventKeepsCounts(c.st, n.st, e);
      forall id ensures CounterWithinLimit(L, n, id) {
        assert CounterWithinLimit(L, c, id);
        RedosSnoc(c.st.trace, e, id);
      }
    } else {
      forall id ensures CounterWithinLimit(L, n, id) {
        assert CounterWithinLimit(L, c, id);
      }
    }
  }

  lemma {:induction false} RunKeepsCounters(L: Limits, requireApproval: bool, inputs: seq<Input>)
    ensures CounterInv(L, Run(L, Start(requireApproval), inputs))
  {
    if inputs != [] {
      var front, i := inputs[..|inputs|-1], inputs[|inputs|-1];
      RunKeepsCounters(L, requireApproval, front);
      RunKeepsInv(L, requireApproval, front);
      Gate.ReplanningStartsClean(L, requireApproval, front);
      var c := Run(L, Start(requireApproval), front);
      if c.pc.RunSpecialists? { BatchKeepsCounters(L, c, i); }
      else if c.pc.ApplyReviewFeedback? { FeedbackKeepsCounters(L, c, i); }
      else if c.pc.ApplyHumanDecision? { DecisionKeepsCounters(L, c, i); }
      else { OtherStepsKeepCounters(L, c, i); }
    }
  }

  /** A subtask's counter is the number of its failed runs since a human last gave it fresh
      retries. It stays within max(1, M) except for the reviews that sent the subtask back:
      a redo does not reset it, so each one may add a failure. */
  lemma RetryAccounting(L: Limits, requireApproval: bool, inputs: seq<Input>, id: Id)
    ensures var st := Run(L, Start(requireApproval), inputs).st;
            && RetriesOf(st.retryCounts, id) == FailuresSinceReset(st.trace, id)
            && RetriesOf(st.retryCounts, id) <= Limit(L) + Redos(st.trace, id)
  {
    RunKeepsCounters(L, requireApproval, inputs);
    assert CounterWithinLimit(L, Run(L, Start(requireApproval), inputs), id);
  }

  lemma OtherStepsRaiseNoCounter(L: Limits, c: Config, i: Input, id: Id)
    requires Inv(L, c) && !c.pc.RunSpecialists?
    ensures RetriesOf(Step(L, c, i).st.retryCounts, id) <= RetriesOf(c.st.retryCounts, id)
  {
    if c.pc.ApplyHumanDecision? {
      DecisionIsApplicable(L, c.st);
      DecisionCounters(L, c, i);
    }
    assert RetriesOf(c.st.retryCounts, id) >= 0;
  }

  /** A step raises a counter past max(1, M) exactly when it runs a subtask that has no result, has
      its retries used up already, and fails again: a redo puts such a subtask back, and a subtask
      without a result is dispatched whatever its counter says. */
  lemma CounterPassesTheLimit(L: Limits, requireApproval: bool, inputs: seq<Input>, i: Input, id: Id)
    ensures var c := Run(L, Start(requireApproval), inputs);
            var now, next := RetriesOf(c.st.retryCounts, id), RetriesOf(Step(L, c, i).st.retryCounts, id);
            now < next && Limit(L) < next
            <==> c.pc.RunSpecialists? && id in c.pc.batch && id !in c.st.completed && now >= Limit(L)
                 && !AnswerFor(i.answers, id).success
  {
    RunKeepsInv(L, requireApproval, inputs);
    var c := Run(L, Start(requireApproval), inputs);
    if c.pc.RunSpecialists? {
      BatchStepIs(L, c, i);
      BatchRaises(L, c.st, c.pc.batch, i.answers, id);
    } else {
      OtherStepsRaiseNoCounter(L, c, i, id);
    }
  }

  lemma BatchRaises(L: Limits, st: State, batch: seq<Id>, answers: map<Id, Outcome>, id: Id)
    requires ValidBatch(L, st, batch)
    ensures var now := RetriesOf(st.retryCounts, id);
            var next := RetriesOf(st.retryCounts + BatchCounts(st, batch, answers), id);
            now < next && Limit(L) < next
            <==> id in batch && id !in st.completed && now >= Limit(L) && !AnswerFor(answers, id).success
  {
    if id in batch { assert IsReady(L, st, id); }
  }

  // ---------------------------------------------------------------- dispatch and review bounds

  predicate IsFeedback(e: Event) { e.EvFeedback? }

  function Cycles(L: Limits): int {
    AtLeast(1, L.maxCycles)
  }

  /** Redos the review limit covers without a human. */
  function FreeRedos(L: Limits, reviews: nat): int {
    if reviews < Cycles(L) - 1 then reviews else Cycles(L) - 1
  }

  predicate BeforeNextReview(pc: Node) {
    pc.RouteBatch? || pc.RunSpecialists? || pc.Review? || pc.ApplyReviewFeedback?
  }

  predicate Working(pc: Node) {
    !pc.Intake? && !pc.PlanTask? && !pc.ApplyReviewFeedback?
  }

  ghost predicate ReviewBoundInv(L: Limits, c: Config) {
    var trace := c.st.trace;
    var reviews, mods := Count(trace, IsReview), Count(trace, IsReviewModify);
    && reviews == c.st.reviewCycles
    && reviews <= Cycles(L) + mods
    && (BeforeNextReview(c.pc) ==> reviews + 1 <= Cycles(L) + mods)
    && Count(trace, IsFeedback) + (if c.pc.ApplyReviewFeedback? then 1 else 0) <= FreeRedos(L, reviews) + mods
  }

  /** Work done plus work left is paid for by the plan, the redos and the restarts. */
  ghost predicate WorkBoundInv(L: Limits, c: Config) {
    var trace := c.st.trace;
    var fills := 1 + Count(trace, IsFeedback) + Count(trace, IsRestart);
    Count(trace, IsRun) + (if Working(c.pc) then FuelIn(L, c.st) else 0) <= Capacity(L, c.st.plan) * fills
  }

  lemma CountsSnoc(trace: seq<Event>, e: Event)
    ensures Count(trace + [e], IsRun) == Count(trace, IsRun) + (if IsRun(e) then 1 else 0)
    ensures Count(trace + [e], IsReview) == Count(trace, IsReview) + (if IsReview(e) then 1 else 0)
    ensures Count(trace + [e], IsFeedback) == Count(trace, IsFeedback) + (if IsFeedback(e) then 1 else 0)
    ensures Count(trace + [e], IsReviewModify) == Count(trace, IsReviewModify) + (if IsReviewModify(e) then 1 else 0)
    ensures Count(trace + [e], IsRestart) == Count(trace, IsRestart) + (if IsRestart(e) then 1 else 0)
  {
    CountSnoc(trace, e, IsRun);
    CountSnoc(trace, e, IsReview);
    CountSnoc(trace, e, IsFeedback);
    CountSnoc(trace, e, IsReviewModify);
    CountSnoc(trace, e, IsRestart);
  }

  lemma CountsOverBatch(trace: seq<Event>, batch: seq<Id>, answers: map<Id, Outcome>)
    ensures var t := trace + RunEvents(batch, answers);
            && Count(t, IsRun) == Count(trace, IsRun) + |batch|
            && Count(t, IsReview) == Count(trace, IsReview)
            && Count(t, IsFeedback) == Count(trace, IsFeedback)
            && Count(t, IsReviewModify) == Count(trace, IsReviewModify)
            && Count(t, IsRestart) == Count(trace, IsRestart)
  {
    CountRunEvents(trace, batch, answers, IsRun, 1);
    CountRunEvents(trace, batch, answers, IsReview, 0);
    CountRunEvents(trace, batch, answers, IsFeedback, 0);
    CountRunEvents(trace, batch, answers, IsReviewModify, 0);
    CountRunEvents(trace, batch, answers, IsRestart, 0);
  }

  lemma {:induction false} NoReviewsCounted(trace: seq<Event>)
    requires LastReview(trace).None?
    ensures Count(trace, IsReview) == 0
  {
    if trace != [] {
      NoReviewsCounted(trace[..|trace|-1]);
    }
  }

  lemma OneEvent(L: Limits, c: Config, i: Input) returns (e: Event)
    requires Inv(L, c) && !c.pc.RunSpecialists? && !c.pc.RouteBatch? && !c.pc.End?
    ensures Step(L, c, i).st.trace == c.st.trace + [e]
    ensures !e.EvRun?
    ensures e.EvReview? <==> c.pc.Review?
    ensures e.EvFeedback? <==> c.pc.ApplyReviewFeedback?
    ensures e.EvDecision? <==> c.pc.ApplyHumanDecision?
    ensures c.pc.ApplyHumanDecision? ==>
              DecisionApplies(c.st)
              && e == EvDecision(c.st.source.value, c.st.decision.value.action, c.st.escalation.value.stuckIds)
  {
    StepAppends(L, c, i);
    if c.pc.ApplyHumanDecision? { DecisionIsApplicable(L, c.st); }
    e := Step(L, c, i).st.trace[|c.st.trace|];
  }

  lemma BatchKeepsReviewBound(L: Limits, c: Config, i: Input)
    requires Inv(L, c) && c.pc.RunSpecialists? && ReviewBoundInv(L, c)
    ensures ReviewBoundInv(L, Step(L, c, i))
  {
    BatchStepIs(L, c, i);
    CountsOverBatch(c.st.trace, c.pc.batch, i.answers);
  }

  lemma ReviewKeepsReviewBound(L: Limits, c: Config, i: Input)
    requires c.pc.Review? && ReviewBoundInv(L, c)
    ensures ReviewBoundInv(L, Step(L, c, i))
  {
    CountsSnoc(c.st.trace, EvReview(i.review));
  }

  lemma FeedbackKeepsReviewBound(L: Limits, c: Config, i: Input)
    requires c.pc.ApplyReviewFeedback? && c.st.review.Some? && ReviewBoundInv(L, c)
    ensures ReviewBoundInv(L, Step(L, c, i))
  {
    CountsSnoc(c.st.trace, EvFeedback(c.st.review.value.redo));
  }

  lemma DecisionKeepsReviewBound(L: Limits, c: Config, i: Input)
    requires c.pc.ApplyHumanDecision? && DecisionApplies(c.st) && ReviewBoundInv(L, c)
    requires !IsReviewSource(c.st.source.value) ==> Count(c.st.trace, IsReview) == 0
    ensures ReviewBoundInv(L, Step(L, c, i))
  {
    var e := EvDecision(c.st.source.value, c.st.decision.value.action, c.st.escalation.value.stuckIds);
    CountsSnoc(c.st.trace, e);
    DecisionStepEffect(L, c, i);
    assert Step(L, c, i).st.reviewCycles == c.st.reviewCycles;
  }

  lemma PlanKeepsReviewBound(L: Limits, c: Config, i: Input)
    requires c.pc.PlanTask? && c.st.reviewCycles == 0 && ReviewBoundInv(L, c)
    ensures ReviewBoundInv(L, Step(L, c, i))
  {
    CountsSnoc(c.st.trace, EvPlan(i.plan));
  }

  lemma QuietStepKeepsReviewBound(L: Limits, c: Config, i: Input)
    requires ReviewBoundInv(L, c)
    requires c.pc.Intake? || c.pc.NotifyHuman? || c.pc.Synthesize? || c.pc.Deliver? || c.pc.RejectTask?
             || c.pc.HumanEscalation?
    requires c.pc.NotifyHuman? ==> c.st.review.Some?
    ensures ReviewBoundInv(L, Step(L, c, i))
  {
    var e := QuietEvent(L, c, i);
    CountsSnoc(c.st.trace, e);
    ReviewBoundAfterQuiet(L, c, Step(L, c, i));
  }

  /** The same work is left, and is counted in both or not at all after the step. */
  predicate SameFuelIn(c: Config, n: Config) {
    && n.st.plan == c.st.plan && n.st.completed == c.st.completed && n.st.retryCounts == c.st.retryCounts
    && (Working(n.pc) ==> Working(c.pc))
  }

  /** The nodes that neither plan, run, review, redo nor decide. */
  lemma QuietEvent(L: Limits, c: Config, i: Input) returns (e: Event)
    requires c.pc.Intake? || c.pc.NotifyHuman? || c.pc.Synthesize? || c.pc.Deliver? || c.pc.RejectTask?
             || c.pc.HumanEscalation?
    requires c.pc.NotifyHuman? ==> c.st.review.Some?
    ensures Step(L, c, i).st.trace == c.st.trace + [e]
    ensures !IsRun(e) && !IsReview(e) && !IsFeedback(e) && !IsReviewModify(e) && !IsRestart(e)
    ensures Step(L, c, i).st.reviewCycles == c.st.reviewCycles && SameFuelIn(c, Step(L, c, i))
    ensures !BeforeNextReview(Step(L, c, i).pc)
  {
    e := match c.pc
      case Intake => EvIntake
      case NotifyHuman => EvNotify
      case Synthesize => EvSynthesize
      case Deliver => EvDeliver
      case RejectTask => EvReject
      case _ => EvEscalation(EscalationSource(L, c.st), i.decision.action, RaiseEscalation(L, c.st).stuckIds);
  }

  lemma ReviewBoundAfterQuiet(L: Limits, c: Config, n: Config)
    requires ReviewBoundInv(L, c) && !c.pc.ApplyReviewFeedback?
    requires n.st.reviewCycles == c.st.reviewCycles && !BeforeNextReview(n.pc)
    requires Count(n.st.trace, IsReview) == Count(c.st.trace, IsReview)
    requires Count(n.st.trace, IsFeedback) == Count(c.st.trace, IsFeedback)
    requires Count(n.st.trace, IsReviewModify) == Count(c.st.trace, IsReviewModify)
    ensures ReviewBoundInv(L, n)
  {
  }

  lemma StepKeepsReviewBound(L: Limits, c: Config, i: Input)
    requires Inv(L, c) && ReviewBoundInv(L, c) && LastReview(c.st.trace) == c.st.review
    ensures ReviewBoundInv(L, Step(L, c, i))
  {
    match c.pc
    case RunSpecialists(_) => BatchKeepsReviewBound(L, c, i);
    case Review => ReviewKeepsReviewBound(L, c, i);
    case ApplyReviewFeedback => FeedbackKeepsReviewBound(L, c, i);
    case PlanTask => PlanKeepsReviewBound(L, c, i);
    case ApplyHumanDecision =>
      DecisionIsApplicable(L, c.st);
      if !IsReviewSource(c.st.source.value) { NoReviewsCounted(c.st.trace); }
      DecisionKeepsReviewBound(L, c, i);
    case RouteBatch =>
    case End =>
    case _ => QuietStepKeepsReviewBound(L, c, i);
  }

  lemma CapacityTimes(cap: nat, fills: nat)
    ensures cap * (fills + 1) == cap * fills + cap
  {
  }

  lemma WorkAfterBatch(L: Limits, c: Config, n: Config)
    requires WorkBoundInv(L, c) && c.pc.RunSpecialists? && n.pc.RouteBatch?
    requires n.st.plan == c.st.plan
    requires Count(n.st.trace, IsRun) == Count(c.st.trace, IsRun) + |c.pc.batch|
    requires Count(n.st.trace, IsFeedback) == Count(c.st.trace, IsFeedback)
    requires Count(n.st.trace, IsRestart) == Count(c.st.trace, IsRestart)
    requires FuelIn(L, n.st) + |c.pc.batch| <= FuelIn(L, c.st)
    ensures WorkBoundInv(L, n)
  {
  }

  lemma BatchWork(L: Limits, c: Config, i: Input)
    requires Inv(L, c) && c.pc.RunSpecialists?
    ensures Step(L, c, i).st.plan == c.st.plan && Step(L, c, i).pc.RouteBatch?
    ensures Step(L, c, i).st.trace == c.st.trace + RunEvents(c.pc.batch, i.answers)
    ensures FuelIn(L, Step(L, c, i).st) + |c.pc.batch| <= FuelIn(L, c.st)
  {
    BatchStepIs(L, c, i);
    BranchesBurnFuel(L, c.st, c.pc.batch, i.answers);
    RunBranchesEffect(c.st, c.st, c.pc.batch, i.answers);
  }

  lemma BatchKeepsWorkBound(L: Limits, c: Config, i: Input)
    requires Inv(L, c) && WorkBoundInv(L, c) && c.pc.RunSpecialists?
    ensures WorkBoundInv(L, Step(L, c, i))
  {
    BatchWork(L, c, i);
    CountsOverBatch(c.st.trace, c.pc.batch, i.answers);
    WorkAfterBatch(L, c, Step(L, c, i));
  }

  /** The work left never grows, except by a redo or a restart. */
  lemma DecisionFuel(L: Limits, st: State)
    requires PlanInv(st) && PendingDecision(L, st) && DecisionApplies(st)
    requires st.source.value.SpecialistRetry? ==>
               !st.decision.value.action.Approve? && !st.decision.value.action.Modify?
    requires !(IsReviewSource(st.source.value) && st.decision.value.action.Modify?)
    ensures FuelIn(L, DecisionNode(st)) <= FuelIn(L, st)
  {
    DecisionIsApplicable(L, st);
    FuelMonotone(L, DecisionNode(st), st, OrderedIds(st.plan.subtasks));
  }

  /** The decision step in terms of work: a restart or redo may refill up to the capacity,
      any other decision adds nothing. */
  lemma DecisionWork(L: Limits, c: Config, i: Input, e: Event)
    requires Inv(L, c) && c.pc.ApplyHumanDecision? && DecisionApplies(c.st)
    requires e == EvDecision(c.st.source.value, c.st.decision.value.action, c.st.escalation.value.stuckIds)
    ensures var n := Step(L, c, i);
            && n.st.plan == c.st.plan
            && (IsReviewModify(e) ==> !Working(n.pc))
            && (!IsReviewModify(e) ==>
                  FuelIn(L, n.st) <= if IsRestart(e) then Capacity(L, c.st.plan) else FuelIn(L, c.st))
  {
    if IsRestart(e) {
      DecisionIsApplicable(L, c.st);
      RetryDecisionKeepsInv(L, c.st);
      FuelWithinCapacity(L, DecisionNode(c.st));
    } else if !IsReviewModify(e) {
      DecisionFuel(L, c.st);
    }
  }

  lemma DecisionKeepsWorkBound(L: Limits, c: Config, i: Input)
    requires Inv(L, c) && WorkBoundInv(L, c) && c.pc.ApplyHumanDecision?
    ensures WorkBoundInv(L, Step(L, c, i))
  {
    var e := OneEvent(L, c, i);
    DecisionWork(L, c, i, e);
    WorkAfterDecision(L, c, Step(L, c, i), e);
  }

  lemma WorkAfterDecision(L: Limits, c: Config, n: Config, e: Event)
    requires WorkBoundInv(L, c) && c.pc.ApplyHumanDecision?
    requires n.st.trace == c.st.trace + [e] && e.EvDecision? && n.st.plan == c.st.plan
    requires IsReviewModify(e) ==> !Working(n.pc)
    requires !IsReviewModify(e) ==>
               FuelIn(L, n.st) <= if IsRestart(e) then Capacity(L, c.st.plan) else FuelIn(L, c.st)
    ensures WorkBoundInv(L, n)
  {
    CountsSnoc(c.st.trace, e);
    CapacityTimes(Capacity(L, c.st.plan), 1 + Count(c.st.trace, IsFeedback) + Count(c.st.trace, IsRestart));
  }

  lemma FeedbackKeepsWorkBound(L: Limits, c: Config, i: Input)
    requires Inv(L, c) && WorkBoundInv(L, c) && c.pc.ApplyReviewFeedback?
    ensures WorkBoundInv(L, Step(L, c, i))
  {
    var e := OneEvent(L, c, i);
    CountsSnoc(c.st.trace, e);
    FeedbackKeepsInv(c.st);
    FuelWithinCapacity(L, Step(L, c, i).st);
    CapacityTimes(Capacity(L, c.st.plan), 1 + Count(c.st.trace, IsFeedback) + Count(c.st.trace, IsRestart));
  }

  lemma NoRunsCounted(trace: seq<Event>)
    requires Ran(trace) == {}
    ensures Count(trace, IsRun) == 0
  {
    RanMeansLogged(trace);
    NoneCounted(trace, IsRun);
  }

  lemma PlanKeepsWorkBound(L: Limits, c: Config, i: Input)
    requires Inv(L, c) && c.pc.PlanTask? && Count(c.st.trace, IsRun) == 0
    ensures WorkBoundInv(L, Step(L, c, i))
  {
    var e := OneEvent(L, c, i);
    CountsSnoc(c.st.trace, e);
    var n := Step(L, c, i);
    PlanKeepsInv(L, c.st, i.plan);
    FuelWithinCapacity(L, n.st);
    var extra := Count(n.st.trace, IsFeedback) + Count(n.st.trace, IsRestart);
    assert Capacity(L, n.st.plan) <= Capacity(L, n.st.plan) * (1 + extra);
  }

  lemma SameFuel(L: Limits, s: State, t: State)
    requires s.plan == t.plan && s.completed == t.completed && s.retryCounts == t.retryCounts
    ensures FuelIn(L, s) == FuelIn(L, t)
  {
    FuelMonotone(L, s, t, OrderedIds(s.plan.subtasks));
    FuelMonotone(L, t, s, OrderedIds(s.plan.subtasks));
  }

  lemma WorkAfterQuiet(L: Limits, c: Config, n: Config, e: Event)
    requires WorkBoundInv(L, c) && n.st.trace == c.st.trace + [e] && SameFuelIn(c, n)
    requires !IsRun(e) && !IsFeedback(e) && !IsRestart(e)
    ensures WorkBoundInv(L, n)
  {
    CountsSnoc(c.st.trace, e);
    SameFuel(L, c.st, n.st);
  }

  lemma QuietStepKeepsWorkBound(L: Limits, c: Config, i: Input)
    requires WorkBoundInv(L, c)
    requires c.pc.Intake? || c.pc.NotifyHuman? || c.pc.Synthesize? || c.pc.Deliver? || c.pc.RejectTask?
             || c.pc.HumanEscalation?
    requires c.pc.NotifyHuman? ==> c.st.review.Some?
    ensures WorkBoundInv(L, Step(L, c, i))
  {
    var e := QuietEvent(L, c, i);
    WorkAfterQuiet(L, c, Step(L, c, i), e);
  }

  lemma ReviewKeepsWorkBound(L: Limits, c: Config, i: Input)
    requires WorkBoundInv(L, c) && c.pc.Review?
    ensures WorkBoundInv(L, Step(L, c, i))
  {
    WorkAfterQuiet(L, c, Step(L, c, i), EvReview(i.review));
  }

  lemma SilentStepKeepsWorkBound(L: Limits, c: Config, i: Input)
    requires WorkBoundInv(L, c) && (c.pc.RouteBatch? || c.pc.End?)
    ensures WorkBoundInv(L, Step(L, c, i))
  {
    SameStateSameWork(L, c, Step(L, c, i));
  }

  lemma SameStateSameWork(L: Limits, c: Config, n: Config)
    requires WorkBoundInv(L, c) && n.st == c.st && (Working(n.pc) ==> Working(c.pc))
    ensures WorkBoundInv(L, n)
  {
  }

  lemma StepKeepsWorkBound(L: Limits, c: Config, i: Input)
    requires Inv(L, c) && WorkBoundInv(L, c)
    requires c.pc.PlanTask? ==> Ran(c.st.trace) == {}
    ensures WorkBoundInv(L, Step(L, c, i))
  {
    if c.pc.RunSpecialists? { BatchKeepsWorkBound(L, c, i); }
    else if c.pc.ApplyHumanDecision? { DecisionKeepsWorkBound(L, c, i); }
    else if c.pc.ApplyReviewFeedback? { FeedbackKeepsWorkBound(L, c, i); }
    else if c.pc.Review? { ReviewKeepsWorkBound(L, c, i); }
    else if c.pc.RouteBatch? || c.pc.End? { SilentStepKeepsWorkBound(L, c, i); }
    else if c.pc.PlanTask? {
      NoRunsCounted(c.st.trace);
      PlanKeepsWorkBound(L, c, i);
    } else {
      QuietStepKeepsWorkBound(L, c, i);
    }
  }

  lemma {:induction false} RunKeepsBounds(L: Limits, requireApproval: bool, inputs: seq<Input>)
    ensures ReviewBoundInv(L, Run(L, Start(requireApproval), inputs))
    ensures WorkBoundInv(L, Run(L, Start(requireApproval), inputs))
  {
    if inputs != [] {
      var front, i := inputs[..|inputs|-1], inputs[|inputs|-1];
      RunKeepsBounds(L, requireApproval, front);
      RunKeepsInv(L, requireApproval, front);
      Gate.ReplanningStartsClean(L, requireApproval, front);
      StepKeepsReviewBound(L, Run(L, Start(requireApproval), front), i);
      StepKeepsWorkBound(L, Run(L, Start(requireApproval), front), i);
    }
  }

  /** The reviewer is called at most max(1, C) times plus once per MODIFY of a reviewed result;
      specialists run at most n * max(1, M) times for each of the max(1, C) cycles, each such MODIFY
      and each restart of stuck subtasks. */
  predicate WithinWorkBound(L: Limits, st: State) {
    var mods, restarts := Count(st.trace, IsReviewModify), Count(st.trace, IsRestart);
    && Count(st.trace, IsReview) <= Cycles(L) + mods
    && Count(st.trace, IsRun) <= Capacity(L, st.plan) * (Cycles(L) + mods + restarts)
  }

  lemma BoundFollows(L: Limits, c: Config)
    requires ReviewBoundInv(L, c) && WorkBoundInv(L, c)
    ensures WithinWorkBound(L, c.st)
  {
    var fills := 1 + Count(c.st.trace, IsFeedback) + Count(c.st.trace, IsRestart);
    var most := Cycles(L) + Count(c.st.trace, IsReviewModify) + Count(c.st.trace, IsRestart);
    CapacityMonotone(Capacity(L, c.st.plan), fills, most);
  }

  /** Every run stays within the bound, whatever the plan, the answers and the decisions. */
  lemma WorkIsBounded(L: Limits, requireApproval: bool, inputs: seq<Input>)
    ensures WithinWorkBound(L, Run(L, Start(requireApproval), inputs).st)
  {
    RunKeepsBounds(L, requireApproval, inputs);
    BoundFollows(L, Run(L, Start(requireApproval), inputs));
  }

  lemma {:induction false} NoneCounted(trace: seq<Event>, p: Event -> bool)
    requires forall k :: 0 <= k < |trace| ==> !p(trace[k])
    ensures Count(trace, p) == 0
  {
    if trace != [] {
      NoneCounted(trace[..|trace|-1], p);
    }
  }

  lemma CapacityMonotone(cap: nat, a: nat, b: nat)
    requires a <= b
    ensures cap * a <= cap * b
  {
  }
}
