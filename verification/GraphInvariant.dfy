/** What every step of the orchestrator keeps, for every limit, plan, answer and decision. */
module GraphInvariant {
  import opened Schemas
  import opened Reducers
  import opened Graph
  import opened Plans

  ghost predicate AllSucceeded(st: State) {
    && st.completed.Keys <= Subtasks(st).Keys
    && forall id :: id in Subtasks(st) ==> Succeeded(st.completed, id)
  }

  /** Nothing of an earlier plan is left. */
  ghost predicate Clean(st: State) {
    && st.completed == map[] && st.retryCounts == map[] && st.feedback == map[]
    && st.review.None? && st.reviewCycles == 0
  }

  /** Holds whenever a plan is in place. */
  ghost predicate PlanInv(st: State) {
    var byId := Subtasks(st);
    && st.completed.Keys <= st.retryCounts.Keys
    && st.retryCounts.Keys <= byId.Keys
    && (forall id :: id in st.retryCounts ==> st.retryCounts[id] >= 0 && Completable(st.plan, id))
    && (forall id :: id in byId && Failed(st.completed, id) ==> DepsDone(st.completed, byId[id]))
    && (st.review.None? ==> BeforeReview(st))
    && (st.review.Some? ==> AfterReview(st, st.review.value))
  }

  ghost predicate BeforeReview(st: State) {
    && st.reviewCycles == 0
    && st.feedback.Keys <= st.retryCounts.Keys
    && forall id :: id in st.retryCounts && id in Subtasks(st) ==> DepsDone(st.completed, Subtasks(st)[id])
  }

  /** After a review only what that review can send back may be unfinished. */
  ghost predicate AfterReview(st: State, r: ReviewResult) {
    && st.reviewCycles >= 1
    && forall id :: id in Subtasks(st) ==>
         Completable(st.plan, id) && (id !in RedoIds(st, r) ==> Succeeded(st.completed, id))
  }

  ghost predicate NoFailureOutside(st: State, ids: set<Id>) {
    forall id :: Failed(st.completed, id) ==> id in ids
  }

  ghost predicate ValidBatch(L: Limits, st: State, batch: seq<Id>) {
    && batch != []
    && batch == ReadyAmong(L, st, OrderedIds(st.plan.subtasks))
    && Distinct(batch)
    && (forall id :: id in batch <==> IsReady(L, st, id))
    && !SomeStuck(L, st)
  }

  /** The recorded escalation is the one the state still calls for. */
  ghost predicate PendingDecision(L: Limits, st: State) {
    && st.decision.Some?
    && st.source == Some(EscalationSource(L, st))
    && st.escalation == Some(RaiseEscalation(L, st))
  }

  ghost predicate Inv(L: Limits, c: Config) {
    var st := c.st;
    match c.pc
    case Intake => Clean(st)
    case PlanTask => Clean(st)
    case RouteBatch => PlanInv(st)
    case RunSpecialists(batch) => PlanInv(st) && ValidBatch(L, st, batch)
    case Review => PlanInv(st) && AllSucceeded(st)
    case ApplyReviewFeedback => PlanInv(st) && st.review.Some? && NoFailureOutside(st, IdSet(st.review.value.redo))
    case NotifyHuman => PlanInv(st) && st.review.Some? && AllSucceeded(st)
    case Synthesize => PlanInv(st) && st.review.Some?
    case Deliver => PlanInv(st)
    case RejectTask => PlanInv(st)
    case HumanEscalation => PlanInv(st) && (st.completed == map[] && st.review.None? ==> Clean(st))
    case ApplyHumanDecision =>
      PlanInv(st) && (st.completed == map[] && st.review.None? ==> Clean(st)) && PendingDecision(L, st)
    case End => PlanInv(st)
    case Crashed => false
  }

  // ---------------------------------------------------------------- the plan step

  lemma PlanKeepsInv(L: Limits, st: State, plan: Plan)
    requires Clean(st)
    ensures Clean(PlanNode(st, plan)) && PlanInv(PlanNode(st, plan))
  {
  }

  // ---------------------------------------------------------------- the parallel super-step

  ghost function RunEvents(batch: seq<Id>, answers: map<Id, Outcome>): seq<Event> {
    if batch == [] then []
    else RunEvents(batch[..|batch|-1], answers)
         + [EvRun(batch[|batch|-1], AnswerFor(answers, batch[|batch|-1]).success)]
  }

  ghost function BatchResults(snapshot: State, batch: seq<Id>, answers: map<Id, Outcome>): map<Id, SubtaskResult>
    requires AllFound(snapshot.plan, batch)
  {
    map id | id in batch :: BranchResult(snapshot, id, AnswerFor(answers, id))
  }

  ghost function BatchCounts(snapshot: State, batch: seq<Id>, answers: map<Id, Outcome>): map<Id, int> {
    map id | id in batch :: BranchCount(snapshot, id, AnswerFor(answers, id))
  }

  lemma BatchResultsExtend(snapshot: State, front: seq<Id>, last: Id, answers: map<Id, Outcome>)
    requires AllFound(snapshot.plan, front + [last])
    ensures AllFound(snapshot.plan, front) && FirstMatch(snapshot.plan.subtasks, last).Some?
    ensures BatchResults(snapshot, front + [last], answers)
         == BatchResults(snapshot, front, answers)[last := BranchResult(snapshot, last, AnswerFor(answers, last))]
    ensures BatchCounts(snapshot, front + [last], answers)
         == BatchCounts(snapshot, front, answers)[last := BranchCount(snapshot, last, AnswerFor(answers, last))]
  {
    assert last in front + [last];
    forall id | id in front ensures id in front + [last] {}
  }

  lemma MergeOne<V>(m: map<Id, V>, extra: map<Id, V>, id: Id, v: V)
    ensures Merge(m + extra, map[id := Some(v)]) == m + extra[id := v]
  {
  }

  lemma RunBranchEffect(snapshot: State, st: State, results: map<Id, SubtaskResult>, counts: map<Id, int>,
                        trace: seq<Event>, id: Id, answer: Outcome)
    requires FirstMatch(snapshot.plan.subtasks, id).Some?
    ensures RunBranch(snapshot, st.(completed := st.completed + results, retryCounts := st.retryCounts + counts,
                                    trace := trace), id, answer)
         == st.(completed := st.completed + results[id := BranchResult(snapshot, id, answer)],
                retryCounts := st.retryCounts + counts[id := BranchCount(snapshot, id, answer)],
                trace := trace + [EvRun(id, answer.success)])
  {
    MergeOne(st.completed, results, id, BranchResult(snapshot, id, answer));
    MergeOne(st.retryCounts, counts, id, BranchCount(snapshot, id, answer));
  }

  lemma RunBranchesSnoc(snapshot: State, st: State, front: seq<Id>, last: Id, answers: map<Id, Outcome>)
    requires AllFound(snapshot.plan, front + [last])
    ensures AllFound(snapshot.plan, front) && FirstMatch(snapshot.plan.subtasks, last).Some?
    ensures RunBranches(snapshot, st, front + [last], answers)
         == RunBranch(snapshot, RunBranches(snapshot, st, front, answers), last, AnswerFor(answers, last))
    ensures RunEvents(front + [last], answers)
         == RunEvents(front, answers) + [EvRun(last, AnswerFor(answers, last).success)]
  {
    var batch := front + [last];
    assert batch[..|batch|-1] == front && batch[|batch|-1] == last;
    forall id | id in front ensures id in batch {}
    assert last in batch;
  }

  lemma AppendAssociates(a: seq<Event>, b: seq<Event>, e: Event)
    ensures (a + b) + [e] == a + (b + [e])
  {
  }

  /** The reduced super-step in closed form: each branch wrote its own result and counter. */
  lemma {:induction false} RunBranchesEffect(snapshot: State, st: State, batch: seq<Id>, answers: map<Id, Outcome>)
    requires AllFound(snapshot.plan, batch)
    ensures RunBranches(snapshot, st, batch, answers)
         == st.(completed := st.completed + BatchResults(snapshot, batch, answers),
                retryCounts := st.retryCounts + BatchCounts(snapshot, batch, answers),
                trace := st.trace + RunEvents(batch, answers))
  {
    if batch == [] {
      assert st.trace + [] == st.trace;
      assert st.completed + map[] == st.completed;
      assert st.retryCounts + map[] == st.retryCounts;
    } else {
      var front, last := batch[..|batch|-1], batch[|batch|-1];
      assert batch == front + [last];
      RunBranchesSnoc(snapshot, st, front, last, answers);
      BatchResultsExtend(snapshot, front, last, answers);
      RunBranchesEffect(snapshot, st, front, answers);
      RunBranchEffect(snapshot, st, BatchResults(snapshot, front, answers), BatchCounts(snapshot, front, answers),
                      st.trace + RunEvents(front, answers), last, AnswerFor(answers, last));
      AppendAssociates(st.trace, RunEvents(front, answers), EvRun(last, AnswerFor(answers, last).success));
    }
  }

  lemma BatchIsFound(L: Limits, st: State, batch: seq<Id>)
    requires ValidBatch(L, st, batch)
    ensures AllFound(st.plan, batch)
  {
    forall id | id in batch ensures FirstMatch(st.plan.subtasks, id).Some? {
      assert IsReady(L, st, id);
      LookupsAgreeOnKeys(st.plan.subtasks, id);
    }
  }

  lemma ReadyIsCompletable(L: Limits, st: State, id: Id)
    requires PlanInv(st) && IsReady(L, st, id)
    ensures Completable(st.plan, id)
  {
    forall d | d in Subtasks(st)[id].dependsOn ensures Completable(st.plan, d) {
      assert Succeeded(st.completed, d);
    }
    CompletableIfDepsAre(st.plan, id);
  }

  /** The super-step as one update of the state. */
  lemma BatchStepIs(L: Limits, c: Config, i: Input)
    requires Inv(L, c) && c.pc.RunSpecialists?
    ensures AllFound(c.st.plan, c.pc.batch) && ValidBatch(L, c.st, c.pc.batch)
    ensures Step(L, c, i)
         == Config(c.st.(completed := c.st.completed + BatchResults(c.st, c.pc.batch, i.answers),
                         retryCounts := c.st.retryCounts + BatchCounts(c.st, c.pc.batch, i.answers),
                         trace := c.st.trace + RunEvents(c.pc.batch, i.answers)),
                   RouteBatch)
  {
    BatchIsFound(L, c.st, c.pc.batch);
    RunBranchesEffect(c.st, c.st, c.pc.batch, i.answers);
  }

  /** Successes are never overwritten, so what they enabled stays enabled. */
  lemma BranchesKeepSuccesses(L: Limits, st: State, batch: seq<Id>, answers: map<Id, Outcome>)
    requires ValidBatch(L, st, batch) && AllFound(st.plan, batch)
    ensures var r := RunBranches(st, st, batch, answers);
            && (forall d :: Succeeded(st.completed, d) ==> Succeeded(r.completed, d))
            && (forall t: SubTask :: DepsDone(st.completed, t) ==> DepsDone(r.completed, t))
            && r.completed.Keys == st.completed.Keys + IdSet(batch)
            && r.retryCounts.Keys == st.retryCounts.Keys + IdSet(batch)
  {
    RunBranchesEffect(st, st, batch, answers);
    var r := RunBranches(st, st, batch, answers);
    forall d | Succeeded(st.completed, d) ensures Succeeded(r.completed, d) {
      assert d !in batch;
    }
  }

  lemma BatchDepsDone(L: Limits, st: State, batch: seq<Id>)
    requires PlanInv(st) && ValidBatch(L, st, batch)
    ensures forall id :: id in batch ==>
              id in Subtasks(st) && Completable(st.plan, id) && DepsDone(st.completed, Subtasks(st)[id])
  {
    forall id | id in batch ensures id in Subtasks(st) && Completable(st.plan, id) {
      ReadyIsCompletable(L, st, id);
    }
  }

  lemma BranchCountersStayValid(st: State, batch: seq<Id>, answers: map<Id, Outcome>)
    requires forall id :: id in st.retryCounts ==> st.retryCounts[id] >= 0 && Completable(st.plan, id)
    requires forall id :: id in batch ==> Completable(st.plan, id)
    ensures var counts := st.retryCounts + BatchCounts(st, batch, answers);
            forall id :: id in counts ==> counts[id] >= 0 && Completable(st.plan, id)
  {
  }

  lemma BranchFailuresKeepDeps(L: Limits, st: State, batch: seq<Id>, answers: map<Id, Outcome>)
    requires PlanInv(st) && ValidBatch(L, st, batch) && AllFound(st.plan, batch)
    ensures var r := RunBranches(st, st, batch, answers);
            forall id :: id in Subtasks(r) && Failed(r.completed, id) ==> DepsDone(r.completed, Subtasks(r)[id])
  {
    BranchesKeepSuccesses(L, st, batch, answers);
    RunBranchesEffect(st, st, batch, answers);
    BatchDepsDone(L, st, batch);
    var r := RunBranches(st, st, batch, answers);
    forall id | id in Subtasks(r) && Failed(r.completed, id) ensures DepsDone(r.completed, Subtasks(r)[id]) {
      if id !in batch { assert Failed(st.completed, id); }
    }
  }

  lemma BranchesBeforeReview(L: Limits, st: State, batch: seq<Id>, answers: map<Id, Outcome>)
    requires PlanInv(st) && ValidBatch(L, st, batch) && AllFound(st.plan, batch) && st.review.None?
    ensures BeforeReview(RunBranches(st, st, batch, answers))
  {
    BranchesKeepSuccesses(L, st, batch, answers);
    RunBranchesEffect(st, st, batch, answers);
    BatchDepsDone(L, st, batch);
  }

  lemma BranchesAfterReview(L: Limits, st: State, batch: seq<Id>, answers: map<Id, Outcome>)
    requires PlanInv(st) && ValidBatch(L, st, batch) && AllFound(st.plan, batch) && st.review.Some?
    ensures AfterReview(RunBranches(st, st, batch, answers), st.review.value)
  {
    BranchesKeepSuccesses(L, st, batch, answers);
    RunBranchesEffect(st, st, batch, answers);
  }

  lemma BranchesKeepInv(L: Limits, st: State, batch: seq<Id>, answers: map<Id, Outcome>)
    requires PlanInv(st) && ValidBatch(L, st, batch)
    ensures AllFound(st.plan, batch) && PlanInv(RunBranches(st, st, batch, answers))
  {
    BatchIsFound(L, st, batch);
    RunBranchesEffect(st, st, batch, answers);
    BranchesKeepSuccesses(L, st, batch, answers);
    BatchDepsDone(L, st, batch);
    BranchCountersStayValid(st, batch, answers);
    BranchFailuresKeepDeps(L, st, batch, answers);
    if st.review.None? {
      BranchesBeforeReview(L, st, batch, answers);
    } else {
      BranchesAfterReview(L, st, batch, answers);
    }
  }

  // ---------------------------------------------------------------- scheduling

  /** With a plan in place, the scheduler goes to review exactly on a fully successful plan. */
  lemma ReviewOnlyWhenAllSucceeded(L: Limits, st: State)
    requires PlanInv(st) && DecideNextBatch(L, st).ToReview?
    ensures AllSucceeded(st)
  {
    assert st.completed.Keys <= Subtasks(st).Keys;
    if id :| id in Subtasks(st) && id !in st.completed {
      SmallerSet(st.completed.Keys, Subtasks(st).Keys, id);
    }
  }

  lemma SmallerSet(a: set<Id>, b: set<Id>, x: Id)
    requires a <= b && x in b && x !in a
    ensures |a| < |b|
  {
    var rest := b - a;
    assert x in rest && b == a + rest;
  }

  lemma BatchIsValid(L: Limits, st: State)
    requires DecideNextBatch(L, st).Batch?
    ensures ValidBatch(L, st, DecideNextBatch(L, st).ids)
  {
    var ids := OrderedIds(st.plan.subtasks);
    ReadyAmongSelects(L, st, ids);
    OrderedIdsDistinct(st.plan.subtasks);
    forall id ensures id in ids <==> id in Subtasks(st) {
      LookupsAgreeOnKeys(st.plan.subtasks, id);
    }
  }

  lemma ReadyMeansNonEmpty(L: Limits, st: State, id: Id)
    requires IsReady(L, st, id)
    ensures !SomeStuck(L, st) ==> DecideNextBatch(L, st).Batch?
  {
    ReadyAmongSelects(L, st, OrderedIds(st.plan.subtasks));
    LookupsAgreeOnKeys(st.plan.subtasks, id);
  }

  /** An escalation with no result and no review finds no retry counter and no feedback either. */
  lemma EscalationOnNoResultsIsClean(L: Limits, st: State)
    requires PlanInv(st) && DecideNextBatch(L, st).Escalate?
    requires st.completed == map[] && st.review.None?
    ensures Clean(st)
  {
    if id :| id in st.retryCounts {
      assert !SomeStuck(L, st);
      assert IsReady(L, st, id);
      ReadyMeansNonEmpty(L, st, id);
    }
    assert st.retryCounts.Keys == {};
    assert st.feedback.Keys == {};
  }

  // ---------------------------------------------------------------- review and redo

  lemma ReviewKeepsInv(st: State, r: ReviewResult)
    requires PlanInv(st) && AllSucceeded(st)
    ensures PlanInv(ReviewNode(st, r)) && AllSucceeded(ReviewNode(st, r))
  {
    forall id | id in Subtasks(st) ensures Completable(st.plan, id) {
      assert Succeeded(st.completed, id);
    }
  }

  lemma FeedbackKeepsInv(st: State)
    requires PlanInv(st) && st.review.Some? && NoFailureOutside(st, IdSet(st.review.value.redo))
    ensures PlanInv(FeedbackNode(st, st.review.value))
  {
    var r := st.review.value;
    var s := FeedbackNode(st, r);
    assert forall id :: id in s.completed ==> id in st.completed && s.completed[id] == st.completed[id];
    forall id ensures !Failed(s.completed, id) {
      if Failed(st.completed, id) { assert id in IdSet(r.redo); }
    }
    forall id | id in Subtasks(s) && id !in RedoIds(s, r) ensures Succeeded(s.completed, id) {
      if r.redo == [] { LookupsAgreeOnKeys(s.plan.subtasks, id); }
    }
  }

  // ---------------------------------------------------------------- human decisions

  lemma DecisionIsApplicable(L: Limits, st: State)
    requires PlanInv(st) && PendingDecision(L, st)
    ensures DecisionApplies(st)
    ensures IsPlanSource(st.source.value) ==> st.completed == map[] && st.review.None?
    ensures IsReviewSource(st.source.value) ==> st.review.Some?
    ensures st.source.value.SpecialistRetry? ==> st.review.None? && st.escalation.value.stuckIds == StuckIds(L, st)
    ensures IsPlanSource(st.source.value) || IsReviewSource(st.source.value) || st.source.value.SpecialistRetry?
  {
  }

  /** Putting stuck subtasks back, or finishing them by hand, leaves every success in place. */
  lemma StuckUpdateKeepsInv(L: Limits, st: State, s: State)
    requires PlanInv(st) && st.review.None?
    requires s.plan == st.plan && s.review == st.review && s.reviewCycles == st.reviewCycles
    requires forall id :: id !in StuckIds(L, st) ==>
               && (id in s.completed <==> id in st.completed)
               && (id in s.completed ==> s.completed[id] == st.completed[id])
               && (id in s.retryCounts <==> id in st.retryCounts)
               && (id in s.retryCounts ==> s.retryCounts[id] == st.retryCounts[id])
    requires forall id :: id in StuckIds(L, st) ==>
               !Failed(s.completed, id) && id in s.retryCounts && s.retryCounts[id] >= 0
    requires s.feedback.Keys <= st.feedback.Keys + StuckIds(L, st)
    ensures PlanInv(s)
  {
    forall d | Succeeded(st.completed, d) ensures Succeeded(s.completed, d) {
      assert d !in StuckIds(L, st);
    }
    assert forall t: SubTask :: DepsDone(st.completed, t) ==> DepsDone(s.completed, t);
    assert forall id :: Failed(s.completed, id) ==> Failed(st.completed, id);
    assert s.retryCounts.Keys == st.retryCounts.Keys;
  }

  lemma RetryDecisionKeepsInv(L: Limits, st: State)
    requires PlanInv(st) && PendingDecision(L, st) && DecisionApplies(st)
    requires st.source.value.SpecialistRetry?
    ensures PlanInv(DecisionNode(st))
  {
    DecisionIsApplicable(L, st);
    if st.decision.value.action.Reject? {
      SameWorkSameInv(st, DecisionNode(st));
    } else {
      StuckUpdateKeepsInv(L, st, DecisionNode(st));
    }
  }

  /** Dropping what the last review can send back leaves no failure behind. */
  lemma RedoDropKeepsInv(st: State, s: State, r: ReviewResult)
    requires PlanInv(st) && st.review == Some(r)
    requires s.plan == st.plan && s.review == st.review && s.reviewCycles == st.reviewCycles
    requires s.retryCounts == st.retryCounts
    requires s.completed == Merge(st.completed, Tombstones(RedoIds(st, r)))
    ensures PlanInv(s) && NoFailureOutside(s, {})
  {
    assert RedoIds(s, r) == RedoIds(st, r);
    forall id ensures !Failed(s.completed, id) {
      if Failed(st.completed, id) { assert id in Subtasks(st); }
    }
  }

  /** The invariant reads nothing but the work and the review. */
  lemma SameWorkSameInv(st: State, s: State)
    requires PlanInv(st)
    requires s.plan == st.plan && s.completed == st.completed && s.retryCounts == st.retryCounts
    requires s.feedback == st.feedback && s.review == st.review && s.reviewCycles == st.reviewCycles
    ensures PlanInv(s)
  {
    if st.review.Some? {
      assert RedoIds(s, st.review.value) == RedoIds(st, st.review.value);
    }
  }

  lemma ModifyEffect(st: State)
    requires DecisionApplies(st) && IsReviewSource(st.source.value) && st.decision.value.action.Modify?
    ensures var s := DecisionNode(st);
            && s.plan == st.plan && s.review == st.review && s.reviewCycles == st.reviewCycles
            && s.retryCounts == st.retryCounts
            && s.completed == Merge(st.completed, Tombstones(RedoIds(st, st.review.value)))
  {
  }

  lemma ReviewDecisionKeepsInv(L: Limits, st: State)
    requires PlanInv(st) && DecisionApplies(st) && st.review.Some?
    requires IsReviewSource(st.source.value)
    ensures PlanInv(DecisionNode(st))
    ensures st.decision.value.action.Modify? ==> NoFailureOutside(DecisionNode(st), {})
  {
    if st.decision.value.action.Modify? {
      ModifyEffect(st);
      RedoDropKeepsInv(st, DecisionNode(st), st.review.value);
    } else {
      SameWorkSameInv(st, DecisionNode(st));
    }
  }

  // ---------------------------------------------------------------- every step, every run

  /** What a decision step changes besides the work itself. */
  lemma DecisionStepEffect(L: Limits, c: Config, i: Input)
    requires c.pc.ApplyHumanDecision? && DecisionApplies(c.st)
    ensures var st := c.st;
            var next := Step(L, c, i);
            && next.pc == RouteAfterDecision(st.decision.value.action, st.source.value)
            && next.st.trace
               == st.trace + [EvDecision(st.source.value, st.decision.value.action, st.escalation.value.stuckIds)]
            && next.st.plan == st.plan && next.st.requireApproval == st.requireApproval
  {
  }

  lemma RouteBatchKeepsInv(L: Limits, c: Config, i: Input)
    requires Inv(L, c) && c.pc.RouteBatch?
    ensures Inv(L, Step(L, c, i))
  {
    var st := c.st;
    match DecideNextBatch(L, st) {
      case Escalate =>
        if st.completed == map[] && st.review.None? { EscalationOnNoResultsIsClean(L, st); }
      case Batch(ids) => BatchIsValid(L, st);
      case ToReview => ReviewOnlyWhenAllSucceeded(L, st);
    }
  }

  lemma PlanDecisionKeepsInv(L: Limits, c: Config, i: Input)
    requires Inv(L, c) && c.pc.ApplyHumanDecision? && IsPlanSource(c.st.source.value)
    ensures Inv(L, Step(L, c, i))
  {
    DecisionIsApplicable(L, c.st);
    SameWorkSameInv(c.st, DecisionNode(c.st));
  }

  lemma RetryStepKeepsInv(L: Limits, c: Config, i: Input)
    requires Inv(L, c) && c.pc.ApplyHumanDecision? && c.st.source.value.SpecialistRetry?
    ensures Inv(L, Step(L, c, i))
  {
    DecisionIsApplicable(L, c.st);
    RetryDecisionKeepsInv(L, c.st);
  }

  lemma ReviewedStepKeepsInv(L: Limits, c: Config, i: Input)
    requires Inv(L, c) && c.pc.ApplyHumanDecision? && IsReviewSource(c.st.source.value)
    ensures Inv(L, Step(L, c, i))
  {
    DecisionIsApplicable(L, c.st);
    ReviewDecisionKeepsInv(L, c.st);
  }

  lemma DecisionKeepsInv(L: Limits, c: Config, i: Input)
    requires Inv(L, c) && c.pc.ApplyHumanDecision?
    ensures Inv(L, Step(L, c, i))
  {
    DecisionIsApplicable(L, c.st);
    if IsPlanSource(c.st.source.value) {
      PlanDecisionKeepsInv(L, c, i);
    } else if IsReviewSource(c.st.source.value) {
      ReviewedStepKeepsInv(L, c, i);
    } else {
      RetryStepKeepsInv(L, c, i);
    }
  }

  lemma QuietStepKeepsInv(L: Limits, c: Config, i: Input)
    requires Inv(L, c)
    requires c.pc.NotifyHuman? || c.pc.Synthesize? || c.pc.Deliver? || c.pc.RejectTask? || c.pc.HumanEscalation?
             || c.pc.End?
    ensures Inv(L, Step(L, c, i))
  {
    SameWorkSameInv(c.st, Step(L, c, i).st);
  }

  lemma PlanStepKeepsInv(L: Limits, c: Config, i: Input)
    requires Inv(L, c) && (c.pc.Intake? || c.pc.PlanTask?)
    ensures Inv(L, Step(L, c, i))
  {
    if c.pc.PlanTask? { PlanKeepsInv(L, c.st, i.plan); }
  }

  lemma BatchStepKeepsInv(L: Limits, c: Config, i: Input)
    requires Inv(L, c) && c.pc.RunSpecialists?
    ensures Inv(L, Step(L, c, i))
  {
    BranchesKeepInv(L, c.st, c.pc.batch, i.answers);
  }

  lemma ReviewStepKeepsInv(L: Limits, c: Config, i: Input)
    requires Inv(L, c) && (c.pc.Review? || c.pc.ApplyReviewFeedback?)
    ensures Inv(L, Step(L, c, i))
  {
    if c.pc.Review? { ReviewKeepsInv(c.st, i.review); } else { FeedbackKeepsInv(c.st); }
  }

  lemma StepKeepsInv(L: Limits, c: Config, i: Input)
    requires Inv(L, c)
    ensures Inv(L, Step(L, c, i))
  {
    if c.pc.Intake? || c.pc.PlanTask? { PlanStepKeepsInv(L, c, i); }
    else if c.pc.RouteBatch? { RouteBatchKeepsInv(L, c, i); }
    else if c.pc.RunSpecialists? { BatchStepKeepsInv(L, c, i); }
    else if c.pc.Review? || c.pc.ApplyReviewFeedback? { ReviewStepKeepsInv(L, c, i); }
    else if c.pc.ApplyHumanDecision? { DecisionKeepsInv(L, c, i); }
    else { QuietStepKeepsInv(L, c, i); }
  }

  /** Every run keeps the invariant, and none ever reaches a missing key or an absent review. */
  lemma {:induction false} RunKeepsInv(L: Limits, requireApproval: bool, inputs: seq<Input>)
    ensures Inv(L, Run(L, Start(requireApproval), inputs))
    ensures !Run(L, Start(requireApproval), inputs).pc.Crashed?
  {
    if inputs != [] {
      RunKeepsInv(L, requireApproval, inputs[..|inputs|-1]);
      StepKeepsInv(L, Run(L, Start(requireApproval), inputs[..|inputs|-1]), inputs[|inputs|-1]);
    }
  }
}
