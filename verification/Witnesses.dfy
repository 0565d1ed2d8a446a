/** Concrete runs in which a claim one might expect of the orchestrator fails. */
module Witnesses {
  import opened Schemas
  import opened Graph
  import opened GraphInvariant
  import Serial
  import opened Redo

  // ---------------------------------------------------------------- a failed subtask in synthesis

  const A: Id := "a"
  const B: Id := "b"
  const ONE_TASK: SubTask := SubTask(A, Research, [], false)
  const ONE_PLAN: Plan := Plan([ONE_TASK], 1.0)
  const ONE_RETRY: Limits := Limits(1, 2, 0.5, 0.5)
  const ASK_REDO: ReviewResult := ReviewResult(false, 0.2, "redo", [A], false)

  /** The inputs of a step in which the specialist answers with `ok` and the human with `action`. */
  function Answering(ok: bool, action: Action): Input {
    Input(ONE_PLAN, map[A := Outcome(ok, "text")], ASK_REDO, HumanDecision(action, Some("guidance"), None), "out")
  }

  lemma OneTaskLookups()
    ensures ById(ONE_PLAN.subtasks) == map[A := ONE_TASK]
    ensures OrderedIds(ONE_PLAN.subtasks) == [A]
    ensures FirstMatch(ONE_PLAN.subtasks, A) == Some(ONE_TASK)
  {
    var sts := ONE_PLAN.subtasks;
    assert sts[..0] == [];
    assert ById(sts[..0]) == map[];
    assert OrderedIds(sts[..0]) == [];
    assert FirstMatch(sts[..0], A) == None;
  }

  lemma OneTaskVerdict(st: State)
    requires st.plan == ONE_PLAN && st.completed.Keys <= {A}
    ensures A !in st.completed ==> DecideNextBatch(ONE_RETRY, st) == Batch([A])
    ensures Succeeded(st.completed, A) ==> DecideNextBatch(ONE_RETRY, st) == ToReview
    ensures Failed(st.completed, A) && RetriesOf(st.retryCounts, A) >= 1 ==> DecideNextBatch(ONE_RETRY, st) == Escalate
  {
    OneTaskLookups();
    assert [A][..0] == [];
    assert ReadyAmong(ONE_RETRY, st, []) == [];
    assert ReadyAmong(ONE_RETRY, st, [A]) == if IsReady(ONE_RETRY, st, A) then [A] else [];
    if A in st.completed {
      assert st.completed.Keys == {A};
    }
    if Failed(st.completed, A) && RetriesOf(st.retryCounts, A) >= 1 {
      assert IsStuck(ONE_RETRY, st, A);
    }
  }

  lemma OneBranch(st: State, ok: bool, answers: map<Id, Outcome>)
    requires FirstMatch(st.plan.subtasks, A) == Some(ONE_TASK) && answers == map[A := Outcome(ok, "text")]
    ensures AllFound(st.plan, [A])
    ensures var r := RunBranches(st, st, [A], answers);
            && r == st.(completed := r.completed, retryCounts := r.retryCounts, trace := r.trace)
            && r.completed == st.completed[A := SubtaskResult(A, Research, ok, "text")]
            && r.retryCounts == st.retryCounts[A := RetriesOf(st.retryCounts, A) + if ok then 0 else 1]
  {
    assert [] + [A] == [A];
    RunBranchesSnoc(st, st, [], A, answers);
  }

  lemma RunTwoMore(c: Config, inputs: seq<Input>, i: Input)
    ensures Run(ONE_RETRY, c, inputs + [i] + [i]) == Step(ONE_RETRY, Step(ONE_RETRY, Run(ONE_RETRY, c, inputs), i), i)
  {
    RunSnoc(ONE_RETRY, c, inputs, i);
    RunSnoc(ONE_RETRY, c, inputs + [i], i);
  }

  /** The state `d` differs from `c` only in its results, counters and log. */
  ghost predicate RoundFrom(c: State, d: State, ok: bool) {
    && d == c.(completed := d.completed, retryCounts := d.retryCounts, trace := d.trace)
    && d.completed == map[A := SubtaskResult(A, Research, ok, "text")]
    && d.retryCounts == c.retryCounts[A := RetriesOf(c.retryCounts, A) + if ok then 0 else 1]
  }

  /** One specialist round: dispatch, run, and back to the scheduler. */
  lemma OneRound(c: Config, ok: bool, i: Input) returns (d: Config)
    requires c.pc == RouteBatch && c.st.plan == ONE_PLAN && c.st.completed == map[]
    requires i.answers == map[A := Outcome(ok, "text")]
    ensures d == Step(ONE_RETRY, Step(ONE_RETRY, c, i), i)
    ensures d.pc == RouteBatch && RoundFrom(c.st, d.st, ok)
  {
    OneTaskVerdict(c.st);
    OneTaskLookups();
    OneBranch(c.st, ok, i.answers);
    var c1 := Step(ONE_RETRY, c, i);
    assert c1 == Config(c.st, RunSpecialists([A]));
    d := Step(ONE_RETRY, c1, i);
  }

  lemma PlannedStart(i: Input) returns (c: Config)
    requires i.plan == ONE_PLAN
    ensures c == Step(ONE_RETRY, Step(ONE_RETRY, Start(false), i), i)
    ensures c.pc == RouteBatch && c.st.plan == ONE_PLAN && Clean(c.st)
  {
    assert forall t :: t in ONE_PLAN.subtasks ==> t == ONE_TASK;
    c := Step(ONE_RETRY, Step(ONE_RETRY, Start(false), i), i);
  }

  /** Planning and a successful first round. */
  lemma FirstRound(i: Input) returns (c: Config, inputs: seq<Input>)
    requires i.plan == ONE_PLAN && i.answers == map[A := Outcome(true, "text")]
    ensures c == Run(ONE_RETRY, Start(false), inputs)
    ensures c.pc == RouteBatch && c.st.plan == ONE_PLAN && c.st.reviewCycles == 0
    ensures c.st.completed == map[A := SubtaskResult(A, Research, true, "text")]
    ensures RetriesOf(c.st.retryCounts, A) == 0
  {
    var c1 := PlannedStart(i);
    RunTwoMore(Start(false), [], i);
    c := OneRound(c1, true, i);
    inputs := [] + [i] + [i];
    RunTwoMore(Start(false), inputs, i);
    inputs := inputs + [i] + [i];
  }

  /** A failed redo: dispatch, failure, and the scheduler's escalation. */
  lemma FailedRound(c: Config, past: seq<Input>, i: Input) returns (d: Config, inputs: seq<Input>)
    requires c == Run(ONE_RETRY, Start(false), past)
    requires c.pc == RouteBatch && c.st.plan == ONE_PLAN && c.st.completed == map[]
    requires RetriesOf(c.st.retryCounts, A) >= 0 && i.answers == map[A := Outcome(false, "text")]
    ensures d == Run(ONE_RETRY, Start(false), inputs)
    ensures d.pc == HumanEscalation && d.st.plan == ONE_PLAN && IsStuck(ONE_RETRY, d.st, A)
    ensures d.st.review == c.st.review && d.st.completed.Keys == {A}
    ensures RetriesOf(d.st.retryCounts, A) == RetriesOf(c.st.retryCounts, A) + 1
  {
    var c1 := OneRound(c, false, i);
    RunTwoMore(Start(false), past, i);
    OneTaskVerdict(c1.st);
    d, inputs := Step(ONE_RETRY, c1, i), past + [i] + [i] + [i];
    RunSnoc(ONE_RETRY, Start(false), past + [i] + [i], i);
    assert d == Config(c1.st, HumanEscalation);
  }

  lemma RejectedReview(st: State, i: Input)
    requires st.plan == ONE_PLAN && st.reviewCycles == 0 && i.review == ASK_REDO
    ensures Step(ONE_RETRY, Config(st, Review), i) == Config(ReviewNode(st, ASK_REDO), ApplyReviewFeedback)
  {
  }

  lemma RedoSendsBack(st: State, r: ReviewResult, i: Input)
    requires st.review == Some(r) && r.redo == [A] && st.completed.Keys <= {A}
    ensures var d := Step(ONE_RETRY, Config(st, ApplyReviewFeedback), i);
            && d.pc == RouteBatch && d.st.plan == st.plan && d.st.completed == map[]
            && d.st.review == st.review && d.st.retryCounts == st.retryCounts
  {
    assert IdSet(r.redo) == {A};
  }

  /** Review, rejection and redo, from a fully successful first round. */
  lemma ReviewedOnce(c: Config, i: Input) returns (d: Config)
    requires c.pc == RouteBatch && c.st.plan == ONE_PLAN && c.st.reviewCycles == 0 && i.review == ASK_REDO
    requires c.st.completed == map[A := SubtaskResult(A, Research, true, "text")]
    ensures d == Step(ONE_RETRY, Step(ONE_RETRY, Step(ONE_RETRY, c, i), i), i)
    ensures d.pc == RouteBatch && d.st.plan == ONE_PLAN && d.st.completed == map[]
    ensures d.st.review == Some(ASK_REDO) && d.st.retryCounts == c.st.retryCounts
  {
    OneTaskVerdict(c.st);
    assert Step(ONE_RETRY, c, i) == Config(c.st, Review);
    RejectedReview(c.st, i);
    RedoSendsBack(ReviewNode(c.st, ASK_REDO), ASK_REDO, i);
    d := Step(ONE_RETRY, Config(ReviewNode(c.st, ASK_REDO), ApplyReviewFeedback), i);
  }

  /** The subtask succeeds, the reviewer sends it back, the redo fails: the scheduler stops over a
      stuck specialist, and the human is asked about an exhausted review, shown no stuck subtask. */
  lemma FailedRedoReachesHuman(action: Action) returns (c: Config, inputs: seq<Input>)
    ensures c == Run(ONE_RETRY, Start(false), inputs)
    ensures c.pc == HumanEscalation && c.st.plan == ONE_PLAN && IsStuck(ONE_RETRY, c.st, A)
    ensures c.st.review == Some(ASK_REDO) && EscalationSource(ONE_RETRY, c.st) == ReviewExhausted
    ensures RaiseEscalation(ONE_RETRY, c.st).stuckIds == {}
    ensures c.st.completed.Keys == {A} && RetriesOf(c.st.retryCounts, A) == 1
  {
    var good, bad := Answering(true, action), Answering(false, action);
    var c1, i1 := FirstRound(good);
    var c2 := ReviewedOnce(c1, good);
    RunTwoMore(Start(false), i1, good);
    RunSnoc(ONE_RETRY, Start(false), i1 + [good] + [good], good);
    c, inputs := FailedRound(c2, i1 + [good] + [good] + [good], bad);
  }

  const FLAGGED: ReviewResult := ReviewResult(false, 0.2, "redo", [A], true)

  lemma FlaggedReview(st: State, i: Input)
    requires i.review == FLAGGED
    ensures Step(ONE_RETRY, Config(st, Review), i) == Config(ReviewNode(st, FLAGGED), HumanEscalation)
  {
  }

  lemma ModifyIsPending(c: Config, i: Input) returns (d: Config)
    requires c.pc == HumanEscalation && c.st.review.Some? && i.decision.action.Modify?
    ensures d == Step(ONE_RETRY, c, i) && d.pc.ApplyHumanDecision? && DecisionApplies(d.st)
    ensures IsReviewSource(d.st.source.value) && d.st.decision == Some(i.decision)
    ensures d.st.review == c.st.review && d.st.plan == c.st.plan
    ensures d.st.completed == c.st.completed && d.st.retryCounts == c.st.retryCounts
  {
    d := Step(ONE_RETRY, c, i);
  }

  lemma ModifyTakesBack(c: Config, r: ReviewResult, i: Input)
    requires c.pc.ApplyHumanDecision? && DecisionApplies(c.st) && IsReviewSource(c.st.source.value)
    requires c.st.decision.value.action.Modify? && c.st.review == Some(r) && r.redo == [A]
    requires c.st.completed.Keys <= {A}
    ensures var d := Step(ONE_RETRY, c, i);
            && d.pc.ApplyReviewFeedback? && d.st.plan == c.st.plan && d.st.completed == map[]
            && d.st.review == c.st.review && d.st.retryCounts == c.st.retryCounts
  {
    assert IdSet(r.redo) == {A};
  }

  /** A MODIFY of a reviewed result sends back what the review named. */
  lemma ModifySendsBack(c: Config, r: ReviewResult, i: Input) returns (d: Config)
    requires c.pc == HumanEscalation && c.st.review == Some(r) && r.redo == [A] && i.decision.action.Modify?
    requires c.st.completed.Keys == {A}
    ensures d == Step(ONE_RETRY, Step(ONE_RETRY, Step(ONE_RETRY, c, i), i), i)
    ensures d.pc == RouteBatch && d.st.plan == c.st.plan && d.st.completed == map[]
    ensures d.st.review == c.st.review && d.st.retryCounts == c.st.retryCounts
  {
    var c1 := ModifyIsPending(c, i);
    ModifyTakesBack(c1, r, i);
    var c2 := Step(ONE_RETRY, c1, i);
    RedoSendsBack(c2.st, r, i);
    assert c2 == Config(c2.st, ApplyReviewFeedback);
    d := Step(ONE_RETRY, c2, i);
  }

  /** A successful first round, and a review that asks for a human. */
  lemma FlaggedReachesHuman(i: Input) returns (c: Config, inputs: seq<Input>)
    requires i.plan == ONE_PLAN && i.answers == map[A := Outcome(true, "text")] && i.review == FLAGGED
    ensures c == Run(ONE_RETRY, Start(false), inputs)
    ensures c.pc == HumanEscalation && c.st.plan == ONE_PLAN && c.st.review == Some(FLAGGED)
    ensures c.st.completed.Keys == {A} && RetriesOf(c.st.retryCounts, A) == 0
  {
    var c1, past := FirstRound(i);
    OneTaskVerdict(c1.st);
    assert Step(ONE_RETRY, c1, i) == Config(c1.st, Review);
    FlaggedReview(c1.st, i);
    RunTwoMore(Start(false), past, i);
    c, inputs := Config(ReviewNode(c1.st, FLAGGED), HumanEscalation), past + [i] + [i];
  }

  /** With a review that asked for a human, the same stuck specialist is presented as the approval
      of a sensitive deliverable. */
  lemma FailedRedoLooksSensitive() returns (inputs: seq<Input>)
    ensures var c := Run(ONE_RETRY, Start(false), inputs);
            && c.pc == HumanEscalation && IsStuck(ONE_RETRY, c.st, A)
            && EscalationSource(ONE_RETRY, c.st) == ReviewSensitive
            && RaiseEscalation(ONE_RETRY, c.st) == Escalation(ApproveAction, {})
  {
    var good := Answering(true, Modify).(review := FLAGGED);
    var c1, past := FlaggedReachesHuman(good);
    var c2, more := ModifyAfter(c1, past, FLAGGED, good);
    var c3;
    c3, inputs := FailedRound(c2, more, Answering(false, Modify));
  }

  lemma ModifyAfter(c: Config, past: seq<Input>, r: ReviewResult, i: Input) returns (d: Config, inputs: seq<Input>)
    requires c == Run(ONE_RETRY, Start(false), past)
    requires c.pc == HumanEscalation && c.st.review == Some(r) && r.redo == [A] && i.decision.action.Modify?
    requires c.st.completed.Keys == {A}
    ensures d == Run(ONE_RETRY, Start(false), inputs)
    ensures d.pc == RouteBatch && d.st.plan == c.st.plan && d.st.completed == map[]
    ensures d.st.review == c.st.review && d.st.retryCounts == c.st.retryCounts
  {
    d := ModifySendsBack(c, r, i);
    RunTwoMore(Start(false), past, i);
    RunSnoc(ONE_RETRY, Start(false), past + [i] + [i], i);
    inputs := past + [i] + [i] + [i];
  }

  /** The counter passes the retry limit of one: a redo is dispatched whatever the counter says. */
  lemma CounterExceedsTheLimit() returns (inputs: seq<Input>)
    ensures var c := Run(ONE_RETRY, Start(false), inputs);
            RetriesOf(c.st.retryCounts, A) == 2 && ONE_RETRY.maxRetries == 1
  {
    var i := Answering(false, Modify);
    var c1, past := FailedRedoReachesHuman(Modify);
    var c2, more := ModifyAfter(c1, past, ASK_REDO, i);
    var c3;
    c3, inputs := FailedRound(c2, more, i);
  }

  /** Synthesis with a failed subtask: the human approves what looks like an exhausted review. */
  lemma SynthesisOfAFailedSubtask() returns (inputs: seq<Input>)
    ensures var c := Run(ONE_RETRY, Start(false), inputs);
            c.pc == Synthesize && Failed(c.st.completed, A) && !AllSucceeded(c.st)
  {
    var c;
    c, inputs := FailedRedoReachesHuman(Approve);
    var i := Answering(true, Approve);
    RunSnoc(ONE_RETRY, Start(false), inputs, i);
    RunSnoc(ONE_RETRY, Start(false), inputs + [i], i);
    inputs := inputs + [i] + [i];
  }

  /** Lost guidance: the human's MODIFY text never reaches the subtask it is meant for. */
  lemma GuidanceIsOverwritten() returns (inputs: seq<Input>)
    ensures var c := Run(ONE_RETRY, Start(false), inputs);
            && c.pc == RouteBatch
            && c.st.decision == Some(HumanDecision(Modify, Some("guidance"), None))
            && A in c.st.feedback && c.st.feedback[A] == "redo"
  {
    var c;
    c, inputs := FailedRedoReachesHuman(Modify);
    var i := Answering(true, Modify);
    RunSnoc(ONE_RETRY, Start(false), inputs, i);
    RunSnoc(ONE_RETRY, Start(false), inputs + [i], i);
    RunSnoc(ONE_RETRY, Start(false), inputs + [i] + [i], i);
    inputs := inputs + [i] + [i] + [i];
    var decided := ModifyIsPending(c, i);
    Redo.ModifySendsBack(ONE_RETRY, decided, i);
    FeedbackSendsBack(ONE_RETRY, Step(ONE_RETRY, decided, i), i);
    assert A in ASK_REDO.redo;
  }

  // ---------------------------------------------------------------- a dangling dependency

  const DANGLER: SubTask := SubTask(B, Writing, ["c"], false)
  const DANGLING: Plan := Plan([ONE_TASK, DANGLER], 1.0)

  lemma DanglingLookups()
    ensures ById(DANGLING.subtasks) == map[A := ONE_TASK, B := DANGLER]
    ensures OrderedIds(DANGLING.subtasks) == [A, B]
    ensures FirstMatch(DANGLING.subtasks, A) == Some(ONE_TASK)
  {
    var sts := DANGLING.subtasks;
    var one := [ONE_TASK];
    assert sts[..1] == one && one[..0] == [];
    assert ById(one) == map[A := ONE_TASK];
    assert OrderedIds(one) == [A];
    assert FirstMatch(one, A) == Some(ONE_TASK);
  }

  lemma DanglingVerdict(st: State)
    requires st.plan == DANGLING && st.completed.Keys <= {A}
    ensures st.completed == map[] ==> DecideNextBatch(ONE_RETRY, st) == Batch([A])
    ensures Succeeded(st.completed, A) ==> DecideNextBatch(ONE_RETRY, st) == Escalate
  {
    DanglingLookups();
    assert [A, B][..1] == [A] && [A][..0] == [];
    assert ReadyAmong(ONE_RETRY, st, []) == [];
    assert "c" in DANGLER.dependsOn && "c" !in st.completed && !IsReady(ONE_RETRY, st, B);
    assert ReadyAmong(ONE_RETRY, st, [A]) == if IsReady(ONE_RETRY, st, A) then [A] else [];
    assert ReadyAmong(ONE_RETRY, st, [A, B]) == ReadyAmong(ONE_RETRY, st, [A]);
    if Succeeded(st.completed, A) {
      assert st.completed.Keys == {A} && Subtasks(st).Keys == {A, B};
      assert |st.completed| == |st.completed.Keys| && |Subtasks(st)| == |Subtasks(st).Keys|;
    }
  }

  lemma DanglingPlanned(i: Input) returns (c: Config)
    requires i.plan == DANGLING
    ensures c == Step(ONE_RETRY, Step(ONE_RETRY, Start(false), i), i)
    ensures c.pc == RouteBatch && c.st.plan == DANGLING && Clean(c.st)
  {
    assert forall t :: t in DANGLING.subtasks ==> t == ONE_TASK || t == DANGLER;
    c := Step(ONE_RETRY, Step(ONE_RETRY, Start(false), i), i);
  }

  lemma DanglingRound(c: Config, i: Input) returns (d: Config)
    requires c.pc == RouteBatch && c.st.plan == DANGLING && Clean(c.st)
    requires i.answers == map[A := Outcome(true, "text")]
    ensures d == Step(ONE_RETRY, Step(ONE_RETRY, Step(ONE_RETRY, c, i), i), i)
    ensures d.pc == HumanEscalation && d.st.review.None?
    ensures d.st.completed == map[A := SubtaskResult(A, Research, true, "text")]
  {
    DanglingVerdict(c.st);
    DanglingLookups();
    OneBranch(c.st, true, i.answers);
    var c1 := Step(ONE_RETRY, c, i);
    assert c1 == Config(c.st, RunSpecialists([A]));
    var c2 := Step(ONE_RETRY, c1, i);
    DanglingVerdict(c2.st);
    d := Step(ONE_RETRY, c2, i);
  }

  lemma SuccessShowsNothingStuck(st: State)
    requires st.review.None? && st.completed == map[A := SubtaskResult(A, Research, true, "text")]
    ensures EscalationSource(ONE_RETRY, st) == SpecialistRetry && NoFailureOutside(st, {})
    ensures RaiseEscalation(ONE_RETRY, st).stuckIds == {}
  {
    assert A in st.completed;
    assert StuckIds(ONE_RETRY, st) == {};
  }

  /** Nothing failed, and the human is told that a specialist ran out of retries: the rest of the
      plan depends on a subtask that does not exist. */
  lemma DanglingPlanBlamesASpecialist() returns (inputs: seq<Input>)
    ensures var c := Run(ONE_RETRY, Start(false), inputs);
            && c.pc == HumanEscalation && EscalationSource(ONE_RETRY, c.st) == SpecialistRetry
            && RaiseEscalation(ONE_RETRY, c.st).stuckIds == {} && NoFailureOutside(c.st, {})
  {
    var i := Answering(true, Approve).(plan := DANGLING);
    var c := DanglingPlanned(i);
    var d := DanglingRound(c, i);
    inputs := [] + [i] + [i];
    RunTwoMore(Start(false), [], i);
    RunTwoMore(Start(false), inputs, i);
    RunSnoc(ONE_RETRY, Start(false), inputs + [i] + [i], i);
    inputs := inputs + [i] + [i] + [i];
    SuccessShowsNothingStuck(d.st);
  }

  // ---------------------------------------------------------------- duplicate ids

  const EARLY: SubTask := SubTask(B, Writing, [A], false)
  const LATE: SubTask := SubTask(B, Writing, [], false)
  const DUPLICATED: Plan := Plan([EARLY, ONE_TASK, LATE], 1.0)

  lemma DuplicatedLookups()
    ensures ById(DUPLICATED.subtasks) == map[B := LATE, A := ONE_TASK]
    ensures OrderedIds(DUPLICATED.subtasks) == [B, A]
    ensures FirstMatch(DUPLICATED.subtasks, B) == Some(EARLY)
    ensures FirstMatch(DUPLICATED.subtasks, A) == Some(ONE_TASK)
  {
    var sts := DUPLICATED.subtasks;
    var two := [EARLY, ONE_TASK];
    var one := [EARLY];
    assert sts[..2] == two && two[..1] == one && one[..0] == [];
    assert ById(one) == map[B := EARLY];
    assert ById(two) == map[B := EARLY, A := ONE_TASK];
    assert OrderedIds(one) == [B];
    assert OrderedIds(two) == [B, A];
    assert FirstMatch(one, B) == Some(EARLY) && FirstMatch(one, A) == None;
    assert FirstMatch(two, A) == Some(ONE_TASK);
  }

  lemma DuplicatedVerdict(L: Limits, st: State)
    requires st.plan == DUPLICATED && st.completed == map[]
    ensures DecideNextBatch(L, st) == Batch([B, A])
  {
    DuplicatedLookups();
    assert [B, A][..1] == [B] && [B][..0] == [];
    assert ReadyAmong(L, st, []) == [];
    assert ReadyAmong(L, st, [B]) == [B];
    assert ReadyAmong(L, st, [B, A]) == [B, A];
    assert !SomeStuck(L, st);
  }

  /** With a duplicated id the scheduler trusts the later subtask's dependencies but executes the
      earlier one: a reachable batch then depends on itself and is not serializable. */
  lemma DuplicateIdsMakeDependentBatch() returns (inputs: seq<Input>)
    ensures var c := Run(ONE_RETRY, Start(false), inputs);
            && c.pc == RunSpecialists([B, A]) && AllFound(c.st.plan, c.pc.batch)
            && !Serial.Independent(c.st, c.pc.batch)
  {
    var i := Answering(true, Approve).(plan := DUPLICATED);
    inputs := [i, i, i];
    var c1, c2 := DuplicatedStart(i);
    DuplicatedVerdict(ONE_RETRY, c2.st);
    DuplicatedLookups();
    var c := Config(c2.st, RunSpecialists([B, A]));
    ThreeSteps(ONE_RETRY, Start(false), c1, c2, c, i, i, i);
    assert Serial.Executed(c.st, B) == EARLY;
    assert A in EARLY.dependsOn && B in c.pc.batch && A in c.pc.batch;
  }

  lemma DuplicatedStart(i: Input) returns (c1: Config, c2: Config)
    requires i.plan == DUPLICATED
    ensures c1 == Step(ONE_RETRY, Start(false), i) && c2 == Step(ONE_RETRY, c1, i)
    ensures c2.pc == RouteBatch && c2.st.plan == DUPLICATED && c2.st.completed == map[]
  {
    assert forall t :: t in DUPLICATED.subtasks ==> !t.sensitive;
    c1 := Step(ONE_RETRY, Start(false), i);
    c2 := Step(ONE_RETRY, c1, i);
  }
}
