/** What the scheduler's verdict means: when it dispatches, when it asks for review,
    when it escalates, and which plans can never be finished. */
module Progress {
  import opened Schemas
  import opened Reducers
  import opened Graph
  import opened Plans
  import opened GraphInvariant

  ghost predicate Unfinished(st: State, id: Id) {
    id in Subtasks(st) && Completable(st.plan, id) && !Succeeded(st.completed, id)
  }

  /** Descend from a completable unfinished subtask to one whose dependencies are all done. */
  lemma {:induction false} FindReady(L: Limits, st: State, id: Id, n: nat) returns (ready: Id)
    requires !SomeStuck(L, st)
    requires id in Stage(st.plan, n) && !Succeeded(st.completed, id)
    ensures IsReady(L, st, ready)
    decreases n
  {
    if d :| d in Subtasks(st)[id].dependsOn && !Succeeded(st.completed, d) {
      ready := FindReady(L, st, d, n - 1);
    } else {
      ready := id;
    }
  }

  /** The verdict with nothing stuck, in terms of the plan alone: dispatch while some completable
      subtask is unfinished, review once all subtasks are done, escalate otherwise. */
  lemma VerdictWithoutStuck(L: Limits, st: State)
    requires PlanInv(st) && !SomeStuck(L, st)
    ensures DecideNextBatch(L, st).Batch? <==> exists id :: Unfinished(st, id)
    ensures DecideNextBatch(L, st).ToReview? <==> AllSucceeded(st)
  {
    if id :| Unfinished(st, id) {
      var n: nat :| id in Stage(st.plan, n);
      var ready := FindReady(L, st, id, n);
      ReadyMeansNonEmpty(L, st, ready);
    }
    if DecideNextBatch(L, st).Batch? {
      BatchIsValid(L, st);
      var id := DecideNextBatch(L, st).ids[0];
      assert IsReady(L, st, id);
      ReadyIsCompletable(L, st, id);
      assert Unfinished(st, id);
    }
    if DecideNextBatch(L, st).ToReview? {
      ReviewOnlyWhenAllSucceeded(L, st);
    }
    if AllSucceeded(st) {
      assert st.completed.Keys == Subtasks(st).Keys;
      assert |st.completed.Keys| == |Subtasks(st).Keys|;
    }
  }

  /** The verdict of every reachable scheduling decision. */
  lemma SchedulerVerdict(L: Limits, requireApproval: bool, inputs: seq<Input>)
    requires Run(L, Start(requireApproval), inputs).pc.RouteBatch?
    ensures var st := Run(L, Start(requireApproval), inputs).st;
            var stuck := SomeStuck(L, st);
            var unfinished := exists id :: Unfinished(st, id);
            match DecideNextBatch(L, st)
            case Escalate => stuck || (!unfinished && !AllSucceeded(st))
            case Batch(ids) => !stuck && unfinished && (forall id :: id in ids <==> IsReady(L, st, id))
            case ToReview => !stuck && !unfinished && AllSucceeded(st)
  {
    RunKeepsInv(L, requireApproval, inputs);
    var st := Run(L, Start(requireApproval), inputs).st;
    if !SomeStuck(L, st) {
      VerdictWithoutStuck(L, st);
      if DecideNextBatch(L, st).Batch? { BatchIsValid(L, st); }
    }
  }

  /** A review, whenever it is entered, sees exactly the plan's subtasks, all of them successful. */
  lemma ReviewSeesEverySubtask(L: Limits, requireApproval: bool, inputs: seq<Input>)
    requires Run(L, Start(requireApproval), inputs).pc.Review?
    ensures var st := Run(L, Start(requireApproval), inputs).st;
            && st.completed.Keys == Subtasks(st).Keys
            && forall id :: id in st.completed ==> st.completed[id].success
  {
    RunKeepsInv(L, requireApproval, inputs);
    var st := Run(L, Start(requireApproval), inputs).st;
    forall id | id in Subtasks(st) ensures id in st.completed { assert Succeeded(st.completed, id); }
  }

  /** On a plan with closed, acyclic dependencies the scheduler escalates exactly when
      some subtask is stuck: it never runs out of work early. */
  lemma AcyclicEscalatesOnlyWhenStuck(L: Limits, requireApproval: bool, inputs: seq<Input>)
    requires Run(L, Start(requireApproval), inputs).pc.RouteBatch?
    requires Acyclic(Run(L, Start(requireApproval), inputs).st.plan)
    ensures var st := Run(L, Start(requireApproval), inputs).st;
            && (DecideNextBatch(L, st).Escalate? <==> SomeStuck(L, st))
            && (!AllSucceeded(st) && !SomeStuck(L, st) ==> DecideNextBatch(L, st).Batch?)
  {
    var st := Run(L, Start(requireApproval), inputs).st;
    RunKeepsInv(L, requireApproval, inputs);
    AcyclicIffAllCompletable(st.plan);
    if !SomeStuck(L, st) {
      VerdictWithoutStuck(L, st);
      if !AllSucceeded(st) {
        var id :| id in Subtasks(st) && !Succeeded(st.completed, id);
        assert Unfinished(st, id);
      }
    }
  }

  lemma StuckIdsAreTheStuckOnes(L: Limits, st: State)
    requires PlanInv(st)
    ensures StuckIds(L, st) == set id | id in Subtasks(st) && IsStuck(L, st, id)
    ensures StuckIds(L, st) == {} <==> !SomeStuck(L, st)
  {
    assert forall id :: id in StuckIds(L, st) <==> id in Subtasks(st) && IsStuck(L, st, id);
  }

  /** However the human answers, a subtask with a cyclic or dangling dependency never succeeds,
      and its plan is never reviewed nor synthesized. */
  lemma IncompletablePlansStall(L: Limits, requireApproval: bool, inputs: seq<Input>, id: Id)
    requires id in Subtasks(Run(L, Start(requireApproval), inputs).st)
    requires !Completable(Run(L, Start(requireApproval), inputs).st.plan, id)
    ensures var c := Run(L, Start(requireApproval), inputs);
            && !Succeeded(c.st.completed, id) && id !in c.st.retryCounts
            && !c.pc.Review? && !c.pc.NotifyHuman? && !c.pc.Synthesize? && c.st.review.None?
  {
    RunKeepsInv(L, requireApproval, inputs);
    var c := Run(L, Start(requireApproval), inputs);
    assert id !in c.st.retryCounts && !Succeeded(c.st.completed, id);
  }

  ghost predicate SameWork(s: State, t: State) {
    && s.plan == t.plan && s.completed == t.completed && s.retryCounts == t.retryCounts
    && s.feedback == t.feedback && s.review == t.review
  }

  /** The answers that change nothing on an escalation without stuck ids: APPROVE, and once there are
      results any answer but REJECT. */
  predicate Futile(st: State, d: HumanDecision) {
    d.action.Approve? || (!d.action.Reject? && st.completed != map[])
  }

  /** Without stuck ids, a decision on an unreviewed plan leads back to the scheduler with the very
      same work exactly when it is futile. */
  lemma EmptyDecisionChangesNothing(L: Limits, st: State, d: HumanDecision)
    requires st.review.None? && StuckIds(L, st) == {}
    ensures var s := EscalationNode(L, st, d);
            && DecisionApplies(s) && s.decision == Some(d)
            && (RouteAfterDecision(d.action, s.source.value) == RouteBatch && SameWork(DecisionNode(s), st)
                <==> Futile(st, d))
  {
    var s := EscalationNode(L, st, d);
    assert s.escalation.value.stuckIds == {};
    if Futile(st, d) { FutileUpdate(s); }
  }

  lemma FutileUpdate(s: State)
    requires DecisionApplies(s) && s.escalation.value.stuckIds == {} && Futile(s, s.decision.value)
    requires IsPlanSource(s.source.value) <==> s.completed == map[]
    requires !IsReviewSource(s.source.value)
    ensures SameWork(DecisionUpdate(s), s)
  {
    MergeNothing(s.completed, Tombstones({}));
    MergeNothing(s.completed, HandResults(s, {}, OrEmpty(s.decision.value.output)));
    MergeNothing(s.retryCounts, Writes({}, 0));
    MergeNothing(s.feedback, Writes({}, OrEmpty(s.decision.value.feedback)));
  }

  lemma DecidedConfig(L: Limits, st: State, d1: Input, d2: Input) returns (c1: Config, c2: Config)
    requires st.review.None? && StuckIds(L, st) == {}
    ensures c1 == Step(L, Config(st, HumanEscalation), d1) && c2 == Step(L, c1, d2)
    ensures c2.pc == RouteBatch && SameWork(c2.st, st) <==> Futile(st, d1.decision)
  {
    EmptyDecisionChangesNothing(L, st, d1.decision);
    c1 := Config(EscalationNode(L, st, d1.decision), ApplyHumanDecision);
    c2 := Config(DecisionNode(c1.st), RouteAfterDecision(d1.decision.action, c1.st.source.value));
  }

  lemma EscalatesAgain(L: Limits, st: State, c: Config, i: Input)
    requires DecideNextBatch(L, st).Escalate? && c.pc == RouteBatch && SameWork(c.st, st)
    ensures Step(L, c, i) == Config(c.st, HumanEscalation)
  {
    SameVerdict(L, st, c.st);
  }

  /** An escalation that names no stuck subtask is answered in vain exactly by a futile decision: the
      scheduler has the same work again, and the step after that the same escalation is open. */
  lemma EmptyEscalationLoops(L: Limits, st: State, d1: Input, d2: Input, d3: Input)
    requires DecideNextBatch(L, st).Escalate? && st.review.None? && StuckIds(L, st) == {}
    ensures var c := Run(L, Config(st, HumanEscalation), [d1, d2]);
            c.pc == RouteBatch && SameWork(c.st, st) <==> Futile(st, d1.decision)
    ensures var c := Run(L, Config(st, HumanEscalation), [d1, d2, d3]);
            Futile(st, d1.decision) ==> c.pc == HumanEscalation && SameWork(c.st, st)
  {
    var c0 := Config(st, HumanEscalation);
    var c1, c2 := DecidedConfig(L, st, d1, d2);
    TwoSteps(L, c0, c1, c2, d1, d2);
    if Futile(st, d1.decision) {
      EscalatesAgain(L, st, c2, d3);
      ThreeSteps(L, c0, c1, c2, Config(c2.st, HumanEscalation), d1, d2, d3);
    }
  }

  /** The verdict reads only the plan, the results and the counters. */
  lemma {:induction false} SameReady(L: Limits, s: State, t: State, ids: seq<Id>)
    requires s.plan == t.plan && s.completed == t.completed && s.retryCounts == t.retryCounts
    ensures ReadyAmong(L, s, ids) == ReadyAmong(L, t, ids)
  {
    if ids != [] {
      SameReady(L, s, t, ids[..|ids|-1]);
    }
  }

  lemma SameVerdict(L: Limits, s: State, t: State)
    requires s.plan == t.plan && s.completed == t.completed && s.retryCounts == t.retryCounts
    ensures DecideNextBatch(L, s) == DecideNextBatch(L, t)
  {
    SameReady(L, s, t, OrderedIds(s.plan.subtasks));
    assert forall id :: IsStuck(L, s, id) <==> IsStuck(L, t, id);
  }
}
