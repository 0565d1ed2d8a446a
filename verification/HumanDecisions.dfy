/** What a human's answer to an escalation does, and what the escalation told the human. */
module HumanDecisions {
  import opened Schemas
  import opened Graph
  import opened GraphInvariant
  import opened Plans
  import opened Progress
  import opened Traces
  import Accounting
  import Gate

  /** The level the human sees is true of the run: APPROVE_PLAN exactly when nothing was executed and
      nothing reviewed, APPROVE_ACTION exactly when the last review asked for a human, TAKE_OVER in
      every other case. */
  lemma LevelTellsWhatHappened(L: Limits, requireApproval: bool, inputs: seq<Input>)
    requires Run(L, Start(requireApproval), inputs).pc.HumanEscalation?
    ensures var st := Run(L, Start(requireApproval), inputs).st;
            var last := LastReview(st.trace);
            match RaiseEscalation(L, st).level
            case ApprovePlan => Ran(st.trace) == {} && last.None?
            case ApproveAction => last.Some? && last.value.requiresHuman
            case TakeOverLevel => (last.None? && Ran(st.trace) != {}) || (last.Some? && !last.value.requiresHuman)
            case Notify => false
  {
    RunKeepsInv(L, requireApproval, inputs);
    Gate.ReplanningStartsClean(L, requireApproval, inputs);
    var st := Run(L, Start(requireApproval), inputs).st;
    if id :| id in st.completed {
      assert id in st.retryCounts.Keys;
    }
  }

  /** There is work, but each subtask waits for another one. */
  ghost predicate NothingCanStart(plan: Plan) {
    && plan.subtasks != []
    && forall id :: id in ById(plan.subtasks) ==> ById(plan.subtasks)[id].dependsOn != []
  }

  lemma ReadyAtFirst(L: Limits, st: State, id: Id)
    requires st.completed == map[] && id in Subtasks(st)
    ensures IsReady(L, st, id) <==> Subtasks(st)[id].dependsOn == []
  {
    var deps := Subtasks(st)[id].dependsOn;
    if deps != [] { assert deps[0] in deps; }
  }

  lemma NonEmptyPlan(plan: Plan)
    ensures plan.subtasks != [] <==> |ById(plan.subtasks)| > 0
  {
    if plan.subtasks != [] {
      var last := plan.subtasks[|plan.subtasks|-1];
      assert last.id in ById(plan.subtasks).Keys;
    }
  }

  /** Before any result, the scheduler escalates exactly on a plan nothing of which can start. */
  lemma FirstVerdict(L: Limits, st: State)
    requires st.completed == map[]
    ensures DecideNextBatch(L, st).Escalate? <==> NothingCanStart(st.plan)
  {
    var ids := OrderedIds(st.plan.subtasks);
    ReadyAmongSelects(L, st, ids);
    IdsAreKeys(st.plan.subtasks);
    NonEmptyPlan(st.plan);
    assert !SomeStuck(L, st);
    forall id | id in Subtasks(st) ensures IsReady(L, st, id) <==> Subtasks(st)[id].dependsOn == [] {
      ReadyAtFirst(L, st, id);
    }
    if ReadyAmong(L, st, ids) != [] {
      assert ReadyAmong(L, st, ids)[0] in ReadyAmong(L, st, ids);
    }
  }

  /** Whenever a reviewed result can still reach a human, its last review rejected it or asked for
      one. */
  ghost predicate VerdictInv(c: Config) {
    c.pc.RouteBatch? || c.pc.RunSpecialists? || c.pc.Review? || c.pc.ApplyReviewFeedback? || c.pc.HumanEscalation?
    || c.pc.ApplyHumanDecision? ==>
      c.st.review.Some? ==> c.st.review.value.requiresHuman || !c.st.review.value.approved
  }

  lemma StepKeepsVerdict(L: Limits, c: Config, i: Input)
    requires Inv(L, c) && VerdictInv(c)
    ensures VerdictInv(Step(L, c, i))
  {
    match c.pc
    case RunSpecialists(_) => BatchStepIs(L, c, i);
    case ApplyHumanDecision =>
      DecisionIsApplicable(L, c.st);
      assert Step(L, c, i).st.review == c.st.review;
    case _ =>
  }

  lemma {:induction false} RunKeepsVerdict(L: Limits, requireApproval: bool, inputs: seq<Input>)
    ensures VerdictInv(Run(L, Start(requireApproval), inputs))
  {
    if inputs != [] {
      var front := inputs[..|inputs|-1];
      RunKeepsVerdict(L, requireApproval, front);
      RunKeepsInv(L, requireApproval, front);
      StepKeepsVerdict(L, Run(L, Start(requireApproval), front), inputs[|inputs|-1]);
    }
  }

  /** The reason an escalation gives, in terms of what the log says happened. */
  ghost predicate ReasonIsTrue(L: Limits, st: State) {
    var last := LastReview(st.trace);
    match EscalationSource(L, st)
    case PlanLowConfidence => st.plan.confidence < L.planThreshold
    case PlanSensitive => exists t :: t in st.plan.subtasks && t.sensitive
    case PlanRequested => st.requireApproval
    case ReviewSensitive => last.Some? && last.value.requiresHuman
    case ReviewExhausted => last.Some? && !last.value.approved && st.reviewCycles == Count(st.trace, IsReview)
    case SpecialistRetry => SomeStuck(L, st)
    case ReviewLowScoreNotify => false
  }

  /** Nothing was reviewed, the plan is not still waiting for its approval, and every subtask that can
      ever be done has been. */
  ghost predicate NothingLeftToDo(L: Limits, st: State) {
    && st.review.None?
    && (st.completed == map[] ==> !Gated(L, st.plan, st.requireApproval))
    && forall id :: id in Subtasks(st) && Completable(st.plan, id) ==> Succeeded(st.completed, id)
  }

  lemma {:induction false} NoFirstStage(plan: Plan, n: nat)
    requires NothingCanStart(plan)
    ensures Stage(plan, n) == {}
  {
    if n > 0 {
      NoFirstStage(plan, n - 1);
      forall id | id in ById(plan.subtasks) ensures id !in Stage(plan, n) {
        var first := ById(plan.subtasks)[id].dependsOn[0];
        assert first in ById(plan.subtasks)[id].dependsOn && first !in Stage(plan, n - 1);
      }
    }
  }

  lemma NothingCompletable(plan: Plan, id: Id)
    requires NothingCanStart(plan)
    ensures !Completable(plan, id)
  {
    forall n: nat ensures id !in Stage(plan, n) {
      NoFirstStage(plan, n);
    }
  }

  lemma FirstReason(L: Limits, st: State)
    requires DecideNextBatch(L, st).Escalate? && st.review.None? && st.completed == map[]
    ensures ReasonIsTrue(L, st) <==> !NothingLeftToDo(L, st)
  {
    FirstVerdict(L, st);
    forall id ensures !Completable(st.plan, id) {
      NothingCompletable(st.plan, id);
    }
  }

  lemma LaterReason(L: Limits, st: State)
    requires PlanInv(st) && DecideNextBatch(L, st).Escalate? && st.review.None? && st.completed != map[]
    ensures ReasonIsTrue(L, st) <==> !NothingLeftToDo(L, st)
  {
    if SomeStuck(L, st) {
      var id :| id in Subtasks(st) && IsStuck(L, st, id);
      assert id in st.completed.Keys && id in st.retryCounts.Keys;
      assert Completable(st.plan, id) && !Succeeded(st.completed, id);
    } else {
      VerdictWithoutStuck(L, st);
      forall id | id in Subtasks(st) && Completable(st.plan, id) ensures Succeeded(st.completed, id) {
        assert !Unfinished(st, id);
      }
    }
  }

  lemma PlanReason(L: Limits, st: State)
    requires st.completed == map[] && st.review.None? && Gated(L, st.plan, st.requireApproval)
    ensures ReasonIsTrue(L, st) && !NothingLeftToDo(L, st)
  {
  }

  /** A reason that speaks of the plan or the scheduler, from the step that raised it. */
  lemma RaisedReason(L: Limits, prev: Config, i: Input)
    requires Inv(L, prev) && Step(L, prev, i).pc.HumanEscalation? && Step(L, prev, i).st.review.None?
    ensures var st := Step(L, prev, i).st;
            ReasonIsTrue(L, st) <==> !NothingLeftToDo(L, st)
  {
    BeforeEscalation(L, prev, i);
    if prev.pc.PlanTask? {
      PlanReason(L, Step(L, prev, i).st);
    } else if prev.st.completed == map[] {
      FirstReason(L, prev.st);
    } else {
      LaterReason(L, prev.st);
    }
  }

  /** The reason shown to the human is true of the run, except exactly when nothing is left to do that
      ever could be: then it blames a specialist that is out of retries, or the caller for asking. */
  lemma ReasonsAreTrueUnlessNothingIsLeft(L: Limits, requireApproval: bool, inputs: seq<Input>)
    ensures var c := Run(L, Start(requireApproval), inputs);
            c.pc.HumanEscalation? ==> (ReasonIsTrue(L, c.st) <==> !NothingLeftToDo(L, c.st))
  {
    var c := Run(L, Start(requireApproval), inputs);
    if c.pc.HumanEscalation? {
      if c.st.review.None? {
        var front := inputs[..|inputs|-1];
        RunKeepsInv(L, requireApproval, front);
        RaisedReason(L, Run(L, Start(requireApproval), front), inputs[|inputs|-1]);
      } else {
        Gate.ReplanningStartsClean(L, requireApproval, inputs);
        RunKeepsVerdict(L, requireApproval, inputs);
        Accounting.RunKeepsBounds(L, requireApproval, inputs);
      }
    }
  }

  /** How a stuck specialist is presented: as one exactly when nothing was reviewed yet, as a sensitive
      deliverable exactly when the last review asked for a human, else as an exhausted review. */
  lemma StuckSpecialistIsPresentedAs(L: Limits, requireApproval: bool, inputs: seq<Input>)
    ensures var c := Run(L, Start(requireApproval), inputs);
            var last := LastReview(c.st.trace);
            c.pc.RouteBatch? && SomeStuck(L, c.st) ==>
              && (EscalationSource(L, c.st) == SpecialistRetry <==> last.None?)
              && (EscalationSource(L, c.st) == ReviewSensitive <==> last.Some? && last.value.requiresHuman)
              && (EscalationSource(L, c.st) == ReviewExhausted <==> last.Some? && !last.value.requiresHuman)
              && (RaiseEscalation(L, c.st).level == ApproveAction <==> last.Some? && last.value.requiresHuman)
              && (RaiseEscalation(L, c.st).level == TakeOverLevel
                  <==> last.None? || !last.value.requiresHuman)
  {
    Gate.ReplanningStartsClean(L, requireApproval, inputs);
  }

  lemma BeforeEscalation(L: Limits, prev: Config, i: Input)
    requires Step(L, prev, i).pc.HumanEscalation? && Step(L, prev, i).st.review.None?
    ensures var c := Step(L, prev, i);
            || (prev.pc.PlanTask? && Gated(L, c.st.plan, c.st.requireApproval))
            || (prev.pc.RouteBatch? && c.st == prev.st && DecideNextBatch(L, c.st).Escalate?)
  {
  }

  /** And that does happen, for every such plan that needs no approval. */
  lemma UnstartablePlanClaimsARequest(L: Limits, i: Input)
    requires !Gated(L, i.plan, false) && NothingCanStart(i.plan)
    ensures var c := Run(L, Start(false), [i, i, i]);
            c.pc.HumanEscalation? && EscalationSource(L, c.st).PlanRequested? && !c.st.requireApproval
  {
    var c1, c2 := UngatedStart(L, i);
    FirstVerdict(L, c2.st);
    ThreeSteps(L, Start(false), c1, c2, Config(c2.st, HumanEscalation), i, i, i);
  }

  lemma UngatedStart(L: Limits, i: Input) returns (c1: Config, c2: Config)
    requires !Gated(L, i.plan, false)
    ensures c1 == Step(L, Start(false), i) && c2 == Step(L, c1, i)
    ensures c2.pc.RouteBatch? && Clean(c2.st) && c2.st.plan == i.plan && !c2.st.requireApproval
  {
    c1 := Step(L, Start(false), i);
    c2 := Step(L, c1, i);
  }

  lemma RestartUpdate(L: Limits, st: State)
    requires DecisionApplies(st) && st.source.value.SpecialistRetry?
    requires st.decision.value.action.Approve? || st.decision.value.action.Modify?
    ensures var n := DecisionNode(st);
            var stuck := st.escalation.value.stuckIds;
            && n.plan == st.plan
            && (forall id :: id in n.completed <==> id in st.completed && id !in stuck)
            && (forall id :: id in n.completed ==> n.completed[id] == st.completed[id])
            && (forall id :: id in stuck ==> RetriesOf(n.retryCounts, id) == 0)
            && (forall id :: id !in stuck ==> RetriesOf(n.retryCounts, id) == RetriesOf(st.retryCounts, id))
            && (st.decision.value.action.Modify? ==> forall id :: id in stuck ==>
                  id in n.feedback && n.feedback[id] == OrEmpty(st.decision.value.feedback))
  {
  }

  lemma StuckDependenciesDone(L: Limits, st: State, id: Id)
    requires PlanInv(st) && id in StuckIds(L, st)
    ensures id in Subtasks(st) && DepsDone(st.completed, Subtasks(st)[id])
  {
    assert Failed(st.completed, id);
  }

  lemma RestartedIsReady(L: Limits, st: State, n: State, id: Id)
    requires PlanInv(st) && id in StuckIds(L, st)
    requires n.plan == st.plan
    requires forall x :: x in n.completed <==> x in st.completed && x !in StuckIds(L, st)
    requires forall x :: x in n.completed ==> n.completed[x] == st.completed[x]
    ensures IsReady(L, n, id)
  {
    StuckDependenciesDone(L, st, id);
    forall d | d in Subtasks(st)[id].dependsOn ensures Succeeded(n.completed, d) {
      assert Succeeded(st.completed, d);
    }
  }

  lemma NothingElseStuck(L: Limits, st: State, n: State)
    requires PlanInv(st)
    requires forall x :: x in n.completed <==> x in st.completed && x !in StuckIds(L, st)
    requires forall x :: x in n.completed ==> n.completed[x] == st.completed[x]
    requires forall x :: x !in StuckIds(L, st) ==> RetriesOf(n.retryCounts, x) == RetriesOf(st.retryCounts, x)
    ensures !SomeStuck(L, n)
  {
    forall x ensures !IsStuck(L, n, x) {
      if Failed(n.completed, x) {
        assert x in st.completed.Keys;
        assert x in st.retryCounts;
      }
    }
  }

  /** APPROVE or MODIFY of a stuck specialist restarts it: with fresh counters, and the guidance if
      any, every stuck subtask is in the very next batch. */
  lemma RestartDispatchesStuck(L: Limits, requireApproval: bool, inputs: seq<Input>, i: Input)
    requires Run(L, Start(requireApproval), inputs).pc.ApplyHumanDecision?
    requires var st := Run(L, Start(requireApproval), inputs).st;
             && st.source == Some(SpecialistRetry) && st.decision.Some? && st.escalation.Some?
             && (st.decision.value.action.Approve? || st.decision.value.action.Modify?)
             && st.escalation.value.stuckIds != {}
    ensures var st := Run(L, Start(requireApproval), inputs).st;
            var n := Step(L, Run(L, Start(requireApproval), inputs), i);
            && n.pc.RouteBatch? && DecideNextBatch(L, n.st).Batch?
            && (forall id :: id in st.escalation.value.stuckIds ==>
                  id in DecideNextBatch(L, n.st).ids && RetriesOf(n.st.retryCounts, id) == 0)
            && (st.decision.value.action.Modify? ==> forall id :: id in st.escalation.value.stuckIds ==>
                  id in n.st.feedback && n.st.feedback[id] == OrEmpty(st.decision.value.feedback))
  {
    RunKeepsInv(L, requireApproval, inputs);
    var st := Run(L, Start(requireApproval), inputs).st;
    DecisionIsApplicable(L, st);
    RestartUpdate(L, st);
    var n := DecisionNode(st);
    NothingElseStuck(L, st, n);
    var some :| some in StuckIds(L, st);
    RestartedIsReady(L, st, n, some);
    ReadyMeansNonEmpty(L, n, some);
    BatchIsValid(L, n);
    forall id | id in StuckIds(L, st) ensures id in DecideNextBatch(L, n).ids {
      RestartedIsReady(L, st, n, id);
    }
  }

  /** TAKE_OVER of stuck subtasks: each is done with the human's output, nothing else changes, and
      the run goes on. */
  lemma TakeOverFinishesSubtasks(L: Limits, requireApproval: bool, inputs: seq<Input>, i: Input)
    requires Run(L, Start(requireApproval), inputs).pc.ApplyHumanDecision?
    requires var st := Run(L, Start(requireApproval), inputs).st;
             && st.source == Some(SpecialistRetry) && st.decision.Some? && st.decision.value.action.TakeOver?
             && st.escalation.Some?
    ensures var st := Run(L, Start(requireApproval), inputs).st;
            var n := Step(L, Run(L, Start(requireApproval), inputs), i);
            && n.pc.RouteBatch? && n.st.finalOutput == st.finalOutput && n.st.retryCounts == st.retryCounts
            && n.st.completed.Keys == st.completed.Keys
            && (forall id :: id in st.completed && id !in st.escalation.value.stuckIds ==>
                  n.st.completed[id] == st.completed[id])
            && (forall id :: id in st.escalation.value.stuckIds ==>
                  Succeeded(n.st.completed, id) && n.st.completed[id].output == OrEmpty(st.decision.value.output))
  {
    RunKeepsInv(L, requireApproval, inputs);
    var st := Run(L, Start(requireApproval), inputs).st;
    DecisionIsApplicable(L, st);
    assert DecisionUpdate(st).completed.Keys == st.completed.Keys;
  }

  /** TAKE_OVER of anything else ends the task with exactly the human's output, without synthesis. */
  lemma TakeOverDelivers(L: Limits, requireApproval: bool, inputs: seq<Input>, i: Input, j: Input)
    requires Run(L, Start(requireApproval), inputs).pc.ApplyHumanDecision?
    requires var st := Run(L, Start(requireApproval), inputs).st;
             && st.source.Some? && !st.source.value.SpecialistRetry?
             && st.decision.Some? && st.decision.value.action.TakeOver?
    ensures var st := Run(L, Start(requireApproval), inputs).st;
            var n := Step(L, Step(L, Run(L, Start(requireApproval), inputs), i), j);
            && n.pc.End? && n.st.status == Completed
            && n.st.finalOutput == OrEmpty(st.decision.value.output)
            && n.st.completed == st.completed
  {
    RunKeepsInv(L, requireApproval, inputs);
    DecisionIsApplicable(L, Run(L, Start(requireApproval), inputs).st);
  }
}
