/** What becomes of a plan that cannot be finished, once work on it has begun. */
module DeadEnds {
  import opened Schemas
  import opened Graph
  import opened Plans
  import opened GraphInvariant
  import Gate

  /** Some subtask of the plan was executed, and some subtask of it can never be. */
  ghost predicate BegunInVain(st: State) {
    st.retryCounts != map[] && exists id :: id in Subtasks(st) && !Completable(st.plan, id)
  }

  /** Scheduling, running and asking a human, or on the way to a rejection. */
  predicate Circling(c: Config) {
    || c.pc.RouteBatch? || c.pc.RunSpecialists? || c.pc.HumanEscalation? || c.pc.ApplyHumanDecision?
    || c.pc.RejectTask? || (c.pc.End? && c.st.status == Rejected)
  }

  ghost predicate DeadEndInv(c: Config) {
    BegunInVain(c.st) ==> Circling(c)
  }

  /** Work once begun stays begun, and its plan stays. */
  lemma BatchStaysBegun(L: Limits, c: Config, i: Input)
    requires Inv(L, c) && c.pc.RunSpecialists? && BegunInVain(c.st)
    ensures Step(L, c, i).st.plan == c.st.plan && BegunInVain(Step(L, c, i).st)
  {
    BatchStepIs(L, c, i);
    var id :| id in c.st.retryCounts;
    assert id in Step(L, c, i).st.retryCounts;
  }

  lemma DecisionStaysBegun(L: Limits, c: Config, i: Input)
    requires Inv(L, c) && c.pc.ApplyHumanDecision? && BegunInVain(c.st)
    ensures Step(L, c, i).st.plan == c.st.plan && BegunInVain(Step(L, c, i).st)
  {
    DecisionIsApplicable(L, c.st);
    Gate.DecisionKeepsKeys(c.st);
    DecisionStepEffect(L, c, i);
    assert Step(L, c, i).st.retryCounts.Keys == c.st.retryCounts.Keys;
    var id :| id in c.st.retryCounts.Keys;
    assert id in Step(L, c, i).st.retryCounts;
  }

  lemma SuccessIsNotInVain(st: State)
    requires PlanInv(st) || Clean(st)
    ensures AllSucceeded(st) ==> !BegunInVain(st)
  {
    if AllSucceeded(st) && PlanInv(st) {
      forall id | id in Subtasks(st) ensures Completable(st.plan, id) {
        assert Succeeded(st.completed, id);
      }
    }
  }

  /** Where the machine can be with such work at all: not where a review has succeeded or is due. */
  lemma NotReviewed(L: Limits, c: Config)
    requires Inv(L, c) && BegunInVain(c.st)
    ensures c.st.review.None? && !c.pc.Intake? && !c.pc.PlanTask? && !c.pc.Review?
  {
    SuccessIsNotInVain(c.st);
  }

  /** A human answers for a stuck specialist here, never for a plan or a review. */
  lemma DecisionCircles(L: Limits, c: Config, i: Input)
    requires Inv(L, c) && c.pc.ApplyHumanDecision? && BegunInVain(c.st)
    ensures Circling(Step(L, c, i))
  {
    NotReviewed(L, c);
    DecisionIsApplicable(L, c.st);
    DecisionStepEffect(L, c, i);
    assert c.st.source.value.SpecialistRetry?;
  }

  lemma ScheduleCircles(L: Limits, c: Config, i: Input)
    requires Inv(L, c) && c.pc.RouteBatch? && BegunInVain(c.st)
    ensures Circling(Step(L, c, i)) && Step(L, c, i).st == c.st
  {
    SuccessIsNotInVain(c.st);
    if DecideNextBatch(L, c.st).ToReview? { ReviewOnlyWhenAllSucceeded(L, c.st); }
  }

  /** One step of a machine that circles. */
  lemma CirclingStep(L: Limits, c: Config, i: Input)
    requires Inv(L, c) && BegunInVain(c.st) && Circling(c)
    ensures var n := Step(L, c, i);
            Circling(n) && BegunInVain(n.st) && n.st.plan == c.st.plan
  {
    if c.pc.RouteBatch? { ScheduleCircles(L, c, i); }
    else if c.pc.RunSpecialists? {
      BatchStaysBegun(L, c, i);
      BatchStepIs(L, c, i);
    } else if c.pc.ApplyHumanDecision? {
      DecisionCircles(L, c, i);
      DecisionStaysBegun(L, c, i);
    }
  }

  /** No other step begins such work, but a super-step. */
  lemma OnlyRunsBegin(L: Limits, c: Config, i: Input)
    requires Inv(L, c) && !c.pc.RunSpecialists? && BegunInVain(Step(L, c, i).st)
    ensures BegunInVain(c.st)
  {
    if c.pc.ApplyHumanDecision? {
      DecisionIsApplicable(L, c.st);
      Gate.DecisionKeepsKeys(c.st);
      DecisionStepEffect(L, c, i);
      var id :| id in Step(L, c, i).st.retryCounts.Keys;
      assert id in c.st.retryCounts;
    }
  }

  lemma StepKeepsDeadEnd(L: Limits, c: Config, i: Input)
    requires Inv(L, c) && DeadEndInv(c)
    ensures DeadEndInv(Step(L, c, i))
  {
    if c.pc.RunSpecialists? {
      BatchStepIs(L, c, i);
    } else if BegunInVain(Step(L, c, i).st) {
      OnlyRunsBegin(L, c, i);
      CirclingStep(L, c, i);
    }
  }

  lemma {:induction false} RunKeepsDeadEnd(L: Limits, requireApproval: bool, inputs: seq<Input>)
    ensures DeadEndInv(Run(L, Start(requireApproval), inputs))
  {
    if inputs != [] {
      var front := inputs[..|inputs|-1];
      RunKeepsDeadEnd(L, requireApproval, front);
      RunKeepsInv(L, requireApproval, front);
      StepKeepsDeadEnd(L, Run(L, Start(requireApproval), front), inputs[|inputs|-1]);
    }
  }

  lemma {:induction false} CirclesOn(L: Limits, c: Config, inputs: seq<Input>)
    requires Inv(L, c) && BegunInVain(c.st) && Circling(c)
    ensures var d := Run(L, c, inputs);
            Inv(L, d) && Circling(d) && BegunInVain(d.st) && d.st.plan == c.st.plan
  {
    if inputs != [] {
      var front, i := inputs[..|inputs|-1], inputs[|inputs|-1];
      CirclesOn(L, c, front);
      CirclingStep(L, Run(L, c, front), i);
      StepKeepsInv(L, Run(L, c, front), i);
    }
  }

  /** Once any subtask was executed of a plan with a subtask that can never be, the task is never
      reviewed, synthesized, delivered or planned anew, whatever humans and agents answer: it goes
      round between the scheduler, the specialists and the human, and can only end rejected. */
  lemma BegunInVainEndsOnlyRejected(L: Limits, requireApproval: bool, past: seq<Input>, inputs: seq<Input>)
    requires BegunInVain(Run(L, Start(requireApproval), past).st)
    ensures var c := Run(L, Start(requireApproval), past);
            var d := Run(L, c, inputs);
            Circling(d) && d.st.plan == c.st.plan
  {
    RunKeepsInv(L, requireApproval, past);
    RunKeepsDeadEnd(L, requireApproval, past);
    CirclesOn(L, Run(L, Start(requireApproval), past), inputs);
  }

  lemma ShownForApproval(L: Limits, i: Input) returns (path: seq<Config>)
    requires Gated(L, i.plan, false)
    ensures IsPath(L, path, [i, i]) && path[0] == Start(false)
    ensures path[2].pc.HumanEscalation? && Clean(path[2].st) && path[2].st.plan == i.plan
  {
    var c1 := Step(L, Start(false), i);
    path := [Start(false), c1, Step(L, c1, i)];
  }

  lemma TakenOver(L: Limits, c: Config, i: Input) returns (d: Config)
    requires c.pc.HumanEscalation? && Clean(c.st) && i.decision.action.TakeOver?
    ensures d == Step(L, c, i) && d.pc.ApplyHumanDecision? && d.st.plan == c.st.plan && d.st.retryCounts == map[]
    ensures DecisionApplies(d.st) && IsPlanSource(d.st.source.value) && d.st.decision == Some(i.decision)
  {
    d := Step(L, c, i);
  }

  lemma DeliveredByHand(L: Limits, c: Config, i: Input) returns (d: Config, e: Config)
    requires c.pc.ApplyHumanDecision? && DecisionApplies(c.st) && IsPlanSource(c.st.source.value)
    requires c.st.decision.value.action.TakeOver?
    ensures d == Step(L, c, i) && e == Step(L, d, i)
    ensures e.pc.End? && e.st.status == Completed && e.st.plan == c.st.plan && e.st.retryCounts == c.st.retryCounts
    ensures e.st.finalOutput == OrEmpty(c.st.decision.value.output)
  {
    d := Step(L, c, i);
    assert d.pc.Deliver? && d.st.finalOutput == OrEmpty(c.st.decision.value.output);
    e := Step(L, d, i);
  }

  /** Before that a human can still deliver: a plan that is shown for approval, finishable or not, is
      taken over in five steps, with nothing executed. */
  lemma GatedPlansCanBeTakenOver(L: Limits, i: Input) returns (inputs: seq<Input>)
    requires Gated(L, i.plan, false) && i.decision.action.TakeOver?
    ensures |inputs| == 5 && forall k :: 0 <= k < |inputs| ==> inputs[k] == i
    ensures var c := Run(L, Start(false), inputs);
            && c.pc.End? && c.st.status == Completed && c.st.plan == i.plan && c.st.retryCounts == map[]
            && c.st.finalOutput == OrEmpty(i.decision.output)
  {
    var path := ShownForApproval(L, i);
    var c3 := TakenOver(L, path[2], i);
    var c4, c5 := DeliveredByHand(L, c3, i);
    PathSnoc(L, path, [i, i], c3, i);
    PathSnoc(L, path + [c3], [i, i] + [i], c4, i);
    PathSnoc(L, path + [c3] + [c4], [i, i] + [i] + [i], c5, i);
    inputs := [i, i] + [i] + [i] + [i];
    PathIsRun(L, path + [c3] + [c4] + [c5], inputs);
  }
}
