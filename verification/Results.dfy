/** What the results of a run are: whose work they hold, and what becomes of them. */
module Results {
  import opened Schemas
  import opened Reducers
  import opened Graph
  import opened GraphInvariant

  /** Every result is filed under its subtask's id, as the work of the specialist the plan names. */
  ghost predicate Filed(st: State) {
    forall id :: id in st.completed ==>
      && st.completed[id].subtaskId == id
      && exists t :: t in st.plan.subtasks && t.id == id && t.specialist == st.completed[id].specialist
  }

  lemma FiledWhenLess(st: State, n: State)
    requires Filed(st) && n.plan == st.plan && n.completed.Keys <= st.completed.Keys
    requires forall id :: id in n.completed ==> n.completed[id] == st.completed[id]
    ensures Filed(n)
  {
  }

  lemma BatchIsFiled(L: Limits, c: Config, i: Input)
    requires Inv(L, c) && Filed(c.st) && c.pc.RunSpecialists?
    ensures Filed(Step(L, c, i).st)
  {
    BatchStepIs(L, c, i);
    var n := Step(L, c, i).st;
    forall id | id in n.completed
      ensures n.completed[id].subtaskId == id
      ensures exists t :: t in n.plan.subtasks && t.id == id && t.specialist == n.completed[id].specialist
    {
      if id in c.pc.batch {
        LookupsAgreeOnKeys(c.st.plan.subtasks, id);
        assert n.completed[id] == BranchResult(c.st, id, AnswerFor(i.answers, id));
      } else {
        assert n.completed[id] == c.st.completed[id];
      }
    }
  }

  lemma HandWorkIsFiled(st: State, ids: set<Id>, output: string, n: State)
    requires Filed(st) && n.plan == st.plan && forall id :: id in ids ==> id in Subtasks(st)
    requires n.completed == Merge(st.completed, HandResults(st, ids, output))
    ensures Filed(n)
  {
    forall id | id in n.completed
      ensures n.completed[id].subtaskId == id
      ensures exists t :: t in n.plan.subtasks && t.id == id && t.specialist == n.completed[id].specialist
    {
      if id in ids {
        LookupsAgreeOnKeys(st.plan.subtasks, id);
        assert n.completed[id] == HandDone(st, id, output);
      } else {
        assert n.completed[id] == st.completed[id];
      }
    }
  }

  lemma DecisionKeepsFiled(L: Limits, c: Config, i: Input)
    requires c.pc.ApplyHumanDecision? && DecisionApplies(c.st) && Filed(c.st)
    ensures Filed(Step(L, c, i).st)
  {
    var st, n := c.st, Step(L, c, i).st;
    DecisionStepEffect(L, c, i);
    if st.decision.value.action.TakeOver? && st.source.value.SpecialistRetry? {
      HandWorkIsFiled(st, st.escalation.value.stuckIds, OrEmpty(st.decision.value.output), n);
    } else {
      FiledWhenLess(st, n);
    }
  }

  lemma StepKeepsFiled(L: Limits, c: Config, i: Input)
    requires Inv(L, c) && Filed(c.st)
    ensures Filed(Step(L, c, i).st)
  {
    if c.pc.RunSpecialists? {
      BatchIsFiled(L, c, i);
    } else if c.pc.ApplyHumanDecision? {
      DecisionIsApplicable(L, c.st);
      DecisionKeepsFiled(L, c, i);
    } else if !c.pc.PlanTask? {
      FiledWhenLess(c.st, Step(L, c, i).st);
    }
  }

  /** In every reachable state each result is filed under its subtask's id, and names a specialist the
      plan assigns to that id. */
  lemma {:induction false} ResultsAreFiled(L: Limits, requireApproval: bool, inputs: seq<Input>)
    ensures var st := Run(L, Start(requireApproval), inputs).st;
            forall id :: id in st.completed ==>
              && st.completed[id].subtaskId == id
              && exists t :: t in st.plan.subtasks && t.id == id && t.specialist == st.completed[id].specialist
  {
    if inputs != [] {
      var front := inputs[..|inputs|-1];
      ResultsAreFiled(L, requireApproval, front);
      RunKeepsInv(L, requireApproval, front);
      StepKeepsFiled(L, Run(L, Start(requireApproval), front), inputs[|inputs|-1]);
    }
  }

  /** What a super-step does with the specialists' answers: a subtask of the batch gets its own answer, or
      a failure if there is none, and a failure is counted; all other subtasks keep what they had. */
  lemma AnswersAreFiled(L: Limits, requireApproval: bool, inputs: seq<Input>, i: Input, id: Id)
    requires Run(L, Start(requireApproval), inputs).pc.RunSpecialists?
    ensures var c := Run(L, Start(requireApproval), inputs);
            var st, n := c.st, Step(L, c, i).st;
            if id in c.pc.batch then
              var count := if id in st.retryCounts then st.retryCounts[id] else 0;
              && id in n.completed && id in n.retryCounts
              && (if id in i.answers then
                    && n.completed[id].success == i.answers[id].success
                    && n.completed[id].output == i.answers[id].output
                  else !n.completed[id].success)
              && n.retryCounts[id] == if n.completed[id].success then count else count + 1
            else
              && (id in n.completed <==> id in st.completed) && (id in n.retryCounts <==> id in st.retryCounts)
              && (id in st.completed ==> n.completed[id] == st.completed[id])
              && (id in st.retryCounts ==> n.retryCounts[id] == st.retryCounts[id])
  {
    RunKeepsInv(L, requireApproval, inputs);
    BatchAnswers(L, Run(L, Start(requireApproval), inputs), i, id);
  }

  lemma BatchAnswers(L: Limits, c: Config, i: Input, id: Id)
    requires Inv(L, c) && c.pc.RunSpecialists?
    ensures var st, n := c.st, Step(L, c, i).st;
            if id in c.pc.batch then
              var count := if id in st.retryCounts then st.retryCounts[id] else 0;
              && id in n.completed && id in n.retryCounts
              && (if id in i.answers then
                    && n.completed[id].success == i.answers[id].success
                    && n.completed[id].output == i.answers[id].output
                  else !n.completed[id].success)
              && n.retryCounts[id] == if n.completed[id].success then count else count + 1
            else
              && (id in n.completed <==> id in st.completed) && (id in n.retryCounts <==> id in st.retryCounts)
              && (id in st.completed ==> n.completed[id] == st.completed[id])
              && (id in st.retryCounts ==> n.retryCounts[id] == st.retryCounts[id])
  {
    BatchStepIs(L, c, i);
    if id in c.pc.batch {
      assert Step(L, c, i).st.completed[id] == BranchResult(c.st, id, AnswerFor(i.answers, id));
      assert Step(L, c, i).st.retryCounts[id] == BranchCount(c.st, id, AnswerFor(i.answers, id));
    }
  }

  // ---------------------------------------------------------------- how a task ends

  ghost predicate EndsAsLogged(c: Config) {
    var st := c.st;
    if c.pc.End? then
      && st.trace != []
      && (if st.trace[|st.trace|-1].EvDeliver? then st.status == Completed
          else st.trace[|st.trace|-1].EvReject? && st.status == Rejected)
    else st.status == Running
  }

  lemma StepEndsAsLogged(L: Limits, c: Config, i: Input)
    requires Inv(L, c) && EndsAsLogged(c)
    ensures EndsAsLogged(Step(L, c, i))
  {
    if c.pc.RunSpecialists? {
      BatchStepIs(L, c, i);
    } else if c.pc.ApplyHumanDecision? {
      DecisionIsApplicable(L, c.st);
      DecisionStepEffect(L, c, i);
    }
  }

  /** A task is completed exactly if its last entry is the delivery, rejected exactly if it is the
      rejection, and running until it ends. */
  lemma {:induction false} StatusIsLogged(L: Limits, requireApproval: bool, inputs: seq<Input>)
    ensures EndsAsLogged(Run(L, Start(requireApproval), inputs))
  {
    if inputs != [] {
      var front := inputs[..|inputs|-1];
      StatusIsLogged(L, requireApproval, front);
      RunKeepsInv(L, requireApproval, front);
      StepEndsAsLogged(L, Run(L, Start(requireApproval), front), inputs[|inputs|-1]);
    }
  }

  /** From synthesis on: two steps later the task is over, with the synthesized text as its output and its
      results as they were. */
  lemma SynthesisDelivers(L: Limits, c: Config, i: Input, j: Input) returns (end: Config)
    requires c.pc.Synthesize?
    ensures end == Run(L, c, [i, j]) && end.pc.End? && end.st.status == Completed
    ensures end.st.finalOutput == i.text && end.st.completed == c.st.completed
  {
    var mid := Step(L, c, i);
    assert mid.pc.Deliver? && mid.st.finalOutput == i.text;
    end := Step(L, mid, j);
    assert [i, j][..1] == [i] && [i][..0] == [];
    assert Run(L, c, [i]) == mid;
  }
}
