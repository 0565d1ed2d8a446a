/** What is sent back is done again: no result comes from nowhere. */
module Reruns {
  import opened Schemas
  import opened Graph
  import opened GraphInvariant
  import opened Traces
  import Redo

  lemma {:induction false} BatchIsLogged(batch: seq<Id>, answers: map<Id, Outcome>, id: Id) returns (k: nat)
    requires id in batch
    ensures k < |RunEvents(batch, answers)| && RunEvents(batch, answers)[k] == EvRun(id, AnswerFor(answers, id).success)
  {
    var front, last := batch[..|batch|-1], batch[|batch|-1];
    if id == last {
      k := |RunEvents(front, answers)|;
    } else {
      assert batch == front + [last];
      k := BatchIsLogged(front, answers, id);
    }
  }

  lemma DecisionAddsNoResult(L: Limits, c: Config, i: Input, id: Id)
    requires Inv(L, c) && c.pc.ApplyHumanDecision? && id in Step(L, c, i).st.completed
    ensures id in c.st.completed
  {
    DecisionIsApplicable(L, c.st);
  }

  lemma OnlyRunsAddResults(L: Limits, c: Config, i: Input, id: Id)
    requires Inv(L, c) && !c.pc.RunSpecialists? && id in Step(L, c, i).st.completed
    ensures id in c.st.completed
  {
    if c.pc.ApplyHumanDecision? {
      DecisionAddsNoResult(L, c, i, id);
    } else if c.pc.ApplyReviewFeedback? {
      Redo.FeedbackSendsBack(L, c, i);
    }
  }

  /** The run that gave the subtask its result. */
  lemma ResultOfBatch(L: Limits, c: Config, i: Input, id: Id) returns (k: nat)
    requires Inv(L, c) && c.pc.RunSpecialists? && id !in c.st.completed && id in Step(L, c, i).st.completed
    ensures var t := Step(L, c, i).st.trace;
            |c.st.trace| <= k < |t| && t[k].EvRun? && t[k].id == id
  {
    BatchStepIs(L, c, i);
    k := BatchIsLogged(c.pc.batch, i.answers, id);
    k := k + |c.st.trace|;
  }

  /** Every result that is there now and was not there before comes from a run in between: neither a
      human nor a reviewer adds one. */
  lemma {:induction false} NewResultsWereRun(L: Limits, c: Config, inputs: seq<Input>, id: Id) returns (k: nat)
    requires Inv(L, c) && id !in c.st.completed && id in Run(L, c, inputs).st.completed
    ensures var t := Run(L, c, inputs).st.trace;
            |c.st.trace| <= k < |t| && t[k].EvRun? && t[k].id == id
  {
    var front, i := inputs[..|inputs|-1], inputs[|inputs|-1];
    var mid := Run(L, c, front);
    TraceGrowsFrom(L, c, front);
    StepGrows(L, mid, i);
    k := 0;
    if id in mid.st.completed {
      k := NewResultsWereRun(L, c, front, id);
    } else if mid.pc.RunSpecialists? {
      k := ResultOfBatch(L, mid, i, id);
    } else {
      OnlyRunsAddResults(L, mid, i, id);
    }
  }

  ghost predicate UnderReview(c: Config) {
    c.st.review.Some? && !c.pc.Intake? && !c.pc.PlanTask?
  }

  lemma ReviewedStaysPlanned(L: Limits, c: Config, i: Input)
    requires Inv(L, c) && UnderReview(c)
    ensures UnderReview(Step(L, c, i)) && Step(L, c, i).st.plan == c.st.plan
  {
    if c.pc.RunSpecialists? {
      BatchStepIs(L, c, i);
    } else if c.pc.ApplyHumanDecision? {
      DecisionIsApplicable(L, c.st);
      DecisionStepEffect(L, c, i);
      DecisionKeepsReview(L, c, i);
    }
  }

  lemma DecisionKeepsReview(L: Limits, c: Config, i: Input)
    requires c.pc.ApplyHumanDecision? && DecisionApplies(c.st)
    ensures Step(L, c, i).st.review == c.st.review
  {
  }

  /** After a review the plan is never exchanged. */
  lemma {:induction false} PlanStaysAfterReview(L: Limits, c: Config, inputs: seq<Input>)
    requires Inv(L, c) && UnderReview(c)
    ensures Inv(L, Run(L, c, inputs)) && UnderReview(Run(L, c, inputs)) && Run(L, c, inputs).st.plan == c.st.plan
  {
    if inputs != [] {
      var front, i := inputs[..|inputs|-1], inputs[|inputs|-1];
      PlanStaysAfterReview(L, c, front);
      ReviewedStaysPlanned(L, Run(L, c, front), i);
      StepKeepsInv(L, Run(L, c, front), i);
    }
  }

  /** What was taken back is run again before the next review, whatever humans answer on the way. */
  lemma TakenBackIsRunAgain(L: Limits, c: Config, inputs: seq<Input>, id: Id) returns (k: nat)
    requires Inv(L, c) && UnderReview(c) && id in Subtasks(c.st) && id !in c.st.completed
    requires Run(L, c, inputs).pc.Review?
    ensures var t := Run(L, c, inputs).st.trace;
            |c.st.trace| <= k < |t| && t[k].EvRun? && t[k].id == id
  {
    PlanStaysAfterReview(L, c, inputs);
    var d := Run(L, c, inputs);
    assert id in Subtasks(d.st) && Succeeded(d.st.completed, id);
    k := NewResultsWereRun(L, c, inputs, id);
  }

  /** A human's MODIFY of a review that named no subtask has every subtask of the plan run again before
      the next review; one of a review that named some, every named subtask of the plan. */
  lemma ModifiedIsRunAgain(L: Limits, requireApproval: bool, past: seq<Input>, i: Input, inputs: seq<Input>, t: SubTask)
    returns (k: nat)
    requires var c := Run(L, Start(requireApproval), past);
             && c.pc.ApplyHumanDecision? && c.st.decision.Some? && c.st.decision.value.action.Modify?
             && c.st.source.Some? && IsReviewSource(c.st.source.value)
             && c.st.review.Some? && t in c.st.plan.subtasks
             && (c.st.review.value.redo == [] || t.id in c.st.review.value.redo)
    requires Run(L, Step(L, Run(L, Start(requireApproval), past), i), inputs).pc.Review?
    ensures var c := Run(L, Start(requireApproval), past);
            var trace := Run(L, Step(L, c, i), inputs).st.trace;
            |c.st.trace| < k < |trace| && trace[k].EvRun? && trace[k].id == t.id
  {
    RunKeepsInv(L, requireApproval, past);
    var c := Run(L, Start(requireApproval), past);
    DecisionIsApplicable(L, c.st);
    DecisionStepEffect(L, c, i);
    StepKeepsInv(L, c, i);
    Redo.ModifySendsBack(L, c, i);
    LookupsAgreeOnKeys(c.st.plan.subtasks, t.id);
    k := TakenBackIsRunAgain(L, Step(L, c, i), inputs, t.id);
  }
}
