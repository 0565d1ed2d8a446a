/** How much work a task does before any human decided anything: an exact bound. */
module Unattended {
  import opened Schemas
  import opened Graph
  import opened GraphInvariant
  import opened Traces
  import opened Accounting
  import Gate

  predicate Undecided(trace: seq<Event>) {
    forall k :: 0 <= k < |trace| ==> !trace[k].EvDecision?
  }

  function RunsOf(trace: seq<Event>, id: Id): nat {
    if trace == [] then 0
    else
      var e := trace[|trace|-1];
      RunsOf(trace[..|trace|-1], id) + (if e.EvRun? && e.id == id then 1 else 0)
  }

  function WinsOf(trace: seq<Event>, id: Id): nat {
    if trace == [] then 0 else WinsOf(trace[..|trace|-1], id) + (if trace[|trace|-1] == EvRun(id, true) then 1 else 0)
  }

  lemma RunsSnoc(trace: seq<Event>, e: Event, id: Id)
    ensures RunsOf(trace + [e], id) == RunsOf(trace, id) + (if e.EvRun? && e.id == id then 1 else 0)
    ensures WinsOf(trace + [e], id) == WinsOf(trace, id) + (if e == EvRun(id, true) then 1 else 0)
  {
    Snoc(trace, e);
  }

  lemma {:induction false} RunsOverBatch(trace: seq<Event>, batch: seq<Id>, answers: map<Id, Outcome>, id: Id)
    requires Distinct(batch)
    ensures var t := trace + RunEvents(batch, answers);
            && RunsOf(t, id) == RunsOf(trace, id) + (if id in batch then 1 else 0)
            && WinsOf(t, id) == WinsOf(trace, id) + (if id in batch && AnswerFor(answers, id).success then 1 else 0)
  {
    if batch == [] {
      assert trace + [] == trace;
    } else {
      var front, last := batch[..|batch|-1], batch[|batch|-1];
      var e := EvRun(last, AnswerFor(answers, last).success);
      RunsOverBatch(trace, front, answers, id);
      RunsSnoc(trace + RunEvents(front, answers), e, id);
      AppendAssociates(trace, RunEvents(front, answers), e);
      assert last !in front && (id in batch <==> id in front || id == last);
    }
  }

  // ---------------------------------------------------------------- one subtask

  /** Every run failed or won; wins are paid for by redos; the counter stays within the limit, and
      reaches it only in a failure. */
  ghost predicate Paid(L: Limits, c: Config, id: Id) {
    var st := c.st;
    && RunsOf(st.trace, id) == RetriesOf(st.retryCounts, id) + WinsOf(st.trace, id)
    && WinsOf(st.trace, id) <= Count(st.trace, IsFeedback) + (if Succeeded(st.completed, id) then 1 else 0)
    && RetriesOf(st.retryCounts, id) <= Limit(L)
    && (RetriesOf(st.retryCounts, id) == Limit(L) ==> Failed(st.completed, id))
  }

  ghost predicate PaidInv(L: Limits, c: Config) {
    Undecided(c.st.trace) ==>
      && (forall id :: Paid(L, c, id))
      && (c.pc.ApplyReviewFeedback? ==> AllSucceeded(c.st))
  }

  lemma PaidAfterBatch(L: Limits, c: Config, i: Input, id: Id)
    requires Inv(L, c) && c.pc.RunSpecialists? && Paid(L, c, id)
    ensures Paid(L, Step(L, c, i), id)
  {
    BatchStepIs(L, c, i);
    RunsOverBatch(c.st.trace, c.pc.batch, i.answers, id);
    CountsOverBatch(c.st.trace, c.pc.batch, i.answers);
    PaidByRun(L, c, Step(L, c, i), c.pc.batch, i.answers, id);
  }

  lemma PaidByRun(L: Limits, c: Config, n: Config, batch: seq<Id>, answers: map<Id, Outcome>, id: Id)
    requires ValidBatch(L, c.st, batch) && AllFound(c.st.plan, batch) && Paid(L, c, id)
    requires n.st.completed == c.st.completed + BatchResults(c.st, batch, answers)
    requires n.st.retryCounts == c.st.retryCounts + BatchCounts(c.st, batch, answers)
    requires Count(n.st.trace, IsFeedback) == Count(c.st.trace, IsFeedback)
    requires RunsOf(n.st.trace, id) == RunsOf(c.st.trace, id) + (if id in batch then 1 else 0)
    requires WinsOf(n.st.trace, id)
          == WinsOf(c.st.trace, id) + (if id in batch && AnswerFor(answers, id).success then 1 else 0)
    ensures Paid(L, n, id)
  {
    if id in batch { assert IsReady(L, c.st, id); }
  }

  lemma PaidAfterFeedback(L: Limits, c: Config, i: Input, id: Id)
    requires Inv(L, c) && c.pc.ApplyReviewFeedback? && AllSucceeded(c.st) && Paid(L, c, id)
    ensures Paid(L, Step(L, c, i), id)
  {
    var e := EvFeedback(c.st.review.value.redo);
    assert Step(L, c, i).st.trace == c.st.trace + [e];
    RunsSnoc(c.st.trace, e, id);
    CountSnoc(c.st.trace, e, IsFeedback);
    assert Failed(c.st.completed, id) ==> id in c.st.completed.Keys;
  }

  lemma PaidAfterOther(L: Limits, c: Config, n: Config, e: Event, id: Id)
    requires Paid(L, c, id) && n.st.trace == c.st.trace + [e] && !e.EvRun? && !e.EvFeedback?
    requires n.st.completed == c.st.completed && n.st.retryCounts == c.st.retryCounts
    ensures Paid(L, n, id)
  {
    RunsSnoc(c.st.trace, e, id);
    CountSnoc(c.st.trace, e, IsFeedback);
  }

  lemma UnattendedBefore(L: Limits, c: Config, i: Input)
    requires Inv(L, c) && Undecided(Step(L, c, i).st.trace)
    ensures Undecided(c.st.trace) && !c.pc.ApplyHumanDecision?
  {
    StepGrows(L, c, i);
    var t, n := c.st.trace, Step(L, c, i).st.trace;
    forall k | 0 <= k < |t| ensures !t[k].EvDecision? {
      assert t[k] == n[k];
    }
    if c.pc.ApplyHumanDecision? { DecisionsAttend(L, c, i); }
  }

  lemma DecisionsAttend(L: Limits, c: Config, i: Input)
    requires Inv(L, c) && c.pc.ApplyHumanDecision?
    ensures !Undecided(Step(L, c, i).st.trace)
  {
    var e := OneEvent(L, c, i);
    assert Step(L, c, i).st.trace[|c.st.trace|] == e;
  }

  lemma PlanKeepsResults(L: Limits, c: Config, i: Input)
    requires Inv(L, c) && c.pc.PlanTask?
    ensures Step(L, c, i).st.completed == c.st.completed && Step(L, c, i).st.retryCounts == c.st.retryCounts
  {
    PlanKeepsInv(L, c.st, i.plan);
  }

  /** The reviewer alone sends back a fully successful plan. */
  lemma FeedbackFollowsSuccess(L: Limits, c: Config, i: Input)
    requires Inv(L, c) && !c.pc.ApplyHumanDecision? && Step(L, c, i).pc.ApplyReviewFeedback?
    ensures AllSucceeded(Step(L, c, i).st)
  {
    assert c.pc.Review?;
    ReviewKeepsInv(c.st, i.review);
  }

  lemma StepKeepsPaid(L: Limits, c: Config, i: Input)
    requires Inv(L, c) && PaidInv(L, c)
    ensures PaidInv(L, Step(L, c, i))
  {
    var n := Step(L, c, i);
    if Undecided(n.st.trace) {
      UnattendedBefore(L, c, i);
      forall id ensures Paid(L, n, id) {
        assert Paid(L, c, id);
        PaidAfterStep(L, c, i, id);
      }
      if n.pc.ApplyReviewFeedback? { FeedbackFollowsSuccess(L, c, i); }
    }
  }

  lemma PaidAfterEvent(L: Limits, c: Config, i: Input, id: Id)
    requires Inv(L, c) && Paid(L, c, id)
    requires !c.pc.RunSpecialists? && !c.pc.ApplyReviewFeedback? && !c.pc.ApplyHumanDecision?
    requires !c.pc.RouteBatch? && !c.pc.End?
    ensures Paid(L, Step(L, c, i), id)
  {
    if c.pc.PlanTask? {
      PlanKeepsResults(L, c, i);
      PaidAfterOther(L, c, Step(L, c, i), EvPlan(i.plan), id);
    } else if c.pc.Review? {
      PaidAfterOther(L, c, Step(L, c, i), EvReview(i.review), id);
    } else {
      var e := QuietEvent(L, c, i);
      PaidAfterOther(L, c, Step(L, c, i), e, id);
    }
  }

  lemma PaidAfterStep(L: Limits, c: Config, i: Input, id: Id)
    requires Inv(L, c) && !c.pc.ApplyHumanDecision? && (c.pc.ApplyReviewFeedback? ==> AllSucceeded(c.st))
    requires Paid(L, c, id)
    ensures Paid(L, Step(L, c, i), id)
  {
    if c.pc.RunSpecialists? { PaidAfterBatch(L, c, i, id); }
    else if c.pc.ApplyReviewFeedback? { PaidAfterFeedback(L, c, i, id); }
    else if !c.pc.RouteBatch? && !c.pc.End? {
      PaidAfterEvent(L, c, i, id);
    }
  }

  lemma {:induction false} RunKeepsPaid(L: Limits, requireApproval: bool, inputs: seq<Input>)
    ensures PaidInv(L, Run(L, Start(requireApproval), inputs))
  {
    if inputs != [] {
      var front := inputs[..|inputs|-1];
      RunKeepsPaid(L, requireApproval, front);
      RunKeepsInv(L, requireApproval, front);
      StepKeepsPaid(L, Run(L, Start(requireApproval), front), inputs[|inputs|-1]);
    }
  }

  function MostRuns(L: Limits): nat {
    Limit(L) + Cycles(L) - 1
  }

  lemma FeedbacksWithinLimit(L: Limits, c: Config)
    requires ReviewBoundInv(L, c) && Undecided(c.st.trace)
    ensures Count(c.st.trace, IsFeedback) <= Cycles(L) - 1 && Count(c.st.trace, IsReview) <= Cycles(L)
  {
    NoneCounted(c.st.trace, IsReviewModify);
  }

  /** Before any human decision a subtask runs at most max(1, M) + max(1, C) - 1 times. */
  lemma RunsOfOneSubtask(L: Limits, requireApproval: bool, inputs: seq<Input>, id: Id)
    requires Undecided(Run(L, Start(requireApproval), inputs).st.trace)
    ensures RunsOf(Run(L, Start(requireApproval), inputs).st.trace, id) <= MostRuns(L)
  {
    RunKeepsPaid(L, requireApproval, inputs);
    RunKeepsBounds(L, requireApproval, inputs);
    var c := Run(L, Start(requireApproval), inputs);
    FeedbacksWithinLimit(L, c);
    assert Paid(L, c, id);
  }

  // ---------------------------------------------------------------- all subtasks

  function RunsOver(trace: seq<Event>, ids: seq<Id>): nat {
    if ids == [] then 0 else RunsOver(trace, ids[..|ids|-1]) + RunsOf(trace, ids[|ids|-1])
  }

  lemma {:induction false} RunsOverSnoc(trace: seq<Event>, e: Event, ids: seq<Id>)
    requires Distinct(ids)
    ensures RunsOver(trace + [e], ids) == RunsOver(trace, ids) + (if e.EvRun? && e.id in ids then 1 else 0)
  {
    if ids != [] {
      var front, last := ids[..|ids|-1], ids[|ids|-1];
      RunsOverSnoc(trace, e, front);
      RunsSnoc(trace, e, last);
      assert last !in front && forall id :: id in ids <==> id in front || id == last;
    }
  }

  lemma {:induction false} NoRunsOver(ids: seq<Id>)
    ensures RunsOver([], ids) == 0
  {
    if ids != [] { NoRunsOver(ids[..|ids|-1]); }
  }

  /** Runs counted subtask by subtask are all the runs. */
  lemma {:induction false} RunsAddUp(trace: seq<Event>, ids: seq<Id>)
    requires Distinct(ids) && forall id :: id in Ran(trace) ==> id in ids
    ensures Count(trace, IsRun) == RunsOver(trace, ids)
  {
    if trace == [] {
      NoRunsOver(ids);
    } else {
      var front, e := trace[..|trace|-1], trace[|trace|-1];
      RunsAddUp(front, ids);
      RunsOverSnoc(front, e, ids);
      assert trace == front + [e];
      if e.EvRun? { assert e.id in Ran(trace); }
    }
  }

  lemma {:induction false} SumAtMost(trace: seq<Event>, ids: seq<Id>, each: nat)
    requires forall id :: id in ids ==> RunsOf(trace, id) <= each
    ensures RunsOver(trace, ids) <= |ids| * each
  {
    if ids != [] {
      SumAtMost(trace, ids[..|ids|-1], each);
      assert |ids| * each == (|ids| - 1) * each + each;
    }
  }

  lemma OnlyPlannedRan(L: Limits, requireApproval: bool, inputs: seq<Input>, id: Id)
    requires id in Ran(Run(L, Start(requireApproval), inputs).st.trace)
    ensures var st := Run(L, Start(requireApproval), inputs).st;
            id in OrderedIds(st.plan.subtasks)
  {
    RunKeepsInv(L, requireApproval, inputs);
    Gate.ReplanningStartsClean(L, requireApproval, inputs);
    var st := Run(L, Start(requireApproval), inputs).st;
    assert id in st.retryCounts.Keys;
    LookupsAgreeOnKeys(st.plan.subtasks, id);
  }

  /** A run in which no human decided anything runs each of its n subtasks at most
      max(1, M) + max(1, C) - 1 times, and calls the reviewer at most max(1, C) times. */
  lemma UnattendedWorkIsBounded(L: Limits, requireApproval: bool, inputs: seq<Input>)
    requires Undecided(Run(L, Start(requireApproval), inputs).st.trace)
    ensures var st := Run(L, Start(requireApproval), inputs).st;
            && Count(st.trace, IsReview) <= Cycles(L)
            && Count(st.trace, IsRun) <= |OrderedIds(st.plan.subtasks)| * MostRuns(L)
  {
    var st := Run(L, Start(requireApproval), inputs).st;
    var ids := OrderedIds(st.plan.subtasks);
    RunKeepsBounds(L, requireApproval, inputs);
    FeedbacksWithinLimit(L, Run(L, Start(requireApproval), inputs));
    OrderedIdsDistinct(st.plan.subtasks);
    forall id | id in Ran(st.trace) ensures id in ids {
      OnlyPlannedRan(L, requireApproval, inputs, id);
    }
    forall id | id in ids ensures RunsOf(st.trace, id) <= MostRuns(L) {
      RunsOfOneSubtask(L, requireApproval, inputs, id);
    }
    RunsAddUp(st.trace, ids);
    SumAtMost(st.trace, ids, MostRuns(L));
  }
}
