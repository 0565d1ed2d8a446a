/** Reading a run back from its `trace_events`: every function here looks only at the log. */
module Traces {
  import opened Schemas
  import opened Graph
  import opened GraphInvariant

  function LastPlan(trace: seq<Event>): Option<Plan> {
    if trace == [] then None
    else if trace[|trace|-1].EvPlan? then Some(trace[|trace|-1].plan)
    else LastPlan(trace[..|trace|-1])
  }

  function LastReview(trace: seq<Event>): Option<ReviewResult> {
    if trace == [] then None
    else if trace[|trace|-1].EvReview? then Some(trace[|trace|-1].review)
    else LastReview(trace[..|trace|-1])
  }

  predicate IsPlanApproval(e: Event) {
    e.EvDecision? && e.action.Approve? && IsPlanSource(e.source)
  }

  /** A human approved the latest plan. */
  predicate Approved(trace: seq<Event>) {
    if trace == [] || trace[|trace|-1].EvPlan? then false
    else IsPlanApproval(trace[|trace|-1]) || Approved(trace[..|trace|-1])
  }

  predicate IsReset(e: Event, id: Id) {
    e.EvDecision? && e.source.SpecialistRetry? && (e.action.Approve? || e.action.Modify?) && id in e.stuck
  }

  /** Failed runs of a subtask since a human last put it back with fresh retries. */
  function FailuresSinceReset(trace: seq<Event>, id: Id): nat {
    if trace == [] then 0
    else
      var e := trace[|trace|-1];
      var before := FailuresSinceReset(trace[..|trace|-1], id);
      if IsReset(e, id) then 0
      else if e == EvRun(id, false) then before + 1
      else before
  }

  predicate IsReviewModify(e: Event) {
    e.EvDecision? && IsReviewSource(e.source) && e.action.Modify?
  }

  /** Times a review sent a subtask back: by naming it, or by naming none before a human MODIFY. */
  function Redos(trace: seq<Event>, id: Id): nat {
    if trace == [] then 0
    else
      var e := trace[|trace|-1];
      var front := trace[..|trace|-1];
      var named := e.EvFeedback? && id in e.redo;
      var all := IsReviewModify(e) && LastReview(front).Some? && LastReview(front).value.redo == [];
      Redos(front, id) + (if named || all then 1 else 0)
  }

  /** The subtasks ever executed. */
  function Ran(trace: seq<Event>): set<Id> {
    if trace == [] then {}
    else
      var e := trace[|trace|-1];
      Ran(trace[..|trace|-1]) + (if e.EvRun? then {e.id} else {})
  }

  predicate IsRun(e: Event) { e.EvRun? }

  predicate IsReview(e: Event) { e.EvReview? }

  predicate IsEscalation(e: Event) { e.EvEscalation? }

  predicate IsRestart(e: Event) {
    e.EvDecision? && e.source.SpecialistRetry? && (e.action.Approve? || e.action.Modify?)
  }

  function Count(trace: seq<Event>, p: Event -> bool): nat {
    if trace == [] then 0
    else Count(trace[..|trace|-1], p) + (if p(trace[|trace|-1]) then 1 else 0)
  }

  // ---------------------------------------------------------------- appending to the log

  lemma Snoc(trace: seq<Event>, e: Event)
    ensures (trace + [e])[..|trace|] == trace && (trace + [e])[|trace|] == e
  {
  }

  lemma CountSnoc(trace: seq<Event>, e: Event, p: Event -> bool)
    ensures Count(trace + [e], p) == Count(trace, p) + (if p(e) then 1 else 0)
  {
    Snoc(trace, e);
  }

  lemma {:induction false} CountRunEvents(trace: seq<Event>, batch: seq<Id>, answers: map<Id, Outcome>,
                                               p: Event -> bool, each: nat)
    requires forall id, ok :: p(EvRun(id, ok)) == (each == 1)
    requires each <= 1
    ensures Count(trace + RunEvents(batch, answers), p) == Count(trace, p) + each * |batch|
  {
    if batch == [] {
      assert trace + [] == trace;
    } else {
      var front, last := batch[..|batch|-1], batch[|batch|-1];
      var e := EvRun(last, AnswerFor(answers, last).success);
      CountRunEvents(trace, front, answers, p, each);
      AppendAssociates(trace, RunEvents(front, answers), e);
      CountSnoc(trace + RunEvents(front, answers), e, p);
    }
  }

  /** Specialist runs are invisible to plans, reviews, approvals and redos. */
  lemma {:induction false} RunEventsAreSilent(trace: seq<Event>, batch: seq<Id>, answers: map<Id, Outcome>)
    ensures var t := trace + RunEvents(batch, answers);
            && LastPlan(t) == LastPlan(trace)
            && LastReview(t) == LastReview(trace)
            && Approved(t) == Approved(trace)
            && (forall id :: Redos(t, id) == Redos(trace, id))
  {
    if batch == [] {
      assert trace + [] == trace;
    } else {
      var front, last := batch[..|batch|-1], batch[|batch|-1];
      var e := EvRun(last, AnswerFor(answers, last).success);
      RunEventsAreSilent(trace, front, answers);
      AppendAssociates(trace, RunEvents(front, answers), e);
      Snoc(trace + RunEvents(front, answers), e);
    }
  }

  lemma {:induction false} RanOverBatch(trace: seq<Event>, batch: seq<Id>, answers: map<Id, Outcome>)
    ensures Ran(trace + RunEvents(batch, answers)) == Ran(trace) + IdSet(batch)
  {
    if batch == [] {
      assert trace + [] == trace;
    } else {
      var front, last := batch[..|batch|-1], batch[|batch|-1];
      var e := EvRun(last, AnswerFor(answers, last).success);
      RanOverBatch(trace, front, answers);
      AppendAssociates(trace, RunEvents(front, answers), e);
      Snoc(trace + RunEvents(front, answers), e);
      assert IdSet(batch) == IdSet(front) + {last};
    }
  }

  lemma {:induction false} RanMeansLogged(trace: seq<Event>)
    ensures Ran(trace) == {} <==> forall k :: 0 <= k < |trace| ==> !trace[k].EvRun?
  {
    if trace != [] {
      RanMeansLogged(trace[..|trace|-1]);
      assert forall k :: 0 <= k < |trace| - 1 ==> trace[k] == trace[..|trace|-1][k];
    }
  }

  lemma {:induction false} RunEventsAreRuns(batch: seq<Id>, answers: map<Id, Outcome>)
    ensures forall e :: e in RunEvents(batch, answers) ==> e.EvRun? && e.id in batch
  {
    if batch != [] {
      RunEventsAreRuns(batch[..|batch|-1], answers);
    }
  }

  lemma OneMoreRun(trace: seq<Event>, last: Id, ok: bool, id: Id)
    ensures FailuresSinceReset(trace + [EvRun(last, ok)], id)
         == FailuresSinceReset(trace, id) + (if id == last && !ok then 1 else 0)
  {
    Snoc(trace, EvRun(last, ok));
  }

  /** Each branch adds its own failure, once. */
  lemma {:induction false} FailuresOverBatch(trace: seq<Event>, batch: seq<Id>, answers: map<Id, Outcome>, id: Id)
    requires Distinct(batch)
    ensures FailuresSinceReset(trace + RunEvents(batch, answers), id)
         == FailuresSinceReset(trace, id)
            + (if id in batch && !AnswerFor(answers, id).success then 1 else 0)
  {
    if batch == [] {
      assert trace + [] == trace;
    } else {
      var front, last := batch[..|batch|-1], batch[|batch|-1];
      var ok := AnswerFor(answers, last).success;
      FailuresOverBatch(trace, front, answers, id);
      OneMoreRun(trace + RunEvents(front, answers), last, ok, id);
      AppendAssociates(trace, RunEvents(front, answers), EvRun(last, ok));
      assert last !in front && (id in batch <==> id in front || id == last);
    }
  }

  /** One step of the machine appends one super-step of runs, one event, or nothing. */
  lemma StepAppends(L: Limits, c: Config, i: Input)
    requires Inv(L, c)
    ensures var t := Step(L, c, i).st.trace;
            if c.pc.RunSpecialists? then t == c.st.trace + RunEvents(c.pc.batch, i.answers)
            else if c.pc.RouteBatch? || c.pc.End? then t == c.st.trace
            else |t| == |c.st.trace| + 1 && t[..|c.st.trace|] == c.st.trace
  {
    match c.pc
    case RunSpecialists(batch) =>
      BatchIsFound(L, c.st, batch);
      RunBranchesEffect(c.st, c.st, batch, i.answers);
    case ApplyHumanDecision => DecisionIsApplicable(L, c.st);
    case _ =>
  }

  /** The human decisions a run has consumed: its steps out of an interrupt. */
  function DecisionsTaken(L: Limits, c: Config, inputs: seq<Input>): nat {
    if inputs == [] then 0
    else
      var front := inputs[..|inputs|-1];
      DecisionsTaken(L, c, front) + (if Run(L, c, front).pc.HumanEscalation? then 1 else 0)
  }

  lemma StepCountsEscalations(L: Limits, c: Config, i: Input)
    requires Inv(L, c)
    ensures Count(Step(L, c, i).st.trace, IsEscalation)
         == Count(c.st.trace, IsEscalation) + (if c.pc.HumanEscalation? then 1 else 0)
  {
    StepAppends(L, c, i);
    if c.pc.RunSpecialists? {
      CountRunEvents(c.st.trace, c.pc.batch, i.answers, IsEscalation, 0);
    } else if !c.pc.RouteBatch? && !c.pc.End? {
      if c.pc.ApplyHumanDecision? { DecisionIsApplicable(L, c.st); }
      var e := Step(L, c, i).st.trace[|c.st.trace|];
      assert Step(L, c, i).st.trace == c.st.trace + [e];
      CountSnoc(c.st.trace, e, IsEscalation);
    }
  }

  /** The trace holds one escalation entry per human decision consumed. */
  lemma {:induction false} EscalationsCountDecisions(L: Limits, requireApproval: bool, inputs: seq<Input>)
    ensures Count(Run(L, Start(requireApproval), inputs).st.trace, IsEscalation)
         == DecisionsTaken(L, Start(requireApproval), inputs)
  {
    if inputs != [] {
      var front := inputs[..|inputs|-1];
      EscalationsCountDecisions(L, requireApproval, front);
      RunKeepsInv(L, requireApproval, front);
      StepCountsEscalations(L, Run(L, Start(requireApproval), front), inputs[|inputs|-1]);
    }
  }

  lemma StepGrows(L: Limits, c: Config, i: Input)
    requires Inv(L, c)
    ensures c.st.trace <= Step(L, c, i).st.trace
  {
    StepAppends(L, c, i);
  }

  lemma {:induction false} TraceGrowsFrom(L: Limits, c: Config, inputs: seq<Input>)
    requires Inv(L, c)
    ensures Inv(L, Run(L, c, inputs)) && c.st.trace <= Run(L, c, inputs).st.trace
  {
    if inputs != [] {
      var mid := Run(L, c, inputs[..|inputs|-1]);
      TraceGrowsFrom(L, c, inputs[..|inputs|-1]);
      StepKeepsInv(L, mid, inputs[|inputs|-1]);
      StepGrows(L, mid, inputs[|inputs|-1]);
    }
  }

  /** From any reachable configuration the trace only ever grows, so what was recorded of it stays
      at its place. */
  lemma TraceOnlyGrows(L: Limits, requireApproval: bool, past: seq<Input>, inputs: seq<Input>)
    ensures var c := Run(L, Start(requireApproval), past);
            c.st.trace <= Run(L, c, inputs).st.trace
  {
    RunKeepsInv(L, requireApproval, past);
    TraceGrowsFrom(L, Run(L, Start(requireApproval), past), inputs);
  }
}
