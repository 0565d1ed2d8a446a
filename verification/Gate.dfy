/** The human gate, read from the log of any run: no specialist works on a plan that needs
    approval before a human approved that very plan, a rejection is final, and a task is
    re-planned only before any work. */
module Gate {
  import opened Schemas
  import opened Graph
  import opened GraphInvariant
  import opened Traces

  /** The entry is not a specialist run, or its plan needed no approval, or had it. */
  predicate RunAllowed(L: Limits, requireApproval: bool, before: seq<Event>, e: Event) {
    e.EvRun? ==>
      var plan := LastPlan(before);
      plan.Some? && (Gated(L, plan.value, requireApproval) ==> Approved(before))
  }

  predicate GateHolds(L: Limits, requireApproval: bool, trace: seq<Event>) {
    forall k :: 0 <= k < |trace| ==> RunAllowed(L, requireApproval, trace[..k], trace[k])
  }

  /** A plan step comes before every run and every review. */
  predicate PlansComeFirst(trace: seq<Event>) {
    forall j, k :: 0 <= j < k < |trace| && trace[k].EvPlan? ==> !trace[j].EvRun? && !trace[j].EvReview?
  }

  predicate IsRejection(e: Event) {
    e.EvEscalation? && e.action.Reject?
  }

  predicate RejectionIsFinal(trace: seq<Event>) {
    forall j, k :: 0 <= j < k < |trace| && IsRejection(trace[j]) ==>
      (trace[k].EvDecision? && trace[k].action.Reject?) || trace[k].EvReject?
  }

  predicate Planned(pc: Node) {
    !pc.Intake? && !pc.PlanTask?
  }

  ghost predicate GateInv(L: Limits, c: Config) {
    var st := c.st;
    && GateHolds(L, st.requireApproval, st.trace)
    && (Planned(c.pc) ==> LastPlan(st.trace) == Some(st.plan))
    && (c.pc.RouteBatch? || c.pc.RunSpecialists? || c.pc.Review? || c.pc.ApplyReviewFeedback? ==>
          Gated(L, st.plan, st.requireApproval) ==> Approved(st.trace))
    && (c.pc.HumanEscalation? || c.pc.ApplyHumanDecision? ==>
          Gated(L, st.plan, st.requireApproval) ==>
            Approved(st.trace) || (st.completed == map[] && st.review.None?))
  }

  lemma GateSnoc(L: Limits, requireApproval: bool, trace: seq<Event>, e: Event)
    requires GateHolds(L, requireApproval, trace) && RunAllowed(L, requireApproval, trace, e)
    ensures GateHolds(L, requireApproval, trace + [e])
  {
    var t := trace + [e];
    forall k | 0 <= k < |t| ensures RunAllowed(L, requireApproval, t[..k], t[k]) {
      if k < |trace| {
        assert t[..k] == trace[..k];
      } else {
        assert t[..k] == trace;
      }
    }
  }

  lemma {:induction false} GateOverBatch(L: Limits, requireApproval: bool, trace: seq<Event>, batch: seq<Id>,
                                         answers: map<Id, Outcome>)
    requires GateHolds(L, requireApproval, trace)
    requires LastPlan(trace).Some?
    requires Gated(L, LastPlan(trace).value, requireApproval) ==> Approved(trace)
    ensures GateHolds(L, requireApproval, trace + RunEvents(batch, answers))
  {
    if batch == [] {
      assert trace + [] == trace;
    } else {
      var front, last := batch[..|batch|-1], batch[|batch|-1];
      var e := EvRun(last, AnswerFor(answers, last).success);
      GateOverBatch(L, requireApproval, trace, front, answers);
      RunEventsAreSilent(trace, front, answers);
      GateSnoc(L, requireApproval, trace + RunEvents(front, answers), e);
      AppendAssociates(trace, RunEvents(front, answers), e);
    }
  }

  lemma StepKeepsGate(L: Limits, c: Config, i: Input)
    requires Inv(L, c) && GateInv(L, c)
    ensures GateInv(L, Step(L, c, i))
  {
    var st := c.st;
    if c.pc.RunSpecialists? {
      BatchIsFound(L, st, c.pc.batch);
      RunBranchesEffect(st, st, c.pc.batch, i.answers);
      GateOverBatch(L, st.requireApproval, st.trace, c.pc.batch, i.answers);
      RunEventsAreSilent(st.trace, c.pc.batch, i.answers);
    } else {
      StepAppends(L, c, i);
      if !c.pc.RouteBatch? && !c.pc.End? {
        OneEventKeepsGate(L, c, i);
      }
    }
  }

  lemma DecisionKeepsGate(L: Limits, c: Config, i: Input)
    requires c.pc.ApplyHumanDecision? && DecisionApplies(c.st) && GateInv(L, c)
    requires !IsPlanSource(c.st.source.value) ==> c.st.completed != map[] || c.st.review.Some?
    ensures GateInv(L, Step(L, c, i))
  {
    var st := c.st;
    var e := EvDecision(st.source.value, st.decision.value.action, st.escalation.value.stuckIds);
    DecisionStepEffect(L, c, i);
    Snoc(st.trace, e);
    GateSnoc(L, st.requireApproval, st.trace, e);
  }

  lemma OneEventKeepsGate(L: Limits, c: Config, i: Input)
    requires Inv(L, c) && GateInv(L, c)
    requires !c.pc.RunSpecialists? && !c.pc.RouteBatch? && !c.pc.End?
    ensures GateInv(L, Step(L, c, i))
  {
    if c.pc.ApplyHumanDecision? {
      DecisionIsApplicable(L, c.st);
      DecisionKeepsGate(L, c, i);
    } else {
      var st := c.st;
      var next := Step(L, c, i);
      StepAppends(L, c, i);
      var e := next.st.trace[|st.trace|];
      assert next.st.trace == st.trace + [e] && !e.EvRun?;
      Snoc(st.trace, e);
      GateSnoc(L, st.requireApproval, st.trace, e);
    }
  }

  lemma BatchKeepsRequest(L: Limits, c: Config, i: Input)
    requires c.pc.RunSpecialists?
    ensures Step(L, c, i).st.requireApproval == c.st.requireApproval
  {
    if AllFound(c.st.plan, c.pc.batch) {
      RunBranchesEffect(c.st, c.st, c.pc.batch, i.answers);
    }
  }

  lemma RequestIsKept(L: Limits, c: Config, i: Input)
    ensures Step(L, c, i).st.requireApproval == c.st.requireApproval
  {
    if c.pc.RunSpecialists? { BatchKeepsRequest(L, c, i); }
  }

  lemma {:induction false} RunKeepsGate(L: Limits, requireApproval: bool, inputs: seq<Input>)
    ensures var c := Run(L, Start(requireApproval), inputs);
            GateInv(L, c) && c.st.requireApproval == requireApproval
  {
    if inputs != [] {
      var front := inputs[..|inputs|-1];
      RunKeepsGate(L, requireApproval, front);
      RunKeepsInv(L, requireApproval, front);
      var c := Run(L, Start(requireApproval), front);
      StepKeepsGate(L, c, inputs[|inputs|-1]);
      RequestIsKept(L, c, inputs[|inputs|-1]);
    }
  }

  lemma {:induction false} ApprovalIsInTheLog(trace: seq<Event>) returns (j: nat)
    requires Approved(trace)
    ensures j < |trace| && IsPlanApproval(trace[j])
    ensures forall m :: j < m < |trace| ==> !trace[m].EvPlan?
  {
    if IsPlanApproval(trace[|trace|-1]) {
      j := |trace| - 1;
    } else {
      j := ApprovalIsInTheLog(trace[..|trace|-1]);
    }
  }

  lemma {:induction false} PlanIsInTheLog(trace: seq<Event>) returns (j: nat)
    requires LastPlan(trace).Some?
    ensures j < |trace| && trace[j] == EvPlan(LastPlan(trace).value)
    ensures forall m :: j < m < |trace| ==> !trace[m].EvPlan?
  {
    if trace[|trace|-1].EvPlan? {
      j := |trace| - 1;
    } else {
      j := PlanIsInTheLog(trace[..|trace|-1]);
    }
  }

  lemma GateReadsBack(L: Limits, requireApproval: bool, trace: seq<Event>, k: nat) returns (p: nat, a: nat)
    requires k < |trace| && trace[k].EvRun? && RunAllowed(L, requireApproval, trace[..k], trace[k])
    ensures p < k && trace[p].EvPlan? && (forall m :: p < m < k ==> !trace[m].EvPlan?)
    ensures Gated(L, trace[p].plan, requireApproval) ==> p < a < k && IsPlanApproval(trace[a])
  {
    var before := trace[..k];
    p := PlanIsInTheLog(before);
    a := 0;
    assert trace[p] == before[p];
    forall m | p < m < k ensures !trace[m].EvPlan? { assert trace[m] == before[m]; }
    if Gated(L, trace[p].plan, requireApproval) {
      a := ApprovalIsInTheLog(before);
      assert trace[a] == before[a];
    }
  }

  /** The run at k belongs to the plan at p, which a human approved at a if it was unsure, sensitive, or
      if the caller asked for an approval. */
  predicate HasApprovedPlan(L: Limits, requireApproval: bool, trace: seq<Event>, p: nat, a: nat, k: nat)
    requires k < |trace|
  {
    && p < k && trace[p].EvPlan? && (forall m :: p < m < k ==> !trace[m].EvPlan?)
    && (|| trace[p].plan.confidence < L.planThreshold
        || (exists t :: t in trace[p].plan.subtasks && t.sensitive)
        || requireApproval ==>
          && p < a < k && trace[a].EvDecision? && trace[a].action.Approve?
          && (trace[a].source.PlanLowConfidence? || trace[a].source.PlanSensitive? || trace[a].source.PlanRequested?))
  }

  lemma ReadGate(L: Limits, requireApproval: bool, trace: seq<Event>, k: nat) returns (p: nat, a: nat)
    requires GateHolds(L, requireApproval, trace) && k < |trace| && trace[k].EvRun?
    ensures HasApprovedPlan(L, requireApproval, trace, p, a, k)
  {
    assert RunAllowed(L, requireApproval, trace[..k], trace[k]);
    p, a := GateReadsBack(L, requireApproval, trace, k);
  }

  /** Human gate: in the log of any run, every specialist run belongs to the plan proposed last
      before it, and if that plan needed approval, a human approved it in between. */
  lemma HumanGate(L: Limits, requireApproval: bool, inputs: seq<Input>, k: nat) returns (p: nat, a: nat)
    ensures var trace := Run(L, Start(requireApproval), inputs).st.trace;
            k < |trace| && trace[k].EvRun? ==> HasApprovedPlan(L, requireApproval, trace, p, a, k)
  {
    RunKeepsGate(L, requireApproval, inputs);
    var trace := Run(L, Start(requireApproval), inputs).st.trace;
    p, a := 0, 0;
    if k < |trace| && trace[k].EvRun? {
      p, a := ReadGate(L, requireApproval, trace, k);
    }
  }

  // ---------------------------------------------------------------- rejections

  predicate Rejecting(trace: seq<Event>) {
    exists j :: 0 <= j < |trace| && IsRejection(trace[j])
  }

  ghost predicate RejectInv(c: Config) {
    && RejectionIsFinal(c.st.trace)
    && (Rejecting(c.st.trace) ==>
          || c.pc.RejectTask? || c.pc.End?
          || (c.pc.ApplyHumanDecision? && c.st.decision.Some? && c.st.decision.value.action.Reject?))
  }

  lemma RunsDoNotReject(trace: seq<Event>, batch: seq<Id>, answers: map<Id, Outcome>)
    requires !Rejecting(trace)
    ensures !Rejecting(trace + RunEvents(batch, answers))
  {
    RunEventsAreRuns(batch, answers);
    var t := trace + RunEvents(batch, answers);
    forall j | 0 <= j < |t| ensures !IsRejection(t[j]) {
      assert if j < |trace| then t[j] == trace[j] else t[j] in RunEvents(batch, answers);
    }
  }

  lemma RejectSnoc(trace: seq<Event>, e: Event)
    requires RejectionIsFinal(trace)
    requires Rejecting(trace) ==> (e.EvDecision? && e.action.Reject?) || e.EvReject?
    ensures RejectionIsFinal(trace + [e])
    ensures Rejecting(trace + [e]) <==> Rejecting(trace) || IsRejection(e)
  {
    var t := trace + [e];
    assert forall j :: 0 <= j < |trace| ==> t[j] == trace[j];
    if IsRejection(e) { assert IsRejection(t[|trace|]); }
    if j :| 0 <= j < |trace| && IsRejection(trace[j]) { assert IsRejection(t[j]); }
  }

  lemma StepKeepsReject(L: Limits, c: Config, i: Input)
    requires Inv(L, c) && RejectInv(c)
    ensures RejectInv(Step(L, c, i))
  {
    StepAppends(L, c, i);
    if c.pc.RunSpecialists? {
      RunsDoNotReject(c.st.trace, c.pc.batch, i.answers);
    } else if !c.pc.RouteBatch? && !c.pc.End? {
      if c.pc.ApplyHumanDecision? { DecisionIsApplicable(L, c.st); }
      var e := Step(L, c, i).st.trace[|c.st.trace|];
      assert Step(L, c, i).st.trace == c.st.trace + [e];
      RejectSnoc(c.st.trace, e);
    }
  }

  /** After a REJECT nothing is executed, reviewed, synthesized or delivered any more. */
  lemma {:induction false} RejectionEndsTheTask(L: Limits, requireApproval: bool, inputs: seq<Input>)
    ensures RejectInv(Run(L, Start(requireApproval), inputs))
  {
    if inputs != [] {
      var front := inputs[..|inputs|-1];
      RejectionEndsTheTask(L, requireApproval, front);
      RunKeepsInv(L, requireApproval, front);
      StepKeepsReject(L, Run(L, Start(requireApproval), front), inputs[|inputs|-1]);
    }
  }

  // ---------------------------------------------------------------- re-planning

  /** `retry_counts` has a key for exactly the subtasks ever executed, whatever was reset since. */
  ghost predicate ReplanInv(c: Config) {
    && PlansComeFirst(c.st.trace)
    && Ran(c.st.trace) == c.st.retryCounts.Keys
    && LastReview(c.st.trace) == c.st.review
  }

  lemma {:induction false} NoReviewLogged(trace: seq<Event>)
    requires LastReview(trace).None?
    ensures forall k :: 0 <= k < |trace| ==> !trace[k].EvReview?
  {
    if trace != [] {
      NoReviewLogged(trace[..|trace|-1]);
    }
  }

  lemma PlansFirstAfterRuns(trace: seq<Event>, batch: seq<Id>, answers: map<Id, Outcome>)
    requires PlansComeFirst(trace)
    ensures PlansComeFirst(trace + RunEvents(batch, answers))
  {
    RunEventsAreRuns(batch, answers);
    var n := trace + RunEvents(batch, answers);
    forall k | |trace| <= k < |n| ensures !n[k].EvPlan? {
      assert n[k] in RunEvents(batch, answers);
    }
    assert forall k :: 0 <= k < |trace| ==> n[k] == trace[k];
  }

  lemma BatchKeepsReplan(L: Limits, c: Config, i: Input)
    requires Inv(L, c) && ReplanInv(c) && c.pc.RunSpecialists?
    ensures ReplanInv(Step(L, c, i))
  {
    BatchStepIs(L, c, i);
    PlansFirstAfterRuns(c.st.trace, c.pc.batch, i.answers);
    RunEventsAreSilent(c.st.trace, c.pc.batch, i.answers);
    RanOverBatch(c.st.trace, c.pc.batch, i.answers);
  }

  lemma EventKeepsReplan(c: Config, n: Config, e: Event)
    requires ReplanInv(c) && n.st.trace == c.st.trace + [e] && !e.EvRun?
    requires n.st.retryCounts.Keys == c.st.retryCounts.Keys
    requires if e.EvReview? then n.st.review == Some(e.review) else n.st.review == c.st.review
    requires e.EvPlan? ==> c.st.retryCounts.Keys == {} && c.st.review.None?
    ensures ReplanInv(n)
  {
    Snoc(c.st.trace, e);
    if e.EvPlan? {
      RanMeansLogged(c.st.trace);
      NoReviewLogged(c.st.trace);
    }
  }

  lemma DecisionKeepsKeys(st: State)
    requires DecisionApplies(st)
    requires st.source.value.SpecialistRetry? ==> st.escalation.value.stuckIds <= st.retryCounts.Keys
    ensures DecisionUpdate(st).retryCounts.Keys == st.retryCounts.Keys
  {
  }

  lemma StepKeepsReplan(L: Limits, c: Config, i: Input)
    requires Inv(L, c) && ReplanInv(c)
    ensures ReplanInv(Step(L, c, i))
  {
    if c.pc.RunSpecialists? {
      BatchKeepsReplan(L, c, i);
    } else if !c.pc.RouteBatch? && !c.pc.End? {
      StepAppends(L, c, i);
      if c.pc.ApplyHumanDecision? {
        DecisionIsApplicable(L, c.st);
        DecisionKeepsKeys(c.st);
      }
      var n := Step(L, c, i);
      var e := n.st.trace[|c.st.trace|];
      assert n.st.trace == c.st.trace + [e];
      EventKeepsReplan(c, n, e);
    }
  }

  /** Whenever a plan is asked for, the first time or again, nothing of an older plan is left in the
      state and nothing of it was ever executed or reviewed, although `plan_task` itself clears
      nothing: a run executes at most one plan. */
  lemma {:induction false} ReplanningStartsClean(L: Limits, requireApproval: bool, inputs: seq<Input>)
    ensures var c := Run(L, Start(requireApproval), inputs);
            ReplanInv(c) && (c.pc.PlanTask? ==> Clean(c.st) && Ran(c.st.trace) == {} && LastReview(c.st.trace).None?)
  {
    RunKeepsInv(L, requireApproval, inputs);
    if inputs != [] {
      var front := inputs[..|inputs|-1];
      ReplanningStartsClean(L, requireApproval, front);
      RunKeepsInv(L, requireApproval, front);
      StepKeepsReplan(L, Run(L, Start(requireApproval), front), inputs[|inputs|-1]);
    }
  }
}
