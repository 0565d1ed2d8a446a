/** The orchestrator always comes to rest: it reaches a human interrupt or the end within an
    explicit number of super-steps, for any plan and any answers. */
module Termination {
  import opened Schemas
  import opened Graph
  import opened GraphInvariant
  import opened Fuel

  predicate Halted(c: Config) {
    c.pc.HumanEscalation? || c.pc.End?
  }

  /** Reviews the limit still allows before the reviewer's verdict must go to a human. */
  function CyclesLeft(L: Limits, st: State): nat {
    AtLeast(0, L.maxCycles - st.reviewCycles)
  }

  function CycleWeight(L: Limits, plan: Plan): nat {
    2 * Capacity(L, plan) + 4
  }

  /** The steps still possible from a configuration that has its plan. */
  function Budget(L: Limits, c: Config): nat {
    var cycles := CyclesLeft(L, c.st) * CycleWeight(L, c.st.plan);
    match c.pc
    case RouteBatch => cycles + 2 * FuelIn(L, c.st) + 6
    case RunSpecialists(_) => cycles + 2 * FuelIn(L, c.st) + 5
    case Review => cycles + 4
    case ApplyReviewFeedback => cycles + 2 * Capacity(L, c.st.plan) + 7
    case NotifyHuman => 3
    case Synthesize => 2
    case Deliver => 1
    case RejectTask => 1
    case _ => 0
  }

  predicate HasPlan(pc: Node) {
    !pc.Intake? && !pc.PlanTask? && !pc.ApplyHumanDecision?
  }

  lemma CycleSpent(cycles: nat, weight: nat)
    requires cycles > 0
    ensures cycles * weight == (cycles - 1) * weight + weight
  {
  }

  lemma ReviewSpendsBudget(L: Limits, c: Config, i: Input)
    requires Inv(L, c) && c.pc.Review?
    ensures Budget(L, Step(L, c, i)) < Budget(L, c)
  {
    if Step(L, c, i).pc.ApplyReviewFeedback? {
      CycleSpent(CyclesLeft(L, c.st), CycleWeight(L, c.st.plan));
    }
  }

  lemma LeavingTheScheduler(L: Limits, st: State, pc: Node)
    requires pc.RunSpecialists? || pc.HumanEscalation? || pc.Review?
    ensures Budget(L, Config(st, pc)) < Budget(L, Config(st, RouteBatch))
  {
  }

  lemma ScheduleSpendsBudget(L: Limits, c: Config, i: Input)
    requires c.pc.RouteBatch?
    ensures Budget(L, Step(L, c, i)) < Budget(L, c)
  {
    var pc := match DecideNextBatch(L, c.st)
      case Escalate => HumanEscalation
      case Batch(ids) => RunSpecialists(ids)
      case ToReview => Review;
    assert c == Config(c.st, RouteBatch) && Step(L, c, i) == Config(c.st, pc);
    LeavingTheScheduler(L, c.st, pc);
  }

  lemma SpecialistsSpendBudget(L: Limits, c: Config, i: Input)
    requires Inv(L, c) && c.pc.RunSpecialists?
    ensures Budget(L, Step(L, c, i)) < Budget(L, c)
  {
    BatchIsFound(L, c.st, c.pc.batch);
    BranchesBurnFuel(L, c.st, c.pc.batch, i.answers);
    RunBranchesEffect(c.st, c.st, c.pc.batch, i.answers);
  }

  lemma FeedbackSpendsBudget(L: Limits, c: Config, i: Input)
    requires Inv(L, c) && c.pc.ApplyReviewFeedback?
    ensures Budget(L, Step(L, c, i)) < Budget(L, c)
  {
    FeedbackKeepsInv(c.st);
    FuelWithinCapacity(L, Step(L, c, i).st);
  }

  /** Every step of a reachable configuration that is not at rest lowers the measure. */
  lemma StepSpendsBudget(L: Limits, c: Config, i: Input)
    requires Inv(L, c) && HasPlan(c.pc) && !Halted(c)
    ensures Budget(L, Step(L, c, i)) < Budget(L, c)
    ensures HasPlan(Step(L, c, i).pc) && Step(L, c, i).st.plan == c.st.plan
  {
    match c.pc
    case RouteBatch => ScheduleSpendsBudget(L, c, i);
    case RunSpecialists(batch) =>
      SpecialistsSpendBudget(L, c, i);
      BatchIsFound(L, c.st, batch);
      RunBranchesEffect(c.st, c.st, batch, i.answers);
    case Review => ReviewSpendsBudget(L, c, i);
    case ApplyReviewFeedback => FeedbackSpendsBudget(L, c, i);
    case _ =>
  }

  ghost predicate RestsAfter(L: Limits, c: Config, inputs: seq<Input>, k: nat)
    requires k <= |inputs|
  {
    Halted(Run(L, c, inputs[..k]))
  }

  ghost predicate NeverAtRest(L: Limits, c: Config, inputs: seq<Input>) {
    forall k :: 0 <= k < |inputs| ==> !RestsAfter(L, c, inputs, k)
  }

  lemma NeverAtRestPrefix(L: Limits, c: Config, inputs: seq<Input>)
    requires inputs != [] && NeverAtRest(L, c, inputs)
    ensures NeverAtRest(L, c, inputs[..|inputs|-1]) && !Halted(Run(L, c, inputs[..|inputs|-1]))
  {
    var front := inputs[..|inputs|-1];
    assert !RestsAfter(L, c, inputs, |front|);
    forall k | 0 <= k < |front| ensures !RestsAfter(L, c, front, k) {
      assert front[..k] == inputs[..k];
      assert !RestsAfter(L, c, inputs, k);
    }
  }

  lemma {:induction false} BudgetBoundsRun(L: Limits, c: Config, inputs: seq<Input>)
    requires Inv(L, c) && HasPlan(c.pc) && NeverAtRest(L, c, inputs)
    ensures var d := Run(L, c, inputs);
            && Inv(L, d) && HasPlan(d.pc) && d.st.plan == c.st.plan
            && |inputs| + Budget(L, d) <= Budget(L, c)
  {
    if inputs != [] {
      var front := inputs[..|inputs|-1];
      NeverAtRestPrefix(L, c, inputs);
      BudgetBoundsRun(L, c, front);
      StepKeepsInv(L, Run(L, c, front), inputs[|inputs|-1]);
      StepSpendsBudget(L, Run(L, c, front), inputs[|inputs|-1]);
    }
  }

  /** The longest stretch of super-steps any plan allows without a human. */
  function Ceiling(L: Limits, plan: Plan): nat {
    AtLeast(0, L.maxCycles) * CycleWeight(L, plan) + 2 * Capacity(L, plan) + 7
  }

  lemma BudgetBelowCeiling(L: Limits, c: Config)
    requires Inv(L, c) && HasPlan(c.pc)
    ensures Budget(L, c) <= Ceiling(L, c.st.plan)
  {
    if c.pc.RouteBatch? || c.pc.RunSpecialists? || c.pc.Review? || c.pc.ApplyReviewFeedback? {
      FuelWithinCapacity(L, c.st);
      ProductMonotone(CyclesLeft(L, c.st), AtLeast(0, L.maxCycles), CycleWeight(L, c.st.plan));
    }
  }

  lemma ProductMonotone(a: nat, b: nat, w: nat)
    requires a <= b
    ensures a * w <= b * w
  {
  }

  /** The steps that may pass before a plan is in place. */
  function Lead(pc: Node): nat {
    match pc
    case ApplyHumanDecision => 2
    case Intake => 2
    case PlanTask => 1
    case _ => 0
  }

  lemma {:induction false} RunSplits(L: Limits, c: Config, i: Input, rest: seq<Input>)
    ensures Run(L, c, [i] + rest) == Run(L, Step(L, c, i), rest)
  {
    var all := [i] + rest;
    if rest == [] {
      assert all == [i] && all[..0] == [];
    } else {
      assert all[..|all|-1] == [i] + rest[..|rest|-1];
      RunSplits(L, c, i, rest[..|rest|-1]);
    }
  }

  lemma RunFromNext(L: Limits, c: Config, inputs: seq<Input>)
    requires inputs != [] && NeverAtRest(L, c, inputs)
    ensures Run(L, c, inputs) == Run(L, Step(L, c, inputs[0]), inputs[1..])
    ensures NeverAtRest(L, Step(L, c, inputs[0]), inputs[1..])
  {
    assert inputs == [inputs[0]] + inputs[1..];
    RunSplits(L, c, inputs[0], inputs[1..]);
    forall k | 0 <= k < |inputs[1..]| ensures !RestsAfter(L, Step(L, c, inputs[0]), inputs[1..], k) {
      RunSplits(L, c, inputs[0], inputs[1..][..k]);
      assert inputs[..k+1] == [inputs[0]] + inputs[1..][..k];
      assert !RestsAfter(L, c, inputs, k + 1);
    }
  }

  /** An intake, a plan or a decision is at most two steps away from a plan to run. */
  lemma LeadDrops(L: Limits, c: Config, i: Input)
    requires Inv(L, c) && !HasPlan(c.pc)
    ensures Lead(Step(L, c, i).pc) < Lead(c.pc)
  {
    if c.pc.ApplyHumanDecision? { DecisionIsApplicable(L, c.st); }
  }

  lemma {:induction false} EveryStretchFrom(L: Limits, c: Config, inputs: seq<Input>)
    requires Inv(L, c) && NeverAtRest(L, c, inputs)
    ensures |inputs| <= Lead(c.pc) + Ceiling(L, Run(L, c, inputs).st.plan)
    decreases Lead(c.pc)
  {
    if HasPlan(c.pc) {
      BudgetBoundsRun(L, c, inputs);
      BudgetBelowCeiling(L, c);
    } else if inputs != [] {
      var next := Step(L, c, inputs[0]);
      StepKeepsInv(L, c, inputs[0]);
      LeadDrops(L, c, inputs[0]);
      RunFromNext(L, c, inputs);
      EveryStretchFrom(L, next, inputs[1..]);
    }
  }

  /** From any reachable configuration, under any answers, a stretch of steps without an interrupt
      and without the end is no longer than the ceiling of the plan it runs. */
  lemma EveryStretchIsBounded(L: Limits, requireApproval: bool, past: seq<Input>, inputs: seq<Input>)
    requires NeverAtRest(L, Run(L, Start(requireApproval), past), inputs)
    ensures |inputs| <= 2 + Ceiling(L, Run(L, Run(L, Start(requireApproval), past), inputs).st.plan)
  {
    RunKeepsInv(L, requireApproval, past);
    EveryStretchFrom(L, Run(L, Start(requireApproval), past), inputs);
  }

  /** A fresh task given enough steps does come to rest. */
  lemma EveryTaskComesToRest(L: Limits, requireApproval: bool, inputs: seq<Input>)
    requires |inputs| >= 2 && |inputs| > 2 + Ceiling(L, inputs[1].plan)
    ensures exists k :: 0 <= k < |inputs| && RestsAfter(L, Start(requireApproval), inputs, k)
  {
    var c := Start(requireApproval);
    if NeverAtRest(L, c, inputs) {
      var c1 := Step(L, c, inputs[0]);
      var c2 := Step(L, c1, inputs[1]);
      RunFromNext(L, c, inputs);
      RunFromNext(L, c1, inputs[1..]);
      assert inputs[1..][0] == inputs[1];
      assert Inv(L, c);
      StepKeepsInv(L, c, inputs[0]);
      StepKeepsInv(L, c1, inputs[1]);
      BudgetBoundsRun(L, c2, inputs[1..][1..]);
      BudgetBelowCeiling(L, c2);
    }
  }
}
