/** What a healthy plan gets: it is reviewed within a stated number of steps, without a human. */
module Completion {
  import opened Schemas
  import opened Graph
  import opened Plans
  import opened GraphInvariant
  import opened Progress
  import opened Traces

  /** No human need see the plan, and all of it can be done. */
  ghost predicate Healthy(L: Limits, plan: Plan) {
    !Gated(L, plan, false) && Acyclic(plan)
  }

  /** The specialists succeed on every subtask, in every step. */
  predicate AlwaysSucceeding(plan: Plan, inputs: seq<Input>) {
    forall k :: 0 <= k < |inputs| ==> Succeeding(plan, inputs[k])
  }

  predicate Succeeding(plan: Plan, i: Input) {
    forall id :: id in ById(plan.subtasks) ==> AnswerFor(i.answers, id).success
  }

  predicate NoHumanAsked(trace: seq<Event>) {
    forall k :: 0 <= k < |trace| ==> !trace[k].EvEscalation?
  }

  ghost predicate OnTrack(st: State) {
    PlanInv(st) && Acyclic(st.plan) && NoFailureOutside(st, {}) && NoHumanAsked(st.trace)
  }

  lemma RunsAskNoHuman(trace: seq<Event>, batch: seq<Id>, answers: map<Id, Outcome>)
    requires NoHumanAsked(trace)
    ensures NoHumanAsked(trace + RunEvents(batch, answers))
  {
    var t := trace + RunEvents(batch, answers);
    RunEventsAreRuns(batch, answers);
    forall k | 0 <= k < |t| ensures !t[k].EvEscalation? {
      assert if k < |trace| then t[k] == trace[k] else t[k] in RunEvents(batch, answers);
    }
  }

  function Missing(st: State): int {
    |Subtasks(st)| - |st.completed|
  }

  lemma SubsetSize(a: set<Id>, b: set<Id>)
    requires a <= b
    ensures |a| <= |b| && (|a| == |b| ==> a == b)
  {
    assert b == a + (b - a);
  }

  lemma ResultsWithinPlan(st: State)
    requires PlanInv(st)
    ensures Missing(st) >= 0
  {
    SubsetSize(st.completed.Keys, Subtasks(st).Keys);
  }

  /** The scheduler dispatches what is missing, or asks for the review once nothing is. */
  lemma OnTrackVerdict(L: Limits, st: State)
    requires OnTrack(st)
    ensures AllSucceeded(st) ==> DecideNextBatch(L, st).ToReview?
    ensures !AllSucceeded(st) ==> DecideNextBatch(L, st).Batch?
  {
    assert !SomeStuck(L, st);
    VerdictWithoutStuck(L, st);
    AcyclicIffAllCompletable(st.plan);
    if !AllSucceeded(st) {
      var id :| id in Subtasks(st) && !Succeeded(st.completed, id);
      assert Unfinished(st, id);
    }
  }

  lemma BatchIsMissing(L: Limits, st: State, batch: seq<Id>)
    requires OnTrack(st) && ValidBatch(L, st, batch)
    ensures forall id :: id in batch ==> id !in st.completed && id in Subtasks(st)
  {
    forall id | id in batch ensures id !in st.completed && id in Subtasks(st) {
      assert IsReady(L, st, id);
    }
  }

  lemma SuccessesOnly(st: State, batch: seq<Id>, answers: map<Id, Outcome>)
    requires NoFailureOutside(st, {}) && AllFound(st.plan, batch)
    requires forall id :: id in batch ==> AnswerFor(answers, id).success
    ensures var completed := st.completed + BatchResults(st, batch, answers);
            forall id :: !Failed(completed, id)
  {
    forall id ensures !Failed(st.completed + BatchResults(st, batch, answers), id) {
      assert !Failed(st.completed, id);
    }
  }

  lemma MoreResults(st: State, batch: seq<Id>, answers: map<Id, Outcome>)
    requires AllFound(st.plan, batch) && batch != [] && batch[0] !in st.completed
    ensures |st.completed + BatchResults(st, batch, answers)| > |st.completed|
  {
    var completed := st.completed + BatchResults(st, batch, answers);
    SubsetSize(st.completed.Keys, completed.Keys);
    assert batch[0] in completed.Keys && batch[0] !in st.completed.Keys;
    assert |completed.Keys| == |completed|;
  }

  /** A super-step of successes stays on track and leaves less missing. */
  lemma SuccessfulBatch(L: Limits, c: Config, i: Input)
    requires Inv(L, c) && OnTrack(c.st) && c.pc.RunSpecialists? && Succeeding(c.st.plan, i)
    ensures var n := Step(L, c, i);
            && Inv(L, n) && n.pc.RouteBatch? && n.st.plan == c.st.plan && OnTrack(n.st)
            && Missing(n.st) < Missing(c.st)
  {
    StepKeepsInv(L, c, i);
    BatchStepIs(L, c, i);
    BatchIsMissing(L, c.st, c.pc.batch);
    SuccessesOnly(c.st, c.pc.batch, i.answers);
    MoreResults(c.st, c.pc.batch, i.answers);
    RunsAskNoHuman(c.st.trace, c.pc.batch, i.answers);
  }

  /** Dispatch and super-step. */
  lemma OneRound(L: Limits, c: Config, i: Input, j: Input) returns (m: Config, n: Config)
    requires c.pc.RouteBatch? && OnTrack(c.st) && !AllSucceeded(c.st) && Succeeding(c.st.plan, j)
    ensures m == Step(L, c, i) && n == Step(L, m, j)
    ensures n.pc.RouteBatch? && n.st.plan == c.st.plan && OnTrack(n.st)
    ensures 0 <= Missing(n.st) < Missing(c.st)
  {
    OnTrackVerdict(L, c.st);
    StepKeepsInv(L, c, i);
    m := Config(c.st, RunSpecialists(DecideNextBatch(L, c.st).ids));
    SuccessfulBatch(L, m, j);
    n := Step(L, m, j);
    ResultsWithinPlan(n.st);
  }

  lemma FirstTwo(L: Limits, c: Config, m: Config, n: Config, inputs: seq<Input>) returns (path: seq<Config>)
    requires |inputs| >= 2 && m == Step(L, c, inputs[0]) && n == Step(L, m, inputs[1])
    ensures path == [c, m, n] && IsPath(L, path, inputs[..2])
  {
    path := [c, m, n];
    assert Follows(L, path, inputs[..2], 0) && Follows(L, path, inputs[..2], 1);
  }

  lemma NothingMissing(L: Limits, c: Config, i: Input)
    requires c.pc.RouteBatch? && OnTrack(c.st) && AllSucceeded(c.st)
    ensures Step(L, c, i) == Config(c.st, Review)
  {
    OnTrackVerdict(L, c.st);
  }

  lemma SomethingMissing(st: State)
    requires OnTrack(st) && !AllSucceeded(st)
    ensures Missing(st) > 0
  {
    SubsetSize(st.completed.Keys, Subtasks(st).Keys);
    if st.completed.Keys == Subtasks(st).Keys {
      forall id | id in Subtasks(st) ensures Succeeded(st.completed, id) {
        assert !Failed(st.completed, id) && id in st.completed.Keys;
      }
    }
  }

  /** A path to a review of the plan that sees all its subtasks. */
  ghost predicate ToReview(L: Limits, plan: Plan, path: seq<Config>, inputs: seq<Input>) {
    && IsPath(L, path, inputs)
    && var n := path[|inputs|]; n.pc.Review? && n.st.plan == plan && AllSucceeded(n.st) && NoHumanAsked(n.st.trace)
  }

  lemma ReviewPath(L: Limits, c: Config, inputs: seq<Input>) returns (path: seq<Config>)
    requires inputs != [] && c.pc.RouteBatch? && OnTrack(c.st) && AllSucceeded(c.st)
    ensures ToReview(L, c.st.plan, path, inputs[..1]) && path[0] == c
  {
    NothingMissing(L, c, inputs[0]);
    path := [c, Config(c.st, Review)];
    assert Follows(L, path, inputs[..1], 0);
  }

  lemma SuccessesAhead(plan: Plan, inputs: seq<Input>)
    requires |inputs| >= 2 && AlwaysSucceeding(plan, inputs)
    ensures Succeeding(plan, inputs[1]) && AlwaysSucceeding(plan, inputs[2..])
  {
    forall k | 0 <= k < |inputs| - 2 ensures Succeeding(plan, inputs[2..][k]) {
      assert Succeeding(plan, inputs[k + 2]);
    }
  }

  /** Round after round, until nothing is missing: the path to the review. */
  lemma {:induction false} RoundsToReview(L: Limits, c: Config, inputs: seq<Input>) returns (path: seq<Config>, k: nat)
    requires c.pc.RouteBatch? && OnTrack(c.st) && AlwaysSucceeding(c.st.plan, inputs)
    requires |inputs| >= 2 * Missing(c.st) + 1
    ensures k <= 2 * Missing(c.st) + 1 && k <= |inputs|
    ensures ToReview(L, c.st.plan, path, inputs[..k]) && path[0] == c
    decreases Missing(c.st)
  {
    if AllSucceeded(c.st) {
      ResultsWithinPlan(c.st);
      path := ReviewPath(L, c, inputs);
      k := 1;
    } else {
      SomethingMissing(c.st);
      SuccessesAhead(c.st.plan, inputs);
      var m, n := OneRound(L, c, inputs[0], inputs[1]);
      var rest, j := RoundsToReview(L, n, inputs[2..]);
      path, k := AfterTwo(L, c.st.plan, c, m, n, inputs, rest, j);
    }
  }

  /** The way to the review, from two steps earlier. */
  lemma AfterTwo(L: Limits, plan: Plan, c: Config, m: Config, n: Config, inputs: seq<Input>, rest: seq<Config>, j: nat)
    returns (path: seq<Config>, k: nat)
    requires j + 2 <= |inputs| && m == Step(L, c, inputs[0]) && n == Step(L, m, inputs[1])
    requires ToReview(L, plan, rest, inputs[2..][..j]) && rest[0] == n
    ensures k == j + 2 && ToReview(L, plan, path, inputs[..k]) && path[0] == c
  {
    var two := FirstTwo(L, c, m, n, inputs);
    path, k := JoinPaths(L, plan, two, inputs, rest, j);
  }

  lemma JoinPaths(L: Limits, plan: Plan, two: seq<Config>, inputs: seq<Input>, rest: seq<Config>, j: nat)
    returns (path: seq<Config>, k: nat)
    requires j + 2 <= |inputs| && IsPath(L, two, inputs[..2])
    requires ToReview(L, plan, rest, inputs[2..][..j]) && rest[0] == two[2]
    ensures k == j + 2 && ToReview(L, plan, path, inputs[..k]) && path[0] == two[0]
  {
    k := j + 2;
    path := two[..2] + rest;
    forall m | 0 <= m < k ensures Follows(L, path, inputs[..k], m) {
      if m < 2 {
        assert Follows(L, two, inputs[..2], m);
      } else {
        assert Follows(L, rest, inputs[2..][..j], m - 2);
      }
    }
  }

  lemma PlannedHealthy(L: Limits, i: Input, j: Input) returns (m: Config, n: Config)
    requires Healthy(L, j.plan)
    ensures m == Step(L, Start(false), i) && n == Step(L, m, j)
    ensures n.pc.RouteBatch? && n.st.plan == j.plan && OnTrack(n.st)
    ensures Missing(n.st) == |ById(j.plan.subtasks)|
  {
    m := Step(L, Start(false), i);
    n := Step(L, m, j);
    assert Inv(L, Start(false));
    StepKeepsInv(L, Start(false), i);
    StepKeepsInv(L, m, j);
  }

  /** A plan with closed, acyclic dependencies that needs no approval, whose specialists succeed,
      is reviewed after at most 2n + 3 steps, n being the number of its distinct ids, with no human
      asked; that review sees all its subtasks. */
  lemma HealthyPlansReachReview(L: Limits, inputs: seq<Input>) returns (k: nat)
    requires |inputs| >= 2 && Healthy(L, inputs[1].plan) && AlwaysSucceeding(inputs[1].plan, inputs)
    requires |inputs| >= 2 * |ById(inputs[1].plan.subtasks)| + 3
    ensures k <= 2 * |ById(inputs[1].plan.subtasks)| + 3 && k <= |inputs|
    ensures var c := Run(L, Start(false), inputs[..k]);
            c.pc.Review? && c.st.plan == inputs[1].plan && AllSucceeded(c.st) && NoHumanAsked(c.st.trace)
  {
    SuccessesAhead(inputs[1].plan, inputs);
    var m, n := PlannedHealthy(L, inputs[0], inputs[1]);
    var rest, j := RoundsToReview(L, n, inputs[2..]);
    var path;
    path, k := AfterTwo(L, inputs[1].plan, Start(false), m, n, inputs, rest, j);
    PathIsRun(L, path, inputs[..k]);
  }
}
