/** The bound of `Unattended` is exact: whatever the limits, a run of one subtask attains it. */
module Attained {
  import opened Schemas
  import opened Graph
  import opened GraphInvariant
  import opened Accounting
  import opened Unattended

  const A: Id := "a"
  const SOLO: SubTask := SubTask(A, Research, [], false)
  const REDO: ReviewResult := ReviewResult(false, 0.0, "again", [A], false)

  /** One subtask, just confident enough to need no approval. */
  function SoloPlan(L: Limits): Plan {
    Plan([SOLO], L.planThreshold)
  }

  function Answering(L: Limits, ok: bool): Input {
    Input(SoloPlan(L), map[A := Outcome(ok, "text")], REDO, HumanDecision(Approve, None, None), "out")
  }

  lemma SoloLookups(L: Limits)
    ensures ById(SoloPlan(L).subtasks) == map[A := SOLO]
    ensures OrderedIds(SoloPlan(L).subtasks) == [A]
    ensures FirstMatch(SoloPlan(L).subtasks, A) == Some(SOLO)
  {
    var sts := SoloPlan(L).subtasks;
    assert sts[..0] == [];
    assert ById(sts[..0]) == map[];
    assert OrderedIds(sts[..0]) == [];
    assert FirstMatch(sts[..0], A) == None;
  }

  /** The subtask can be dispatched. */
  predicate Due(L: Limits, st: State) {
    && st.plan == SoloPlan(L) && st.completed.Keys <= {A}
    && !Succeeded(st.completed, A) && !IsStuck(L, st, A)
  }

  predicate Done(L: Limits, st: State) {
    st.plan == SoloPlan(L) && st.completed.Keys <= {A} && Succeeded(st.completed, A)
  }

  lemma SoloReady(L: Limits, st: State)
    requires Due(L, st) || Done(L, st)
    ensures ReadyAmong(L, st, [A]) == (if Due(L, st) then [A] else []) && !SomeStuck(L, st)
  {
    SoloLookups(L);
    assert [A][..0] == [] && ReadyAmong(L, st, []) == [];
    assert Subtasks(st)[A].dependsOn == [];
  }

  lemma SoloVerdict(L: Limits, st: State)
    requires Due(L, st) || Done(L, st)
    ensures Due(L, st) ==> DecideNextBatch(L, st) == Batch([A])
    ensures Done(L, st) ==> DecideNextBatch(L, st) == ToReview
  {
    SoloLookups(L);
    SoloReady(L, st);
    if Done(L, st) {
      assert st.completed.Keys == {A} && |st.completed| == |st.completed.Keys|;
      assert |Subtasks(st)| == |Subtasks(st).Keys| && Subtasks(st).Keys == {A};
    }
  }

  /** After a specialist round from `s`: one more run in the log, one more failure if it failed. */
  ghost predicate After(s: State, d: State, ok: bool) {
    && d == s.(completed := d.completed, retryCounts := d.retryCounts, trace := s.trace + [EvRun(A, ok)])
    && d.completed.Keys == {A} && d.completed[A].success == ok
    && RetriesOf(d.retryCounts, A) == RetriesOf(s.retryCounts, A) + (if ok then 0 else 1)
  }

  lemma SoloEvents(L: Limits, ok: bool)
    ensures RunEvents([A], Answering(L, ok).answers) == [EvRun(A, ok)]
  {
    assert [A][..0] == [];
    assert RunEvents([], Answering(L, ok).answers) == [];
  }

  lemma SoloResults(L: Limits, st: State, ok: bool)
    requires st.completed.Keys <= {A} && AllFound(st.plan, [A])
    ensures var answers := Answering(L, ok).answers;
            var completed := st.completed + BatchResults(st, [A], answers);
            && completed.Keys == {A} && completed[A].success == ok
            && RetriesOf(st.retryCounts + BatchCounts(st, [A], answers), A)
               == RetriesOf(st.retryCounts, A) + (if ok then 0 else 1)
  {
  }

  lemma SoloBranch(L: Limits, st: State, ok: bool)
    requires st.plan == SoloPlan(L) && st.completed.Keys <= {A}
    ensures AllFound(st.plan, [A]) && After(st, RunBranches(st, st, [A], Answering(L, ok).answers), ok)
  {
    SoloLookups(L);
    SoloEvents(L, ok);
    SoloResults(L, st, ok);
    RunBranchesEffect(st, st, [A], Answering(L, ok).answers);
  }

  lemma SoloRun(L: Limits, st: State, ok: bool) returns (d: Config)
    requires st.plan == SoloPlan(L) && st.completed.Keys <= {A}
    ensures d == Step(L, Config(st, RunSpecialists([A])), Answering(L, ok))
    ensures d.pc == RouteBatch && After(st, d.st, ok)
  {
    SoloBranch(L, st, ok);
    d := Config(RunBranches(st, st, [A], Answering(L, ok).answers), RouteBatch);
  }

  /** Dispatch and run. */
  lemma Round(L: Limits, st: State, ok: bool) returns (m: Config, d: Config)
    requires Due(L, st)
    ensures m == Step(L, Config(st, RouteBatch), Answering(L, ok)) && d == Step(L, m, Answering(L, ok))
    ensures d.pc == RouteBatch && After(st, d.st, ok)
  {
    SoloVerdict(L, st);
    m := Config(st, RunSpecialists([A]));
    d := SoloRun(L, st, ok);
  }

  /** What the two steps of a review that asks for a redo leave. */
  ghost predicate SentBack(s: State, d: State) {
    && d.plan == s.plan && d.completed == map[] && d.retryCounts == s.retryCounts
    && d.reviewCycles == s.reviewCycles + 1 && d.trace == s.trace + [EvReview(REDO)] + [EvFeedback([A])]
  }

  lemma Reviewed(L: Limits, st: State, i: Input) returns (m: Config, d: Config)
    requires Done(L, st) && i.review == REDO && st.reviewCycles + 1 < L.maxCycles
    ensures m == Step(L, Config(st, Review), i) && d == Step(L, m, i)
    ensures d.pc == RouteBatch && SentBack(st, d.st)
  {
    m := Config(ReviewNode(st, REDO), ApplyReviewFeedback);
    assert IdSet(REDO.redo) == {A};
    d := Step(L, m, i);
  }

  // ---------------------------------------------------------------- the run

  /** The state is at the scheduler, unattended, after so many runs of the subtask. */
  ghost predicate Reached(L: Limits, c: Config, inputs: seq<Input>, runs: nat) {
    && c == Run(L, Start(false), inputs) && c.pc == RouteBatch && Undecided(c.st.trace)
    && RunsOf(c.st.trace, A) == runs
  }

  lemma Extend(L: Limits, inputs: seq<Input>, i: Input, c: Config, d: Config)
    requires c == Run(L, Start(false), inputs) && d == Step(L, c, i)
    ensures d == Run(L, Start(false), inputs + [i])
  {
    RunSnoc(L, Start(false), inputs, i);
  }

  lemma Quiet(trace: seq<Event>, e: Event)
    requires Undecided(trace) && !e.EvDecision?
    ensures Undecided(trace + [e])
    ensures RunsOf(trace + [e], A) == RunsOf(trace, A) + (if e.EvRun? && e.id == A then 1 else 0)
  {
    RunsSnoc(trace, e, A);
  }

  lemma Planned(L: Limits) returns (c: Config, inputs: seq<Input>)
    ensures Reached(L, c, inputs, 0) && c.st.plan == SoloPlan(L) && Clean(c.st)
  {
    var i := Answering(L, true);
    var m := Step(L, Start(false), i);
    assert forall t :: t in SoloPlan(L).subtasks ==> t == SOLO;
    c := Step(L, m, i);
    assert [] + [i] == [i];
    Extend(L, [], i, Start(false), m);
    Extend(L, [i], i, m, c);
    inputs := [i] + [i];
    Quiet([], EvIntake);
    Quiet([] + [EvIntake], EvPlan(i.plan));
    assert c.st.trace == [] + [EvIntake] + [EvPlan(i.plan)];
  }

  /** One round more. */
  lemma RunOnce(L: Limits, c: Config, past: seq<Input>, runs: nat, ok: bool) returns (d: Config, inputs: seq<Input>)
    requires Reached(L, c, past, runs) && Due(L, c.st)
    ensures Reached(L, d, inputs, runs + 1) && After(c.st, d.st, ok)
  {
    var i := Answering(L, ok);
    var m;
    m, d := Round(L, c.st, ok);
    assert c == Config(c.st, RouteBatch);
    Extend(L, past, i, c, m);
    Extend(L, past + [i], i, m, d);
    inputs := past + [i] + [i];
    Quiet(c.st.trace, EvRun(A, ok));
  }

  /** One redo more: review, feedback, and a round. */
  lemma RedoOnce(L: Limits, c: Config, past: seq<Input>, runs: nat, ok: bool) returns (d: Config, inputs: seq<Input>)
    requires Reached(L, c, past, runs) && Done(L, c.st) && c.st.reviewCycles + 1 < L.maxCycles
    requires RetriesOf(c.st.retryCounts, A) < Limit(L)
    ensures Reached(L, d, inputs, runs + 1) && d.st.plan == SoloPlan(L)
    ensures d.st.completed.Keys == {A} && d.st.completed[A].success == ok
    ensures d.st.reviewCycles == c.st.reviewCycles + 1
    ensures RetriesOf(d.st.retryCounts, A) == RetriesOf(c.st.retryCounts, A) + (if ok then 0 else 1)
  {
    var i := Answering(L, ok);
    SoloVerdict(L, c.st);
    var r := Config(c.st, Review);
    Extend(L, past, i, c, r);
    var m, b := Reviewed(L, c.st, i);
    Extend(L, past + [i], i, r, m);
    Extend(L, past + [i] + [i], i, m, b);
    Quiet(c.st.trace, EvReview(REDO));
    Quiet(c.st.trace + [EvReview(REDO)], EvFeedback([A]));
    d, inputs := RunOnce(L, b, past + [i] + [i] + [i], runs, ok);
  }

  /** As many failures as leave a retry. */
  lemma {:induction false} FailTimes(L: Limits, n: nat) returns (c: Config, inputs: seq<Input>)
    requires n < Limit(L)
    ensures Reached(L, c, inputs, n) && Due(L, c.st) && c.st.reviewCycles == 0
    ensures RetriesOf(c.st.retryCounts, A) == n
  {
    if n == 0 {
      c, inputs := Planned(L);
    } else {
      var b, past := FailTimes(L, n - 1);
      c, inputs := RunOnce(L, b, past, n - 1, false);
    }
  }

  /** Then a success, and redos that succeed, one for each review but the last. */
  lemma {:induction false} RedoTimes(L: Limits, n: nat) returns (c: Config, inputs: seq<Input>)
    requires n < Cycles(L)
    ensures Reached(L, c, inputs, Limit(L) + n) && Done(L, c.st) && c.st.reviewCycles == n
    ensures RetriesOf(c.st.retryCounts, A) == Limit(L) - 1
  {
    if n == 0 {
      var b, past := FailTimes(L, Limit(L) - 1);
      c, inputs := RunOnce(L, b, past, Limit(L) - 1, true);
    } else {
      var b, past := RedoTimes(L, n - 1);
      c, inputs := RedoOnce(L, b, past, Limit(L) + n - 1, true);
    }
  }

  /** For all limits, a run without human decisions executes its one subtask exactly
      max(1, M) + max(1, C) - 1 times. */
  lemma BoundIsAttained(L: Limits) returns (inputs: seq<Input>)
    ensures var st := Run(L, Start(false), inputs).st;
            && Undecided(st.trace) && RunsOf(st.trace, A) == MostRuns(L)
            && OrderedIds(st.plan.subtasks) == [A]
  {
    var c;
    c, inputs := RedoTimes(L, Cycles(L) - 1);
    SoloLookups(L);
  }
}
