/** Running a batch in parallel is the same as running it one subtask after another. */
module Serial {
  import opened Schemas
  import opened Graph
  import opened GraphInvariant

  /** A specialist's answer depends on the subtask, the outputs of the subtasks it depends on
      and the feedback it is given, and on nothing else in the state. */
  type Specialist = (SubTask, map<Id, string>, Option<string>) -> Outcome

  function DependencyContext(t: SubTask, completed: map<Id, SubtaskResult>): map<Id, string> {
    map id | id in completed && id in t.dependsOn :: completed[id].output
  }

  predicate Found(st: State, id: Id) {
    FirstMatch(st.plan.subtasks, id).Some?
  }

  function Executed(st: State, id: Id): SubTask
    requires Found(st, id)
  {
    FirstMatch(st.plan.subtasks, id).value
  }

  function Answer(ask: Specialist, st: State, id: Id): Outcome
    requires Found(st, id)
  {
    ask(Executed(st, id), DependencyContext(Executed(st, id), st.completed),
        if id in st.feedback then Some(st.feedback[id]) else None)
  }

  function Answers(ask: Specialist, st: State, batch: seq<Id>): map<Id, Outcome>
    requires AllFound(st.plan, batch)
  {
    map id | id in batch :: Answer(ask, st, id)
  }

  /** The super-step: all branches read the snapshot. */
  function RunParallel(ask: Specialist, st: State, batch: seq<Id>): State
    requires AllFound(st.plan, batch)
  {
    RunBranches(st, st, batch, Answers(ask, st, batch))
  }

  /** One branch at a time, each reading the state its predecessors left. */
  function RunSerial(ask: Specialist, st: State, order: seq<Id>): (r: State)
    requires AllFound(st.plan, order)
    ensures r.plan == st.plan && r.feedback == st.feedback
  {
    if order == [] then st
    else
      var prev := RunSerial(ask, st, order[..|order|-1]);
      RunBranch(prev, prev, order[|order|-1], Answer(ask, prev, order[|order|-1]))
  }

  ghost predicate IsOrderOf(order: seq<Id>, batch: seq<Id>) {
    Distinct(order) && forall id :: id in order <==> id in batch
  }

  /** No executed subtask of the batch reads another member of the batch. */
  ghost predicate Independent(st: State, batch: seq<Id>)
    requires AllFound(st.plan, batch)
  {
    forall s, t :: s in batch && t in batch && s != t ==> t !in Executed(st, s).dependsOn
  }

  ghost predicate SameOutcome(s: State, t: State) {
    s.completed == t.completed && s.retryCounts == t.retryCounts
  }

  lemma ContextUnchanged(t: SubTask, before: map<Id, SubtaskResult>, extra: map<Id, SubtaskResult>)
    requires forall id :: id in extra ==> id !in t.dependsOn
    ensures DependencyContext(t, before + extra) == DependencyContext(t, before)
  {
  }

  /** A later branch of an independent batch gives the answer it gives on the snapshot. */
  lemma LaterAnswerUnchanged(ask: Specialist, st: State, prev: State, front: seq<Id>, last: Id)
    requires AllFound(st.plan, front + [last]) && Distinct(front + [last])
    requires Independent(st, front + [last])
    requires prev.plan == st.plan && prev.feedback == st.feedback
    requires AllFound(st.plan, front)
    requires prev.completed == st.completed + BatchResults(st, front, Answers(ask, st, front))
    requires last in front + [last] && Found(st, last)
    ensures Answer(ask, prev, last) == Answer(ask, st, last)
  {
    var batch := front + [last];
    forall id | id in front ensures id !in Executed(st, last).dependsOn {
      var k :| 0 <= k < |front| && front[k] == id;
      assert batch[k] == id && batch[|front|] == last;
      assert id in batch && last in batch && id != last;
    }
    ContextUnchanged(Executed(st, last), st.completed, BatchResults(st, front, Answers(ask, st, front)));
  }

  lemma LastIsNew(front: seq<Id>, last: Id)
    requires Distinct(front + [last])
    ensures last !in front && Distinct(front)
  {
    var batch := front + [last];
    assert batch[|front|] == last;
    forall k | 0 <= k < |front| ensures front[k] != last { assert batch[k] == front[k]; }
    forall i, j | 0 <= i < j < |front| ensures front[i] != front[j] {
      assert batch[i] == front[i] && batch[j] == front[j];
    }
  }

  lemma PartsFound(plan: Plan, front: seq<Id>, last: Id)
    requires AllFound(plan, front + [last])
    ensures AllFound(plan, front) && FirstMatch(plan.subtasks, last).Some?
  {
    assert forall id :: id in front ==> id in front + [last];
    assert last in front + [last];
  }

  lemma AnswersAgree(ask: Specialist, st: State, front: seq<Id>, last: Id)
    requires AllFound(st.plan, front + [last]) && AllFound(st.plan, front) && Found(st, last)
    ensures BatchResults(st, front, Answers(ask, st, front + [last]))
         == BatchResults(st, front, Answers(ask, st, front))
    ensures BatchCounts(st, front, Answers(ask, st, front + [last]))
         == BatchCounts(st, front, Answers(ask, st, front))
    ensures AnswerFor(Answers(ask, st, front + [last]), last) == Answer(ask, st, last)
  {
  }

  lemma RunSerialSnoc(ask: Specialist, st: State, front: seq<Id>, last: Id)
    requires AllFound(st.plan, front + [last])
    ensures AllFound(st.plan, front) && FirstMatch(st.plan.subtasks, last).Some?
    ensures var prev := RunSerial(ask, st, front);
            RunSerial(ask, st, front + [last]) == RunBranch(prev, prev, last, Answer(ask, prev, last))
  {
    var order := front + [last];
    PartsFound(st.plan, front, last);
    assert order[..|order|-1] == front && order[|order|-1] == last;
  }

  lemma BranchOnSuccessor(prev: State, st: State, results: map<Id, SubtaskResult>, counts: map<Id, int>,
                          id: Id, a: Outcome)
    requires prev.plan == st.plan && Found(st, id) && id !in counts
    requires prev.completed == st.completed + results && prev.retryCounts == st.retryCounts + counts
    ensures RunBranch(prev, prev, id, a).completed == st.completed + results[id := BranchResult(st, id, a)]
    ensures RunBranch(prev, prev, id, a).retryCounts == st.retryCounts + counts[id := BranchCount(st, id, a)]
  {
    MergeOne(st.completed, results, id, BranchResult(st, id, a));
    MergeOne(st.retryCounts, counts, id, BranchCount(st, id, a));
    assert RetriesOf(prev.retryCounts, id) == RetriesOf(st.retryCounts, id);
  }

  /** One more branch of the serial run, given the closed form so far. */
  lemma SerialStep(ask: Specialist, st: State, prev: State, front: seq<Id>, last: Id)
    requires AllFound(st.plan, front + [last]) && AllFound(st.plan, front) && Found(st, last)
    requires prev.plan == st.plan && last !in front
    requires prev.completed == st.completed + BatchResults(st, front, Answers(ask, st, front))
    requires prev.retryCounts == st.retryCounts + BatchCounts(st, front, Answers(ask, st, front))
    ensures var r := RunBranch(prev, prev, last, Answer(ask, st, last));
            var answers := Answers(ask, st, front + [last]);
            && r.completed == st.completed + BatchResults(st, front + [last], answers)
            && r.retryCounts == st.retryCounts + BatchCounts(st, front + [last], answers)
  {
    var answers := Answers(ask, st, front);
    BranchOnSuccessor(prev, st, BatchResults(st, front, answers), BatchCounts(st, front, answers), last,
                      Answer(ask, st, last));
    AnswersAgree(ask, st, front, last);
    BatchResultsExtend(st, front, last, Answers(ask, st, front + [last]));
  }

  /** The serial run in closed form, for every specialist and every order of an independent batch. */
  lemma {:induction false} SerialEffect(ask: Specialist, st: State, order: seq<Id>)
    requires AllFound(st.plan, order) && Distinct(order) && Independent(st, order)
    ensures RunSerial(ask, st, order).completed == st.completed + BatchResults(st, order, Answers(ask, st, order))
    ensures RunSerial(ask, st, order).retryCounts == st.retryCounts + BatchCounts(st, order, Answers(ask, st, order))
  {
    if order == [] {
      assert st.completed + map[] == st.completed;
      assert st.retryCounts + map[] == st.retryCounts;
    } else {
      var front, last := order[..|order|-1], order[|order|-1];
      assert order == front + [last];
      RunSerialSnoc(ask, st, front, last);
      LastIsNew(front, last);
      IndependentPart(st, front, last);
      SerialEffect(ask, st, front);
      LaterAnswerUnchanged(ask, st, RunSerial(ask, st, front), front, last);
      SerialStep(ask, st, RunSerial(ask, st, front), front, last);
    }
  }

  lemma IndependentPart(st: State, front: seq<Id>, last: Id)
    requires AllFound(st.plan, front + [last]) && AllFound(st.plan, front)
    requires Independent(st, front + [last])
    ensures Independent(st, front)
  {
    assert forall id :: id in front ==> id in front + [last];
  }

  lemma OrderCarriesOver(ask: Specialist, st: State, order: seq<Id>, batch: seq<Id>)
    requires IsOrderOf(order, batch) && AllFound(st.plan, batch)
    ensures AllFound(st.plan, order)
    ensures Independent(st, batch) ==> Independent(st, order)
    ensures BatchResults(st, order, Answers(ask, st, order)) == BatchResults(st, batch, Answers(ask, st, batch))
    ensures BatchCounts(st, order, Answers(ask, st, order)) == BatchCounts(st, batch, Answers(ask, st, batch))
  {
  }

  /** An independent batch gives the same results and counters in parallel and in every order. */
  lemma IndependentBatchesSerialize(ask: Specialist, st: State, batch: seq<Id>, order: seq<Id>)
    requires AllFound(st.plan, batch) && Distinct(batch) && IsOrderOf(order, batch)
    requires Independent(st, batch)
    ensures AllFound(st.plan, order)
    ensures SameOutcome(RunSerial(ask, st, order), RunParallel(ask, st, batch))
  {
    OrderCarriesOver(ask, st, order, batch);
    SerialEffect(ask, st, order);
    RunBranchesEffect(st, st, batch, Answers(ask, st, batch));
  }

  ghost predicate UniqueIds(plan: Plan) {
    forall i, j :: 0 <= i < j < |plan.subtasks| ==> plan.subtasks[i].id != plan.subtasks[j].id
  }

  lemma {:induction false} UniqueIdsMakeLookupsAgree(sts: seq<SubTask>, id: Id)
    requires forall i, j :: 0 <= i < j < |sts| ==> sts[i].id != sts[j].id
    requires FirstMatch(sts, id).Some?
    ensures id in ById(sts) && FirstMatch(sts, id).value == ById(sts)[id]
  {
    if sts != [] {
      var front := sts[..|sts|-1];
      if FirstMatch(front, id).Some? {
        UniqueIdsMakeLookupsAgree(front, id);
        LookupsAgreeOnKeys(front, id);
        assert FirstMatch(front, id).value in front;
        var k :| 0 <= k < |front| && front[k].id == id;
        assert sts[k].id != sts[|sts|-1].id;
      }
    }
  }

  /** The scheduler's batches are independent whenever the plan's ids are unique. */
  lemma UniqueIdsMakeBatchesIndependent(L: Limits, st: State, batch: seq<Id>)
    requires UniqueIds(st.plan) && ValidBatch(L, st, batch)
    ensures AllFound(st.plan, batch) && Independent(st, batch)
  {
    BatchIsFound(L, st, batch);
    forall s, t | s in batch && t in batch && s != t ensures t !in Executed(st, s).dependsOn {
      UniqueIdsMakeLookupsAgree(st.plan.subtasks, s);
      assert IsReady(L, st, s) && IsReady(L, st, t);
    }
  }

  /** The parallel batch is serializable: in every reachable super-step of a plan with unique ids,
      for every specialist and every order, running the ready subtasks one by one gives the
      results and counters of the parallel step. */
  lemma ParallelBatchIsSerializable(L: Limits, requireApproval: bool, inputs: seq<Input>,
                                    ask: Specialist, order: seq<Id>)
    requires Run(L, Start(requireApproval), inputs).pc.RunSpecialists?
    requires UniqueIds(Run(L, Start(requireApproval), inputs).st.plan)
    requires IsOrderOf(order, Run(L, Start(requireApproval), inputs).pc.batch)
    ensures var c := Run(L, Start(requireApproval), inputs);
            && AllFound(c.st.plan, order) && AllFound(c.st.plan, c.pc.batch)
            && SameOutcome(RunSerial(ask, c.st, order), RunParallel(ask, c.st, c.pc.batch))
  {
    RunKeepsInv(L, requireApproval, inputs);
    var c := Run(L, Start(requireApproval), inputs);
    UniqueIdsMakeBatchesIndependent(L, c.st, c.pc.batch);
    IndependentBatchesSerialize(ask, c.st, c.pc.batch, order);
  }

  // ---------------------------------------------------------------- without unique ids

  function Without(ids: seq<Id>, s: Id, t: Id): seq<Id> {
    if ids == [] then []
    else
      var rest := Without(ids[..|ids|-1], s, t);
      var last := ids[|ids|-1];
      if last == s || last == t then rest else rest + [last]
  }

  lemma {:induction false} WithoutSelects(ids: seq<Id>, s: Id, t: Id)
    requires Distinct(ids)
    ensures Distinct(Without(ids, s, t))
    ensures forall id :: id in Without(ids, s, t) <==> id in ids && id != s && id != t
  {
    if ids != [] {
      var front, last := ids[..|ids|-1], ids[|ids|-1];
      assert ids == front + [last];
      LastIsNew(front, last);
      WithoutSelects(front, s, t);
    }
  }

  lemma {:induction false} SerialLeavesOthers(ask: Specialist, st: State, order: seq<Id>, rest: seq<Id>, id: Id)
    requires AllFound(st.plan, order + rest) && AllFound(st.plan, order) && id !in rest
    requires Succeeded(RunSerial(ask, st, order).completed, id)
    ensures Succeeded(RunSerial(ask, st, order + rest).completed, id)
  {
    if rest == [] {
      assert order + rest == order;
    } else {
      var front, last := rest[..|rest|-1], rest[|rest|-1];
      assert order + rest == (order + front) + [last];
      RunSerialSnoc(ask, st, order + front, last);
      SerialLeavesOthers(ask, st, order, front, id);
    }
  }

  /** The probe: `t` succeeds with a fresh output, everyone else succeeds exactly if it sees it. */
  function Probe(t: Id, mark: string): Specialist {
    (x: SubTask, context: map<Id, string>, feedback: Option<string>) =>
      if x.id == t then Outcome(true, mark) else Outcome(t in context && context[t] == mark, "")
  }

  function FreshMark(completed: map<Id, SubtaskResult>, t: Id): string {
    if t in completed then completed[t].output + "x" else "x"
  }

  lemma FirstMatchHasId(sts: seq<SubTask>, id: Id)
    requires FirstMatch(sts, id).Some?
    ensures FirstMatch(sts, id).value.id == id
  {
    LookupsAgreeOnKeys(sts, id);
  }

  /** After `t` has run, a subtask that depends on it sees its fresh output; before, it did not. */
  lemma ProbeSeesFresh(st: State, r: State, s: Id, t: Id)
    requires Found(st, s) && s != t && t in Executed(st, s).dependsOn
    requires r.plan == st.plan
    requires t in r.completed && r.completed[t].output == FreshMark(st.completed, t)
    ensures Answer(Probe(t, FreshMark(st.completed, t)), r, s).success
    ensures !Answer(Probe(t, FreshMark(st.completed, t)), st, s).success
  {
    FirstMatchHasId(st.plan.subtasks, s);
    assert t in DependencyContext(Executed(r, s), r.completed);
  }

  lemma ProbeRunsFresh(st: State, t: Id)
    requires Found(st, t) && AllFound(st.plan, [t])
    ensures var r := RunSerial(Probe(t, FreshMark(st.completed, t)), st, [t]);
            t in r.completed && r.completed[t].output == FreshMark(st.completed, t)
  {
    FirstMatchHasId(st.plan.subtasks, t);
    assert [] + [t] == [t];
    RunSerialSnoc(Probe(t, FreshMark(st.completed, t)), st, [], t);
  }

  lemma BranchSucceedsIfAnswerDoes(prev: State, id: Id, a: Outcome)
    requires Found(prev, id)
    ensures Succeeded(RunBranch(prev, prev, id, a).completed, id) <==> a.success
  {
  }

  lemma ProbeTellsApart(st: State, s: Id, t: Id)
    requires Found(st, s) && Found(st, t) && s != t && t in Executed(st, s).dependsOn
    requires AllFound(st.plan, [t]) && AllFound(st.plan, [t, s])
    ensures var ask := Probe(t, FreshMark(st.completed, t));
            Succeeded(RunSerial(ask, st, [t, s]).completed, s) && !Answer(ask, st, s).success
  {
    var ask := Probe(t, FreshMark(st.completed, t));
    assert [t] + [s] == [t, s];
    RunSerialSnoc(ask, st, [t], s);
    ProbeRunsFresh(st, t);
    var r := RunSerial(ask, st, [t]);
    ProbeSeesFresh(st, r, s, t);
    BranchSucceedsIfAnswerDoes(r, s, Answer(ask, r, s));
  }

  lemma ParallelAnswer(ask: Specialist, st: State, batch: seq<Id>, id: Id)
    requires AllFound(st.plan, batch) && id in batch && Found(st, id)
    ensures Succeeded(RunParallel(ask, st, batch).completed, id) <==> Answer(ask, st, id).success
  {
    RunBranchesEffect(st, st, batch, Answers(ask, st, batch));
  }

  /** A specialist that repeats what it was told. */
  function Repeat(t: SubTask, context: map<Id, string>, feedback: Option<string>): Outcome {
    Outcome(true, OrEmpty(feedback))
  }

  /** A specialist that copies the output of one subtask it depends on. */
  function Copy(dep: Id): Specialist {
    (t: SubTask, context: map<Id, string>, feedback: Option<string>) =>
      if dep in context then Outcome(true, context[dep]) else Outcome(false, "")
  }

  /** Each branch is given its own subtask's feedback, and the outputs of exactly the subtasks it depends
      on, whatever they are. */
  lemma BranchesAreTold(st: State, batch: seq<Id>, id: Id, dep: Id)
    requires AllFound(st.plan, batch) && id in batch && Found(st, id)
    ensures var told := RunParallel(Repeat, st, batch);
            id in told.completed
            && told.completed[id].output == if id in st.feedback then st.feedback[id] else ""
    ensures var copied := RunParallel(Copy(dep), st, batch);
            && id in copied.completed
            && (copied.completed[id].success <==> dep in Executed(st, id).dependsOn && dep in st.completed)
            && (copied.completed[id].success ==> copied.completed[id].output == st.completed[dep].output)
  {
    ParallelResult(Repeat, st, batch, id);
    ParallelResult(Copy(dep), st, batch, id);
  }

  lemma ParallelResult(ask: Specialist, st: State, batch: seq<Id>, id: Id)
    requires AllFound(st.plan, batch) && id in batch && Found(st, id)
    ensures var done := RunParallel(ask, st, batch).completed;
            && id in done && done[id].success == Answer(ask, st, id).success
            && done[id].output == Answer(ask, st, id).output
  {
    RunBranchesEffect(st, st, batch, Answers(ask, st, batch));
  }

  /** A batch whose executed subtasks read each other is not serializable: some specialist and
      some order tell the two apart. Duplicate ids produce such batches, because readiness uses
      the last subtask with an id and execution the first. */
  lemma DependentBatchesDoNotSerialize(st: State, batch: seq<Id>) returns (ask: Specialist, order: seq<Id>)
    requires AllFound(st.plan, batch) && Distinct(batch) && !Independent(st, batch)
    ensures IsOrderOf(order, batch) && AllFound(st.plan, order)
    ensures !SameOutcome(RunSerial(ask, st, order), RunParallel(ask, st, batch))
  {
    var s, t :| s in batch && t in batch && s != t && t in Executed(st, s).dependsOn;
    ask := Probe(t, FreshMark(st.completed, t));
    var rest := Without(batch, s, t);
    WithoutSelects(batch, s, t);
    order := [t, s] + rest;
    assert IsOrderOf(order, batch);
    assert AllFound(st.plan, order) && AllFound(st.plan, [t]) && AllFound(st.plan, [t, s]);
    ProbeTellsApart(st, s, t);
    SerialLeavesOthers(ask, st, [t, s], rest, s);
    ParallelAnswer(ask, st, batch, s);
  }
}
