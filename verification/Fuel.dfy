/** How much specialist work is left before a subtask counts as stuck. */
module Fuel {
  import opened Schemas
  import opened Graph
  import opened GraphInvariant

  function AtLeast(low: int, x: int): int {
    if x < low then low else x
  }

  /** A succeeded subtask is done, a failed one has its retries left, and one without a result is
      dispatched at least once whatever its counter says. */
  function FuelOf(L: Limits, st: State, id: Id): nat {
    if Succeeded(st.completed, id) then 0
    else if Failed(st.completed, id) then AtLeast(0, L.maxRetries - RetriesOf(st.retryCounts, id))
    else AtLeast(1, L.maxRetries - RetriesOf(st.retryCounts, id))
  }

  function FuelOver(L: Limits, st: State, ids: seq<Id>): nat {
    if ids == [] then 0 else FuelOver(L, st, ids[..|ids|-1]) + FuelOf(L, st, ids[|ids|-1])
  }

  function FuelIn(L: Limits, st: State): nat {
    FuelOver(L, st, OrderedIds(st.plan.subtasks))
  }

  /** n * max(1, M): the most work a plan of n distinct ids can hold. */
  function Capacity(L: Limits, plan: Plan): nat {
    |OrderedIds(plan.subtasks)| * AtLeast(1, L.maxRetries)
  }

  lemma {:induction false} FuelAtMost(L: Limits, st: State, ids: seq<Id>)
    requires forall id :: id in st.retryCounts ==> st.retryCounts[id] >= 0
    ensures FuelOver(L, st, ids) <= |ids| * AtLeast(1, L.maxRetries)
  {
    if ids != [] {
      FuelAtMost(L, st, ids[..|ids|-1]);
      var m := AtLeast(1, L.maxRetries);
      assert FuelOf(L, st, ids[|ids|-1]) <= m;
      assert |ids| * m == (|ids| - 1) * m + m;
    }
  }

  lemma FuelWithinCapacity(L: Limits, st: State)
    requires PlanInv(st)
    ensures FuelIn(L, st) <= Capacity(L, st.plan)
  {
    FuelAtMost(L, st, OrderedIds(st.plan.subtasks));
  }

  lemma {:induction false} FuelMonotone(L: Limits, s: State, t: State, ids: seq<Id>)
    requires forall id :: id in ids ==> FuelOf(L, s, id) <= FuelOf(L, t, id)
    ensures FuelOver(L, s, ids) <= FuelOver(L, t, ids)
  {
    if ids != [] {
      FuelMonotone(L, s, t, ids[..|ids|-1]);
    }
  }

  lemma {:induction false} FuelDropsOver(L: Limits, st: State, r: State, ids: seq<Id>)
    requires forall id :: id in ids ==>
               FuelOf(L, r, id) + (if IsReady(L, st, id) then 1 else 0) <= FuelOf(L, st, id)
    ensures FuelOver(L, r, ids) + |ReadyAmong(L, st, ids)| <= FuelOver(L, st, ids)
  {
    if ids != [] {
      FuelDropsOver(L, st, r, ids[..|ids|-1]);
    }
  }

  lemma FuelOfBranch(L: Limits, st: State, r: State, id: Id, answer: Outcome)
    requires IsReady(L, st, id) && FirstMatch(st.plan.subtasks, id).Some?
    requires id in r.completed && r.completed[id] == BranchResult(st, id, answer)
    requires id in r.retryCounts && r.retryCounts[id] == BranchCount(st, id, answer)
    ensures FuelOf(L, r, id) + 1 <= FuelOf(L, st, id)
  {
  }

  lemma FuelOfAnyone(L: Limits, st: State, r: State, batch: seq<Id>, answers: map<Id, Outcome>, id: Id)
    requires ValidBatch(L, st, batch) && AllFound(st.plan, batch)
    requires r.completed == st.completed + BatchResults(st, batch, answers)
    requires r.retryCounts == st.retryCounts + BatchCounts(st, batch, answers)
    ensures FuelOf(L, r, id) + (if IsReady(L, st, id) then 1 else 0) <= FuelOf(L, st, id)
  {
    if IsReady(L, st, id) {
      assert id in batch;
      FuelOfBranch(L, st, r, id, AnswerFor(answers, id));
    } else {
      assert id !in batch;
    }
  }

  /** Every branch of a super-step burns at least one unit. */
  lemma BranchesBurnFuel(L: Limits, st: State, batch: seq<Id>, answers: map<Id, Outcome>)
    requires ValidBatch(L, st, batch) && AllFound(st.plan, batch)
    ensures FuelIn(L, RunBranches(st, st, batch, answers)) + |batch| <= FuelIn(L, st)
  {
    RunBranchesEffect(st, st, batch, answers);
    var r := RunBranches(st, st, batch, answers);
    forall id ensures FuelOf(L, r, id) + (if IsReady(L, st, id) then 1 else 0) <= FuelOf(L, st, id) {
      FuelOfAnyone(L, st, r, batch, answers, id);
    }
    FuelDropsOver(L, st, r, OrderedIds(st.plan.subtasks));
  }
}
