/** Which subtasks of a plan can ever be done: the least fixed point of
    "every dependency is done". */
module Plans {
  import opened Schemas
  import opened Graph

  /** The subtasks that n rounds of "all dependencies done" reach. */
  ghost function Stage(plan: Plan, n: nat): set<Id> {
    if n == 0 then {}
    else set id | id in ById(plan.subtasks) &&
                  forall d :: d in ById(plan.subtasks)[id].dependsOn ==> d in Stage(plan, n - 1)
  }

  ghost predicate Completable(plan: Plan, id: Id) {
    exists n: nat :: id in Stage(plan, n)
  }

  /** Closed and acyclic dependencies: some rank strictly drops along every dependency. */
  ghost predicate Acyclic(plan: Plan) {
    exists rank: map<Id, nat> :: Ranks(plan, rank)
  }

  ghost predicate Ranks(plan: Plan, rank: map<Id, nat>) {
    && rank.Keys == ById(plan.subtasks).Keys
    && forall id, d :: id in rank && d in ById(plan.subtasks)[id].dependsOn ==> d in rank && rank[d] < rank[id]
  }

  lemma {:induction false} StageMonotone(plan: Plan, m: nat, n: nat)
    requires m <= n
    ensures Stage(plan, m) <= Stage(plan, n)
  {
    if m > 0 {
      StageMonotone(plan, m - 1, n - 1);
    }
  }

  lemma {:induction false} CommonStage(plan: Plan, ids: seq<Id>) returns (n: nat)
    requires forall d :: d in ids ==> Completable(plan, d)
    ensures forall d :: d in ids ==> d in Stage(plan, n)
  {
    if ids == [] {
      n := 0;
    } else {
      var m := CommonStage(plan, ids[1..]);
      assert ids[0] in ids;
      var k: nat :| ids[0] in Stage(plan, k);
      n := if m < k then k else m;
      StageMonotone(plan, m, n);
      StageMonotone(plan, k, n);
      assert ids == [ids[0]] + ids[1..];
    }
  }

  lemma CompletableIfDepsAre(plan: Plan, id: Id)
    requires id in ById(plan.subtasks)
    requires forall d :: d in ById(plan.subtasks)[id].dependsOn ==> Completable(plan, d)
    ensures Completable(plan, id)
  {
    var n := CommonStage(plan, ById(plan.subtasks)[id].dependsOn);
    assert id in Stage(plan, n + 1);
  }

  ghost predicate DependsOnlyOn(plan: Plan, id: Id, ids: set<Id>)
    requires id in ById(plan.subtasks)
  {
    forall d :: d in ById(plan.subtasks)[id].dependsOn ==> d in ids
  }

  /** `Completable` is the least set closed under the readiness rule. */
  lemma {:induction false} CompletableIsLeast(plan: Plan, closed: set<Id>, n: nat)
    requires forall id :: id in ById(plan.subtasks) && DependsOnlyOn(plan, id, closed) ==> id in closed
    ensures Stage(plan, n) <= closed
  {
    if n > 0 {
      CompletableIsLeast(plan, closed, n - 1);
    }
  }

  ghost function FirstStage(plan: Plan, id: Id, n: nat): (k: nat)
    requires id in Stage(plan, n)
    ensures id in Stage(plan, k) && k <= n && (k == 0 || id !in Stage(plan, k - 1))
  {
    if n > 0 && id in Stage(plan, n - 1) then FirstStage(plan, id, n - 1) else n
  }

  ghost function RankOf(plan: Plan, id: Id): (k: nat)
    requires Completable(plan, id)
    ensures k > 0 && id in Stage(plan, k) && id !in Stage(plan, k - 1)
  {
    var n: nat :| id in Stage(plan, n);
    FirstStage(plan, id, n)
  }

  lemma RankAtMost(plan: Plan, id: Id, n: nat)
    requires id in Stage(plan, n)
    ensures Completable(plan, id) && RankOf(plan, id) <= n
  {
    if RankOf(plan, id) > n {
      StageMonotone(plan, n, RankOf(plan, id) - 1);
    }
  }

  lemma {:induction false} RankedIsCompletable(plan: Plan, rank: map<Id, nat>, id: Id)
    requires Ranks(plan, rank) && id in rank
    ensures Completable(plan, id)
    decreases rank[id]
  {
    forall d | d in ById(plan.subtasks)[id].dependsOn ensures Completable(plan, d) {
      RankedIsCompletable(plan, rank, d);
    }
    CompletableIfDepsAre(plan, id);
  }

  lemma DependenciesRankLower(plan: Plan, id: Id, d: Id)
    requires id in ById(plan.subtasks) && Completable(plan, id)
    requires d in ById(plan.subtasks)[id].dependsOn
    ensures Completable(plan, d) && RankOf(plan, d) < RankOf(plan, id)
  {
    var k := RankOf(plan, id);
    assert d in Stage(plan, k - 1);
    RankAtMost(plan, d, k - 1);
  }

  lemma StagesAreOfThePlan(plan: Plan, id: Id)
    requires Completable(plan, id)
    ensures id in ById(plan.subtasks)
  {
  }

  lemma CompletableGivesRanks(plan: Plan)
    requires forall id :: id in ById(plan.subtasks) ==> Completable(plan, id)
    ensures Acyclic(plan)
  {
    var rank: map<Id, nat> := map id | id in ById(plan.subtasks) :: RankOf(plan, id);
    forall id, d | id in rank && d in ById(plan.subtasks)[id].dependsOn
      ensures d in rank && rank[d] < rank[id]
    {
      DependenciesRankLower(plan, id, d);
      StagesAreOfThePlan(plan, d);
    }
    assert Ranks(plan, rank);
  }

  /** A plan is closed and acyclic exactly when every subtask is completable. */
  lemma AcyclicIffAllCompletable(plan: Plan)
    ensures Acyclic(plan) <==> forall id :: id in ById(plan.subtasks) ==> Completable(plan, id)
  {
    if Acyclic(plan) {
      var rank :| Ranks(plan, rank);
      forall id | id in ById(plan.subtasks) ensures Completable(plan, id) {
        RankedIsCompletable(plan, rank, id);
      }
    } else if forall id :: id in ById(plan.subtasks) ==> Completable(plan, id) {
      CompletableGivesRanks(plan);
    }
  }
}
