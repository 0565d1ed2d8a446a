/** The orchestration state machine (graph/build.py): one function per node and per router,
    and one step relation over the edge table. Every answer of the supervisor, the specialists,
    the reviewer and the human is an arbitrary input of the step that consumes it. */
module Graph {
  import opened Schemas
  import opened Reducers

  datatype Limits = Limits(maxRetries: int, maxCycles: int, planThreshold: real, scoreThreshold: real)

  /** One entry of `trace_events` per executed node, with the attributes the properties speak of.
      The two human events also carry the escalation's stuck ids. */
  datatype Event =
    | EvIntake
    | EvPlan(plan: Plan)
    | EvRun(id: Id, success: bool)
    | EvReview(review: ReviewResult)
    | EvFeedback(redo: seq<Id>)
    | EvNotify
    | EvSynthesize
    | EvDeliver
    | EvReject
    | EvEscalation(source: Source, action: Action, stuck: set<Id>)
    | EvDecision(source: Source, action: Action, stuck: set<Id>)

  datatype Status = Running | Completed | Rejected

  datatype State = State(
    plan: Plan,
    completed: map<Id, SubtaskResult>,
    retryCounts: map<Id, int>,
    feedback: map<Id, string>,
    review: Option<ReviewResult>,
    reviewCycles: int,
    requireApproval: bool,
    escalation: Option<Escalation>,
    source: Option<Source>,
    decision: Option<HumanDecision>,
    finalOutput: string,
    status: Status,
    trace: seq<Event>)

  /** The node that runs next. `RunSpecialists` is the super-step that runs one branch per `Send`;
      `Crashed` is where a node would raise (a missing key, an attribute of None). */
  datatype Node =
    | Intake | PlanTask | RouteBatch | RunSpecialists(batch: seq<Id>) | Review | ApplyReviewFeedback
    | NotifyHuman | Synthesize | Deliver | RejectTask | HumanEscalation | ApplyHumanDecision
    | End | Crashed

  datatype Config = Config(st: State, pc: Node)

  /** The answers available to one step; a step uses at most one of them. A subtask without an
      entry in `answers` fails. */
  datatype Input = Input(plan: Plan, answers: map<Id, Outcome>, review: ReviewResult,
                         decision: HumanDecision, text: string)

  // ---------------------------------------------------------------- lookups over the plan

  /** `{st.id: st for st in plan.subtasks}`: the last subtask with an id wins. */
  function ById(sts: seq<SubTask>): map<Id, SubTask> {
    if sts == [] then map[]
    else ById(sts[..|sts|-1])[sts[|sts|-1].id := sts[|sts|-1]]
  }

  /** `next(st for st in plan.subtasks if st.id == id)`: the first one wins. */
  function FirstMatch(sts: seq<SubTask>, id: Id): Option<SubTask> {
    if sts == [] then None
    else
      var r := FirstMatch(sts[..|sts|-1], id);
      if r.Some? then r
      else if sts[|sts|-1].id == id then Some(sts[|sts|-1]) else None
  }

  /** The keys of `by_id` in insertion order. */
  function OrderedIds(sts: seq<SubTask>): seq<Id> {
    if sts == [] then []
    else
      var ids := OrderedIds(sts[..|sts|-1]);
      if sts[|sts|-1].id in ids then ids else ids + [sts[|sts|-1].id]
  }

  /** Both lookups answer for exactly the ids of the plan, with a subtask of that id. */
  lemma {:induction false} LookupsAgreeOnKeys(sts: seq<SubTask>, id: Id)
    ensures id in ById(sts) <==> FirstMatch(sts, id).Some?
    ensures id in ById(sts) <==> id in OrderedIds(sts)
    ensures id in ById(sts) <==> id in (set t | t in sts :: t.id)
    ensures id in ById(sts) ==> ById(sts)[id] in sts && ById(sts)[id].id == id
    ensures id in ById(sts) ==> FirstMatch(sts, id).value in sts && FirstMatch(sts, id).value.id == id
  {
    if sts != [] {
      var front := sts[..|sts|-1];
      LookupsAgreeOnKeys(front, id);
      assert sts == front + [sts[|sts|-1]];
    }
  }

  lemma {:induction false} OrderedIdsDistinct(sts: seq<SubTask>)
    ensures Distinct(OrderedIds(sts))
  {
    if sts != [] {
      OrderedIdsDistinct(sts[..|sts|-1]);
    }
  }

  /** The ids come in the order of their first occurrence in the plan: before any subtask with the later
      id stands one with the earlier id. */
  lemma {:induction false} OrderedIdsInOrder(sts: seq<SubTask>, i: nat, j: nat, q: nat) returns (p: nat)
    requires i < j < |OrderedIds(sts)| && q < |sts| && sts[q].id == OrderedIds(sts)[j]
    ensures p < q && sts[p].id == OrderedIds(sts)[i]
  {
    var last := |sts| - 1;
    var ids := OrderedIds(sts[..last]);
    if q < last {
      LookupsAgreeOnKeys(sts[..last], sts[q].id);
      assert sts[q] in sts[..last];
      OrderedIdsDistinct(sts);
      p := OrderedIdsInOrder(sts[..last], i, j, q);
    } else {
      LookupsAgreeOnKeys(sts[..last], ids[i]);
      var t :| t in sts[..last] && t.id == ids[i];
      p :| 0 <= p < last && sts[p] == t;
    }
  }

  function Subtasks(st: State): map<Id, SubTask> {
    ById(st.plan.subtasks)
  }

  // ---------------------------------------------------------------- scheduling

  predicate Succeeded(completed: map<Id, SubtaskResult>, id: Id) {
    id in completed && completed[id].success
  }

  predicate Failed(completed: map<Id, SubtaskResult>, id: Id) {
    id in completed && !completed[id].success
  }

  predicate DepsDone(completed: map<Id, SubtaskResult>, t: SubTask) {
    forall d :: d in t.dependsOn ==> Succeeded(completed, d)
  }

  function RetriesOf(retryCounts: map<Id, int>, id: Id): int {
    if id in retryCounts then retryCounts[id] else 0
  }

  predicate IsStuck(L: Limits, st: State, id: Id) {
    Failed(st.completed, id) && RetriesOf(st.retryCounts, id) >= L.maxRetries
  }

  predicate IsReady(L: Limits, st: State, id: Id) {
    && id in Subtasks(st)
    && !Succeeded(st.completed, id)
    && !IsStuck(L, st, id)
    && DepsDone(st.completed, Subtasks(st)[id])
  }

  function ReadyAmong(L: Limits, st: State, ids: seq<Id>): seq<Id> {
    if ids == [] then []
    else
      var r := ReadyAmong(L, st, ids[..|ids|-1]);
      if IsReady(L, st, ids[|ids|-1]) then r + [ids[|ids|-1]] else r
  }

  lemma {:induction false} ReadyAmongSelects(L: Limits, st: State, ids: seq<Id>)
    ensures forall id :: id in ReadyAmong(L, st, ids) <==> id in ids && IsReady(L, st, id)
    ensures Distinct(ids) ==> Distinct(ReadyAmong(L, st, ids))
  {
    if ids != [] {
      ReadyAmongSelects(L, st, ids[..|ids|-1]);
      assert ids == ids[..|ids|-1] + [ids[|ids|-1]];
    }
  }

  datatype Dispatch = Escalate | Batch(ids: seq<Id>) | ToReview

  predicate SomeStuck(L: Limits, st: State) {
    exists id :: id in Subtasks(st) && IsStuck(L, st, id)
  }

  predicate SomeUnresolved(st: State) {
    (exists id :: id in st.completed && !st.completed[id].success) || |st.completed| < |Subtasks(st)|
  }

  function DecideNextBatch(L: Limits, st: State): Dispatch {
    var ready := ReadyAmong(L, st, OrderedIds(st.plan.subtasks));
    if SomeStuck(L, st) then Escalate
    else if ready != [] then Batch(ready)
    else if SomeUnresolved(st) then Escalate
    else ToReview
  }

  lemma IdsAreKeys(sts: seq<SubTask>)
    ensures forall id :: id in ById(sts) <==> id in OrderedIds(sts)
  {
    forall id ensures id in ById(sts) <==> id in OrderedIds(sts) {
      LookupsAgreeOnKeys(sts, id);
    }
  }

  lemma ReadyAmongSnoc(L: Limits, st: State, ids: seq<Id>, k: nat)
    requires k < |ids|
    ensures ReadyAmong(L, st, ids[..k+1])
         == ReadyAmong(L, st, ids[..k]) + (if IsReady(L, st, ids[k]) then [ids[k]] else [])
  {
    assert ids[..k+1][..k] == ids[..k] && ids[..k+1][k] == ids[k];
  }

  /** The scheduling loop as the source runs it, over the entries of `by_id`. */
  method DecideNextBatchLoop(L: Limits, st: State) returns (d: Dispatch)
    ensures d == DecideNextBatch(L, st)
  {
    var byId := Subtasks(st);
    var ids := OrderedIds(st.plan.subtasks);
    IdsAreKeys(st.plan.subtasks);
    var ready: seq<Id> := [];
    var stuck: seq<Id> := [];
    for i := 0 to |ids|
      invariant ready == ReadyAmong(L, st, ids[..i])
      invariant stuck != [] ==> SomeStuck(L, st)
      invariant stuck == [] ==> forall k :: 0 <= k < i ==> !IsStuck(L, st, ids[k])
    {
      var sid := ids[i];
      ReadyAmongSnoc(L, st, ids, i);
      if sid in st.completed && st.completed[sid].success {
        continue;
      }
      if sid in st.completed && !st.completed[sid].success {
        if RetriesOf(st.retryCounts, sid) >= L.maxRetries {
          stuck := stuck + [sid];
          continue;
        }
      }
      if forall dep :: dep in byId[sid].dependsOn ==> Succeeded(st.completed, dep) {
        ready := ready + [sid];
      }
    }
    assert ids[..|ids|] == ids;
    if stuck != [] {
      return Escalate;
    }
    if ready != [] {
      return Batch(ready);
    }
    if (exists id :: id in st.completed && !st.completed[id].success) || |st.completed| < |byId| {
      return Escalate;
    }
    return ToReview;
  }

  // ---------------------------------------------------------------- nodes

  function Log(st: State, e: Event): State {
    st.(trace := st.trace + [e])
  }

  function PlanNode(st: State, plan: Plan): State {
    Log(st.(plan := plan,
            completed := Merge(st.completed, map[]),
            retryCounts := Merge(st.retryCounts, map[]),
            reviewCycles := 0),
        EvPlan(plan))
  }

  /** Plans a human must see before any work: unsure, sensitive, or so requested. */
  predicate Gated(L: Limits, plan: Plan, requireApproval: bool) {
    || plan.confidence < L.planThreshold
    || (exists t :: t in plan.subtasks && t.sensitive)
    || requireApproval
  }

  function RouteAfterPlan(L: Limits, st: State): Node {
    if Gated(L, st.plan, st.requireApproval) then HumanEscalation else RouteBatch
  }

  function AnswerFor(answers: map<Id, Outcome>, id: Id): Outcome {
    if id in answers then answers[id] else Outcome(false, "")
  }

  function BranchResult(snapshot: State, id: Id, answer: Outcome): SubtaskResult
    requires FirstMatch(snapshot.plan.subtasks, id).Some?
  {
    var t := FirstMatch(snapshot.plan.subtasks, id).value;
    SubtaskResult(t.id, t.specialist, answer.success, answer.output)
  }

  function BranchCount(snapshot: State, id: Id, answer: Outcome): int {
    RetriesOf(snapshot.retryCounts, id) + (if answer.success then 0 else 1)
  }

  /** One `run_specialist` branch: it reads the snapshot it was sent and is reduced into `st`. */
  function RunBranch(snapshot: State, st: State, id: Id, answer: Outcome): State
    requires FirstMatch(snapshot.plan.subtasks, id).Some?
  {
    Log(st.(completed := Merge(st.completed, map[id := Some(BranchResult(snapshot, id, answer))]),
            retryCounts := Merge(st.retryCounts, map[id := Some(BranchCount(snapshot, id, answer))])),
        EvRun(id, answer.success))
  }

  predicate AllFound(plan: Plan, batch: seq<Id>) {
    forall id :: id in batch ==> FirstMatch(plan.subtasks, id).Some?
  }

  /** The super-step: every branch reads the same snapshot, the updates are reduced in turn. */
  function RunBranches(snapshot: State, st: State, batch: seq<Id>, answers: map<Id, Outcome>): State
    requires AllFound(snapshot.plan, batch)
  {
    if batch == [] then st
    else
      var last := |batch| - 1;
      RunBranch(snapshot, RunBranches(snapshot, st, batch[..last], answers), batch[last],
                AnswerFor(answers, batch[last]))
  }

  function ReviewNode(st: State, r: ReviewResult): State {
    Log(st.(review := Some(r), reviewCycles := st.reviewCycles + 1), EvReview(r))
  }

  function RouteAfterReview(L: Limits, st: State, r: ReviewResult): Node {
    if r.requiresHuman then HumanEscalation
    else if r.approved then
      if r.score < L.scoreThreshold then NotifyHuman else Synthesize
    else if st.reviewCycles >= L.maxCycles then HumanEscalation
    else ApplyReviewFeedback
  }

  function IdSet(ids: seq<Id>): set<Id> {
    set id | id in ids
  }

  function FeedbackNode(st: State, r: ReviewResult): State {
    Log(st.(completed := Merge(st.completed, Tombstones(IdSet(r.redo))),
            feedback := Merge(st.feedback, Writes(IdSet(r.redo), r.feedback))),
        EvFeedback(r.redo))
  }

  function NotifyNode(st: State): State {
    Log(st.(escalation := Some(Escalation(Notify, {})), source := Some(ReviewLowScoreNotify)), EvNotify)
  }

  function StuckIds(L: Limits, st: State): set<Id> {
    set id | id in st.retryCounts && st.retryCounts[id] >= L.maxRetries && Failed(st.completed, id)
  }

  function EscalationSource(L: Limits, st: State): Source {
    if st.completed == map[] && st.review.None? then
      if st.plan.confidence < L.planThreshold then PlanLowConfidence
      else if exists t :: t in st.plan.subtasks && t.sensitive then PlanSensitive
      else PlanRequested
    else if st.review.Some? then
      if st.review.value.requiresHuman then ReviewSensitive else ReviewExhausted
    else SpecialistRetry
  }

  function RaiseEscalation(L: Limits, st: State): Escalation {
    match EscalationSource(L, st)
    case ReviewSensitive => Escalation(ApproveAction, {})
    case ReviewExhausted => Escalation(TakeOverLevel, {})
    case SpecialistRetry => Escalation(TakeOverLevel, StuckIds(L, st))
    case _ => Escalation(ApprovePlan, {})
  }

  /** `human_escalation` after the interrupt is resumed with the decision. */
  function EscalationNode(L: Limits, st: State, d: HumanDecision): State {
    var s := EscalationSource(L, st);
    var e := RaiseEscalation(L, st);
    Log(st.(escalation := Some(e), source := Some(s), decision := Some(d)),
        EvEscalation(s, d.action, e.stuckIds))
  }

  /** What a MODIFY on a reviewed result sends back: the review's list, or every subtask. */
  function RedoIds(st: State, r: ReviewResult): set<Id> {
    if r.redo != [] then IdSet(r.redo) else set t | t in st.plan.subtasks :: t.id
  }

  /** The keys and attributes `apply_human_decision` takes for granted. */
  predicate DecisionApplies(st: State) {
    && st.decision.Some? && st.source.Some? && st.escalation.Some?
    && (st.decision.value.action.TakeOver? && st.source.value.SpecialistRetry? ==>
          forall id :: id in st.escalation.value.stuckIds ==> id in Subtasks(st))
    && (st.decision.value.action.Modify? && IsReviewSource(st.source.value) ==> st.review.Some?)
    && !st.source.value.ReviewLowScoreNotify?
  }

  function HandDone(st: State, id: Id, output: string): SubtaskResult
    requires id in Subtasks(st)
  {
    SubtaskResult(id, Subtasks(st)[id].specialist, true, output)
  }

  function HandResults(st: State, ids: set<Id>, output: string): map<Id, Option<SubtaskResult>>
    requires forall id :: id in ids ==> id in Subtasks(st)
  {
    map id | id in ids :: if id in ids then Some(HandDone(st, id, output)) else None
  }

  function DecisionUpdate(st: State): State
    requires DecisionApplies(st)
  {
    var d := st.decision.value;
    var source := st.source.value;
    var stuck := st.escalation.value.stuckIds;
    match d.action
    case TakeOver =>
      if source.SpecialistRetry? then
        st.(completed := Merge(st.completed, HandResults(st, stuck, OrEmpty(d.output))))
      else
        st.(finalOutput := OrEmpty(d.output))
    case Modify =>
      if IsPlanSource(source) then st
      else if source.SpecialistRetry? then
        st.(feedback := Merge(st.feedback, Writes(stuck, OrEmpty(d.feedback))),
            completed := Merge(st.completed, Tombstones(stuck)),
            retryCounts := Merge(st.retryCounts, Writes(stuck, 0)))
      else
        var redo := RedoIds(st, st.review.value);
        st.(feedback := Merge(st.feedback, Writes(redo, OrEmpty(d.feedback))),
            completed := Merge(st.completed, Tombstones(redo)))
    case Approve =>
      if source.SpecialistRetry? then
        st.(completed := Merge(st.completed, Tombstones(stuck)),
            retryCounts := Merge(st.retryCounts, Writes(stuck, 0)))
      else st
    case Reject => st
  }

  function DecisionNode(st: State): State
    requires DecisionApplies(st)
  {
    Log(DecisionUpdate(st), EvDecision(st.source.value, st.decision.value.action, st.escalation.value.stuckIds))
  }

  function RouteAfterDecision(action: Action, source: Source): Node {
    match action
    case Reject => RejectTask
    case TakeOver => if source.SpecialistRetry? then RouteBatch else Deliver
    case Modify =>
      if IsPlanSource(source) then PlanTask
      else if source.SpecialistRetry? then RouteBatch
      else ApplyReviewFeedback
    case Approve =>
      if IsPlanSource(source) || source.SpecialistRetry? then RouteBatch else Synthesize
  }

  // ---------------------------------------------------------------- the machine

  function Step(L: Limits, c: Config, i: Input): Config {
    var st := c.st;
    match c.pc
    case Intake => Config(Log(st, EvIntake), PlanTask)
    case PlanTask => var s := PlanNode(st, i.plan); Config(s, RouteAfterPlan(L, s))
    case RouteBatch =>
      Config(st, match DecideNextBatch(L, st)
                 case Escalate => HumanEscalation
                 case Batch(ids) => RunSpecialists(ids)
                 case ToReview => Review)
    case RunSpecialists(batch) =>
      if AllFound(st.plan, batch) then Config(RunBranches(st, st, batch, i.answers), RouteBatch)
      else Config(st, Crashed)
    case Review => var s := ReviewNode(st, i.review); Config(s, RouteAfterReview(L, s, i.review))
    case ApplyReviewFeedback =>
      if st.review.Some? then Config(FeedbackNode(st, st.review.value), RouteBatch) else Config(st, Crashed)
    case NotifyHuman =>
      if st.review.Some? then Config(NotifyNode(st), Synthesize) else Config(st, Crashed)
    case Synthesize => Config(Log(st.(finalOutput := i.text), EvSynthesize), Deliver)
    case Deliver => Config(Log(st.(status := Completed), EvDeliver), End)
    case RejectTask => Config(Log(st.(status := Rejected), EvReject), End)
    case HumanEscalation => Config(EscalationNode(L, st, i.decision), ApplyHumanDecision)
    case ApplyHumanDecision =>
      if DecisionApplies(st) then
        Config(DecisionNode(st), RouteAfterDecision(st.decision.value.action, st.source.value))
      else Config(st, Crashed)
    case End => c
    case Crashed => c
  }

  function Start(requireApproval: bool): Config {
    Config(State(Plan([], 0.0), map[], map[], map[], None, 0, requireApproval, None, None, None, "",
                 Running, []),
           Intake)
  }

  /** The configuration after consuming a sequence of inputs, one per step. */
  function Run(L: Limits, c: Config, inputs: seq<Input>): Config {
    if inputs == [] then c
    else Step(L, Run(L, c, inputs[..|inputs|-1]), inputs[|inputs|-1])
  }

  lemma RunSnoc(L: Limits, c: Config, inputs: seq<Input>, i: Input)
    ensures Run(L, c, inputs + [i]) == Step(L, Run(L, c, inputs), i)
  {
    assert (inputs + [i])[..|inputs|] == inputs;
  }

  /** The configurations a run passes through. */
  predicate Follows(L: Limits, path: seq<Config>, inputs: seq<Input>, k: nat)
    requires |path| == |inputs| + 1 && k < |inputs|
  {
    path[k+1] == Step(L, path[k], inputs[k])
  }

  ghost predicate IsPath(L: Limits, path: seq<Config>, inputs: seq<Input>) {
    |path| == |inputs| + 1 && forall k :: 0 <= k < |inputs| ==> Follows(L, path, inputs, k)
  }

  lemma {:induction false} PathIsRun(L: Limits, path: seq<Config>, inputs: seq<Input>)
    requires IsPath(L, path, inputs)
    ensures Run(L, path[0], inputs) == path[|inputs|]
  {
    if inputs != [] {
      var last := |inputs| - 1;
      forall k | 0 <= k < last ensures Follows(L, path[..|inputs|], inputs[..last], k) {
        assert Follows(L, path, inputs, k);
      }
      PathIsRun(L, path[..|inputs|], inputs[..last]);
      assert Follows(L, path, inputs, last);
    }
  }

  /** One step further along a path. */
  lemma PathSnoc(L: Limits, path: seq<Config>, inputs: seq<Input>, c: Config, i: Input)
    requires IsPath(L, path, inputs) && c == Step(L, path[|inputs|], i)
    ensures IsPath(L, path + [c], inputs + [i])
  {
    forall k | 0 <= k < |inputs| + 1 ensures Follows(L, path + [c], inputs + [i], k) {
      if k < |inputs| { assert Follows(L, path, inputs, k); }
    }
  }

  lemma TwoSteps(L: Limits, c0: Config, c1: Config, c2: Config, a: Input, b: Input)
    requires c1 == Step(L, c0, a) && c2 == Step(L, c1, b)
    ensures Run(L, c0, [a, b]) == c2
  {
    PathIsRun(L, [c0, c1, c2], [a, b]);
  }

  lemma ThreeSteps(L: Limits, c0: Config, c1: Config, c2: Config, c3: Config, a: Input, b: Input, d: Input)
    requires c1 == Step(L, c0, a) && c2 == Step(L, c1, b) && c3 == Step(L, c2, d)
    ensures Run(L, c0, [a, b, d]) == c3
  {
    PathIsRun(L, [c0, c1, c2, c3], [a, b, d]);
  }
}
