/** One runner per task and any number of reviewers around the approval queue, interleaved freely:
    the decision a runner resumes with always answers the escalation it is waiting on. */
module Escalations {
  import opened Schemas
  import opened ApprovalQueue

  datatype RunnerState = Running | Waiting | Finished

  /** What a human is asked: an escalation, and when it was submitted. */
  datatype Request = Request(escalation: Escalation, createdAt: real)

  function RequestOf(a: PendingApproval): Request {
    Request(a.escalation, a.createdAt)
  }

  /** What happened, in order. A resolve is logged with the request of the record it decides. */
  datatype Event =
    | DidSubmit(task: Id, request: Request)
    | DidResolve(task: Id, request: Request, decision: HumanDecision)
    | DidResume(task: Id, decision: HumanDecision)
    | DidNotify(task: Id)

  datatype World = World(queue: Queue, runners: map<Id, RunnerState>, log: seq<Event>)

  /** The atomic steps: a runner hits an interrupt, polls, or finishes; a reviewer resolves or asks. */
  datatype Move =
    | Interrupt(task: Id, escalation: Escalation, source: Source, now: real)
    | Poll(task: Id)
    | Finish(task: Id, notify: bool, escalation: Escalation, now: real)
    | Resolve(task: Id, decision: HumanDecision, now: real)
    | Ask(task: Id, message: ChatMessage)

  function StateOf(w: World, task: Id): RunnerState {
    if task in w.runners then w.runners[task] else Running
  }

  function Step(w: World, m: Move): World {
    match m
    case Interrupt(t, e, s, now) =>
      if StateOf(w, t).Running? then
        World(Submitted(w.queue, Fresh(t, e, s, now)), w.runners[t := Waiting],
              w.log + [DidSubmit(t, Request(e, now))])
      else w
    case Poll(t) =>
      if StateOf(w, t).Waiting? && Decision(w.queue, t).Some? then
        w.(runners := w.runners[t := Running], log := w.log + [DidResume(t, Decision(w.queue, t).value)])
      else w
    case Finish(t, notify, e, now) =>
      if StateOf(w, t).Running? then
        if notify then
          World(AfterNotify(w.queue, t, e, now), w.runners[t := Finished], w.log + [DidNotify(t)])
        else w.(runners := w.runners[t := Finished])
      else w
    case Resolve(t, d, now) =>
      if t in w.queue.approvals then
        w.(queue := AfterResolve(w.queue, t, d, now),
           log := w.log + [DidResolve(t, RequestOf(w.queue.approvals[t]), d)])
      else w
    case Ask(t, m) => w.(queue := AfterMessage(w.queue, t, m))
  }

  const NOTHING: World := World(Queue(map[], {}), map[], [])

  function Run(moves: seq<Move>): World {
    if moves == [] then NOTHING else Step(Run(moves[..|moves|-1]), moves[|moves|-1])
  }

  // ---------------------------------------------------------------- the queue is a view of the log

  /** The record a task should have, read from the log alone. */
  datatype View =
    NoRecord | AwaitsHuman(request: Request) | Decided(request: Request, decision: HumanDecision) | Informed

  function ViewOf(log: seq<Event>, task: Id): View {
    if log == [] then NoRecord
    else
      var e := log[|log|-1];
      if e.task != task || e.DidResume? then ViewOf(log[..|log|-1], task)
      else
        match e
        case DidSubmit(_, q) => AwaitsHuman(q)
        case DidResolve(_, q, d) => Decided(q, d)
        case DidNotify(_) => Informed
        case DidResume(_, _) => NoRecord
  }

  function RecordView(q: Queue, task: Id): View {
    if task !in q.approvals then NoRecord
    else
      var a := q.approvals[task];
      match a.status
      case Pending => AwaitsHuman(RequestOf(a))
      case Resolved => if a.decision.Some? then Decided(RequestOf(a), a.decision.value) else NoRecord
      case Notified => Informed
  }

  /** The submission the runner has not resumed from yet. */
  function Open(log: seq<Event>, task: Id): Option<Request> {
    if log == [] then None
    else
      var e := log[|log|-1];
      if e.task == task && e.DidSubmit? then Some(e.request)
      else if e.task == task && e.DidResume? then None
      else Open(log[..|log|-1], task)
  }

  /** The record of the task is about this request. */
  predicate HoldsRequest(q: Queue, task: Id, request: Request) {
    task in q.approvals && RequestOf(q.approvals[task]) == request
  }

  ghost predicate Consistent(w: World) {
    && PendingIsExact(w.queue)
    && (forall t :: RecordView(w.queue, t) == ViewOf(w.log, t))
    && (forall t :: t in w.queue.approvals && w.queue.approvals[t].status.Resolved? ==>
          w.queue.approvals[t].decision.Some?)
    && (forall t :: StateOf(w, t).Waiting? <==> Open(w.log, t).Some?)
    && (forall t :: Open(w.log, t).Some? ==> HoldsRequest(w.queue, t, Open(w.log, t).value))
    && (forall t :: t in w.queue.pending ==> StateOf(w, t).Waiting?)
  }

  lemma LogSnoc(log: seq<Event>, e: Event)
    ensures (log + [e])[..|log|] == log && (log + [e])[|log|] == e
  {
  }

  /** An event of one task changes nothing that is read from the log about another. */
  lemma OtherTasksUnread(log: seq<Event>, e: Event, task: Id)
    requires e.task != task
    ensures ViewOf(log + [e], task) == ViewOf(log, task)
    ensures Open(log + [e], task) == Open(log, task)
  {
    LogSnoc(log, e);
  }

  /** What `Consistent` says of one task. */
  ghost predicate ConsistentOn(w: World, t: Id) {
    && (t in w.queue.pending <==> t in w.queue.approvals && w.queue.approvals[t].status.Pending?)
    && RecordView(w.queue, t) == ViewOf(w.log, t)
    && (t in w.queue.approvals && w.queue.approvals[t].status.Resolved? ==> w.queue.approvals[t].decision.Some?)
    && (StateOf(w, t).Waiting? <==> Open(w.log, t).Some?)
    && (Open(w.log, t).Some? ==> HoldsRequest(w.queue, t, Open(w.log, t).value))
    && (t in w.queue.pending ==> StateOf(w, t).Waiting?)
  }

  lemma ConsistentTaskByTask(w: World)
    ensures Consistent(w) <==> forall t :: ConsistentOn(w, t)
  {
    if Consistent(w) {
      forall t ensures ConsistentOn(w, t) {}
    }
    if forall t :: ConsistentOn(w, t) {
      forall id ensures id in w.queue.pending <==> id in w.queue.approvals && w.queue.approvals[id].status.Pending? {
        assert ConsistentOn(w, id);
      }
      forall t ensures RecordView(w.queue, t) == ViewOf(w.log, t) { assert ConsistentOn(w, t); }
      forall t | t in w.queue.approvals && w.queue.approvals[t].status.Resolved?
        ensures w.queue.approvals[t].decision.Some?
      {
        assert ConsistentOn(w, t);
      }
      forall t ensures StateOf(w, t).Waiting? <==> Open(w.log, t).Some? { assert ConsistentOn(w, t); }
      forall t | Open(w.log, t).Some? ensures HoldsRequest(w.queue, t, Open(w.log, t).value) {
        assert ConsistentOn(w, t);
      }
      forall t | t in w.queue.pending ensures StateOf(w, t).Waiting? { assert ConsistentOn(w, t); }
    }
  }

  lemma InterruptKeeps(w: World, m: Move, t: Id)
    requires m.Interrupt? && ConsistentOn(w, t)
    ensures ConsistentOn(Step(w, m), t)
  {
    var e := DidSubmit(m.task, Request(m.escalation, m.now));
    LogSnoc(w.log, e);
    if t != m.task { OtherTasksUnread(w.log, e, t); }
  }

  lemma PollKeeps(w: World, m: Move, t: Id)
    requires m.Poll? && ConsistentOn(w, t)
    ensures ConsistentOn(Step(w, m), t)
  {
    if Decision(w.queue, m.task).Some? {
      var e := DidResume(m.task, Decision(w.queue, m.task).value);
      LogSnoc(w.log, e);
      if t != m.task { OtherTasksUnread(w.log, e, t); }
    }
  }

  lemma FinishKeeps(w: World, m: Move, t: Id)
    requires m.Finish? && ConsistentOn(w, t)
    ensures ConsistentOn(Step(w, m), t)
  {
    LogSnoc(w.log, DidNotify(m.task));
    if t != m.task { OtherTasksUnread(w.log, DidNotify(m.task), t); }
  }

  lemma ResolveKeeps(w: World, m: Move, t: Id)
    requires m.Resolve? && ConsistentOn(w, t)
    ensures ConsistentOn(Step(w, m), t)
  {
    if m.task in w.queue.approvals {
      var e := DidResolve(m.task, RequestOf(w.queue.approvals[m.task]), m.decision);
      LogSnoc(w.log, e);
      if t != m.task { OtherTasksUnread(w.log, e, t); }
    }
  }

  lemma AskKeeps(w: World, m: Move, t: Id)
    requires m.Ask? && ConsistentOn(w, t)
    ensures ConsistentOn(Step(w, m), t)
  {
  }

  lemma StepKeepsConsistent(w: World, m: Move)
    requires Consistent(w)
    ensures Consistent(Step(w, m))
  {
    ConsistentTaskByTask(w);
    forall t ensures ConsistentOn(Step(w, m), t) {
      match m
      case Interrupt(_, _, _, _) => InterruptKeeps(w, m, t);
      case Poll(_) => PollKeeps(w, m, t);
      case Finish(_, _, _, _) => FinishKeeps(w, m, t);
      case Resolve(_, _, _) => ResolveKeeps(w, m, t);
      case Ask(_, _) => AskKeeps(w, m, t);
    }
    ConsistentTaskByTask(Step(w, m));
  }

  /** Over every interleaving the pending set is exactly the pending records, every record is the one
      the log prescribes, and only waiting tasks are pending. */
  lemma {:induction false} QueueFollowsTheLog(moves: seq<Move>)
    ensures Consistent(Run(moves))
  {
    if moves != [] {
      QueueFollowsTheLog(moves[..|moves|-1]);
      StepKeepsConsistent(Run(moves[..|moves|-1]), moves[|moves|-1]);
    }
  }

  // ---------------------------------------------------------------- freshness

  /** The decision at the end of the log answers the task's open submission: it was written by the
      last resolve, after that submission, on a record of that very request, and the runner has not
      resumed in between. */
  ghost predicate Answers(log: seq<Event>, task: Id, decision: HumanDecision) {
    exists s, r :: AnswersAt(log, task, decision, s, r)
  }

  ghost predicate AnswersAt(log: seq<Event>, task: Id, decision: HumanDecision, s: int, r: int) {
    && 0 <= s < r < |log|
    && log[s].DidSubmit? && log[s].task == task && log[r] == DidResolve(task, log[s].request, decision)
    && (forall k :: s < k < |log| && log[k].task == task ==> !log[k].DidSubmit? && !log[k].DidResume?)
    && (forall k :: r < k < |log| && log[k].task == task ==> !log[k].DidResolve?)
  }

  /** The open submission of a waiting task. */
  lemma {:induction false} OpenSubmission(log: seq<Event>, task: Id) returns (s: int)
    requires Open(log, task).Some?
    ensures 0 <= s < |log| && log[s] == DidSubmit(task, Open(log, task).value)
    ensures forall k :: s < k < |log| && log[k].task == task ==> !log[k].DidSubmit? && !log[k].DidResume?
  {
    var e := log[|log|-1];
    if e.task == task && e.DidSubmit? {
      s := |log| - 1;
    } else {
      s := OpenSubmission(log[..|log|-1], task);
    }
  }

  /** The last word on a decided task. */
  lemma {:induction false} LastResolve(log: seq<Event>, task: Id) returns (r: int)
    requires ViewOf(log, task).Decided?
    ensures 0 <= r < |log| && log[r] == DidResolve(task, ViewOf(log, task).request, ViewOf(log, task).decision)
    ensures forall k :: r < k < |log| && log[k].task == task ==> log[k].DidResume?
  {
    var e := log[|log|-1];
    if e.task != task || e.DidResume? {
      r := LastResolve(log[..|log|-1], task);
    } else {
      r := |log| - 1;
    }
  }

  lemma DecisionAnswers(w: World, task: Id)
    requires Consistent(w) && StateOf(w, task).Waiting? && Decision(w.queue, task).Some?
    ensures Answers(w.log, task, Decision(w.queue, task).value)
  {
    assert RecordView(w.queue, task) == ViewOf(w.log, task);
    assert HoldsRequest(w.queue, task, Open(w.log, task).value);
    var s := OpenSubmission(w.log, task);
    var r := LastResolve(w.log, task);
    assert r != s;
    assert AnswersAt(w.log, task, Decision(w.queue, task).value, s, r);
  }

  ghost predicate EveryResumeIsFresh(log: seq<Event>) {
    forall k :: 0 <= k < |log| && log[k].DidResume? ==> Answers(log[..k], log[k].task, log[k].decision)
  }

  lemma FreshSnoc(log: seq<Event>, e: Event)
    requires EveryResumeIsFresh(log)
    requires e.DidResume? ==> Answers(log, e.task, e.decision)
    ensures EveryResumeIsFresh(log + [e])
  {
    var t := log + [e];
    forall k | 0 <= k < |t| && t[k].DidResume? ensures Answers(t[..k], t[k].task, t[k].decision) {
      assert t[..k] == if k < |log| then log[..k] else log;
    }
  }

  /** Freshness, over every interleaving of runners and reviewers: each decision a runner resumes
      with was written by a resolve that came after the very submission it waits on, by a human who was
      asked that very request, and is the last one written; a decision left over from an earlier
      escalation is never used. */
  lemma {:induction false} DecisionsAreFresh(moves: seq<Move>)
    ensures EveryResumeIsFresh(Run(moves).log)
  {
    if moves != [] {
      var front, m := moves[..|moves|-1], moves[|moves|-1];
      DecisionsAreFresh(front);
      QueueFollowsTheLog(front);
      var w := Run(front);
      match m
      case Interrupt(t, e, _, now) => FreshSnoc(w.log, DidSubmit(t, Request(e, now)));
      case Poll(t) =>
        if StateOf(w, t).Waiting? && Decision(w.queue, t).Some? {
          DecisionAnswers(w, t);
          FreshSnoc(w.log, DidResume(t, Decision(w.queue, t).value));
        }
      case Finish(t, _, _, _) => FreshSnoc(w.log, DidNotify(t));
      case Resolve(t, d, _) =>
        if t in w.queue.approvals { FreshSnoc(w.log, DidResolve(t, RequestOf(w.queue.approvals[t]), d)); }
      case Ask(_, _) =>
    }
  }
}
