/** The human approval queue (human_loop/approval_queue.py), with each method one atomic step. */
module ApprovalQueue {
  import opened Schemas

  datatype ApprovalStatus = Pending | Resolved | Notified

  datatype ChatMessage = ChatMessage(role: string, content: string)

  /** `source` is None for a notification, which no graph node raised by interrupting. */
  datatype PendingApproval = PendingApproval(
    taskId: Id, escalation: Escalation, source: Option<Source>, status: ApprovalStatus,
    decision: Option<HumanDecision>, messages: seq<ChatMessage>, createdAt: real, resolvedAt: Option<real>)

  /** The two Redis structures: the hash of records and the set of pending ids. */
  datatype Queue = Queue(approvals: map<Id, PendingApproval>, pending: set<Id>)

  function Fresh(taskId: Id, e: Escalation, s: Source, now: real): PendingApproval {
    PendingApproval(taskId, e, Some(s), Pending, None, [], now, None)
  }

  function Submitted(q: Queue, a: PendingApproval): Queue {
    Queue(q.approvals[a.taskId := a], q.pending + {a.taskId})
  }

  function ResolvedWith(a: PendingApproval, d: HumanDecision, now: real): PendingApproval {
    a.(decision := Some(d), status := Resolved, resolvedAt := Some(now))
  }

  /** A second resolve simply overwrites the first. */
  function AfterResolve(q: Queue, taskId: Id, d: HumanDecision, now: real): Queue {
    if taskId in q.approvals then
      Queue(q.approvals[taskId := ResolvedWith(q.approvals[taskId], d, now)], q.pending - {taskId})
    else q
  }

  /** Non-blocking: the pending set is left alone. */
  function AfterNotify(q: Queue, taskId: Id, e: Escalation, now: real): Queue {
    q.(approvals := q.approvals[taskId := PendingApproval(taskId, e, None, Notified, None, [], now, Some(now))])
  }

  function AfterMessage(q: Queue, taskId: Id, m: ChatMessage): Queue {
    if taskId in q.approvals then
      var a := q.approvals[taskId];
      q.(approvals := q.approvals[taskId := a.(messages := a.messages + [m])])
    else q
  }

  /** What one poll of `wait_for_decision` finds. */
  function Decision(q: Queue, taskId: Id): Option<HumanDecision> {
    if taskId in q.approvals && q.approvals[taskId].status.Resolved? then q.approvals[taskId].decision else None
  }

  /** The pending set is exactly the ids whose record is pending. */
  ghost predicate PendingIsExact(q: Queue) {
    forall id :: id in q.pending <==> id in q.approvals && q.approvals[id].status.Pending?
  }

  class ApprovalQueue {
    var approvals: map<Id, PendingApproval>
    var pending: set<Id>

    function Contents(): Queue
      reads this
    {
      Queue(approvals, pending)
    }

    constructor ()
      ensures Contents() == Queue(map[], {})
    {
      approvals, pending := map[], {};
    }

    method Submit(a: PendingApproval)
      modifies this
      ensures Contents() == Submitted(old(Contents()), a)
           == Queue(old(approvals)[a.taskId := a], old(pending) + {a.taskId})
      ensures a.status.Pending? && old(PendingIsExact(Contents())) ==> PendingIsExact(Contents())
    {
      approvals := approvals[a.taskId := a];
      pending := pending + {a.taskId};
    }

    method Get(taskId: Id) returns (r: Option<PendingApproval>)
      ensures r == if taskId in approvals then Some(approvals[taskId]) else None
    {
      r := if taskId in approvals then Some(approvals[taskId]) else None;
    }

    /** None stands for the KeyError of an unknown task. */
    method Resolve(taskId: Id, d: HumanDecision, now: real) returns (r: Option<PendingApproval>)
      modifies this
      ensures Contents() == AfterResolve(old(Contents()), taskId, d, now)
      ensures r.Some? <==> taskId in old(approvals)
      ensures r.None? ==> Contents() == old(Contents())
      ensures r.Some? ==>
                && r.value == old(approvals)[taskId].(status := Resolved, decision := Some(d), resolvedAt := Some(now))
                && Contents() == Queue(old(approvals)[taskId := r.value], old(pending) - {taskId})
                && Decision(Contents(), taskId) == Some(d)
      ensures old(PendingIsExact(Contents())) ==> PendingIsExact(Contents())
    {
      var a := Get(taskId);
      if a.None? {
        return None;
      }
      var resolved := ResolvedWith(a.value, d, now);
      approvals := approvals[taskId := resolved];
      pending := pending - {taskId};
      r := Some(resolved);
    }

    /** Keeps the pending set exact only for a task that is not waiting. */
    method Notify(taskId: Id, e: Escalation, now: real)
      modifies this
      ensures Contents() == AfterNotify(old(Contents()), taskId, e, now) == Queue(
                old(approvals)[taskId := PendingApproval(taskId, e, None, Notified, None, [], now, Some(now))],
                old(pending))
      ensures old(PendingIsExact(Contents())) ==> (PendingIsExact(Contents()) <==> taskId !in old(pending))
    {
      approvals := approvals[taskId := PendingApproval(taskId, e, None, Notified, None, [], now, Some(now))];
      if taskId in pending {
        assert !approvals[taskId].status.Pending?;
      }
    }

    method AppendMessage(taskId: Id, m: ChatMessage) returns (ok: bool)
      modifies this
      ensures Contents() == AfterMessage(old(Contents()), taskId, m)
      ensures ok <==> taskId in old(approvals)
      ensures !ok ==> Contents() == old(Contents())
      ensures ok ==>
                var a := old(approvals)[taskId];
                Contents() == Queue(old(approvals)[taskId := a.(messages := a.messages + [m])], old(pending))
      ensures old(PendingIsExact(Contents())) ==> PendingIsExact(Contents())
    {
      var a := Get(taskId);
      if a.None? {
        return false;
      }
      approvals := approvals[taskId := a.value.(messages := a.value.messages + [m])];
      ok := true;
    }

    /** The record of every pending id that has one, in whatever order the set yields the `ids`; with
        an exact pending set, exactly the pending records. */
    method ListPending() returns (r: seq<PendingApproval>, ghost ids: seq<Id>)
      ensures Distinct(ids) && |r| == |ids|
      ensures forall id :: id in ids <==> id in pending && id in approvals
      ensures forall k :: 0 <= k < |r| ==> ids[k] in approvals && r[k] == approvals[ids[k]]
      ensures PendingIsExact(Contents()) ==>
                forall id :: id in ids <==> id in approvals && approvals[id].status.Pending?
    {
      r, ids := [], [];
      var todo := pending;
      while todo != {}
        invariant todo <= pending
        invariant Distinct(ids) && |r| == |ids|
        invariant forall id :: id in ids <==> id in pending && id !in todo && id in approvals
        invariant forall k :: 0 <= k < |r| ==> ids[k] in approvals && r[k] == approvals[ids[k]]
        decreases todo
      {
        var id :| id in todo;
        var a := Get(id);
        if a.Some? {
          r, ids := r + [a.value], ids + [id];
        }
        todo := todo - {id};
      }
    }
  }
}
