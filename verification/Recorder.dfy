/** The tracing runner (tracing/recorder.py): each entry of the accumulating trace becomes one span,
    followed by one span per tool call, exactly once over any number of interrupts and resumes. */
module Recorder {
  import opened Schemas
  import opened TraceStore
  import Q = ApprovalQueue

  datatype UsageEntry = UsageEntry(model: string, inputTokens: int, outputTokens: int)

  datatype CallEntry = CallEntry(tool: string, success: bool, latencyMs: real)

  /** One entry of the state's `trace_events`. */
  datatype TraceEvent = TraceEvent(
    node: string, agent: string, status: string, startedAt: real, endedAt: real,
    usage: seq<UsageEntry>, toolCalls: seq<CallEntry>)

  /** Prices per million tokens, with the fallback row of the table. */
  datatype Rate = Rate(input: real, output: real)
  datatype Pricing = Pricing(table: map<string, Rate>, fallback: Rate)

  function EstimateCost(p: Pricing, u: UsageEntry): real {
    var rate := if u.model in p.table then p.table[u.model] else p.fallback;
    u.inputTokens as real * rate.input / 1000000.0 + u.outputTokens as real * rate.output / 1000000.0
  }

  /** What a list of usage entries adds up to. */
  function UsageTotals(p: Pricing, us: seq<UsageEntry>): Totals {
    if us == [] then NO_TOTALS
    else
      var u := us[|us|-1];
      Plus(UsageTotals(p, us[..|us|-1]), Totals(u.inputTokens, u.outputTokens, EstimateCost(p, u), 0))
  }

  /** What a run's events add up to: all their usage, and all their tool calls. */
  function EventTotals(p: Pricing, events: seq<TraceEvent>): Totals {
    if events == [] then NO_TOTALS
    else
      var e := events[|events|-1];
      Plus(Plus(EventTotals(p, events[..|events|-1]), UsageTotals(p, e.usage)), Totals(0, 0, 0.0, |e.toolCalls|))
  }

  /** A million tokens cost what the model's row of the table says, the fallback row's price if it
      has none, and prices add up. */
  lemma PricesAreLinear(p: Pricing, model: string, a: int, b: int, c: int, d: int)
    ensures var rate := if model in p.table then p.table[model] else p.fallback;
            && EstimateCost(p, UsageEntry(model, 1000000, 0)) == rate.input
            && EstimateCost(p, UsageEntry(model, 0, 1000000)) == rate.output
    ensures EstimateCost(p, UsageEntry(model, a + c, b + d))
         == EstimateCost(p, UsageEntry(model, a, b)) + EstimateCost(p, UsageEntry(model, c, d))
  {
    var rate := if model in p.table then p.table[model] else p.fallback;
    assert 1000000 as real == 1000000.0;
    Distribute(a as real, c as real, rate.input);
    Distribute(b as real, d as real, rate.output);
  }

  lemma Distribute(x: real, y: real, r: real)
    ensures (x + y) * r / 1000000.0 == x * r / 1000000.0 + y * r / 1000000.0
  {
  }

  function NodeSpan(p: Pricing, taskId: Id, e: TraceEvent): SpanRow {
    var t := UsageTotals(p, e.usage);
    SpanRow(taskId, e.node, e.agent, e.status, None, e.startedAt, e.endedAt,
            (e.endedAt - e.startedAt) * 1000.0, t.inputTokens, t.outputTokens, t.costUsd)
  }

  function CallSpan(taskId: Id, e: TraceEvent, c: CallEntry): SpanRow {
    var startedAt := e.endedAt - c.latencyMs / 1000.0;
    SpanRow(taskId, "tool:" + c.tool, e.agent, if c.success then "success" else "failure", Some(c.tool),
            startedAt, e.endedAt, (e.endedAt - startedAt) * 1000.0, 0, 0, 0.0)
  }

  function CallSpans(taskId: Id, e: TraceEvent, calls: seq<CallEntry>): seq<SpanRow> {
    if calls == [] then [] else CallSpans(taskId, e, calls[..|calls|-1]) + [CallSpan(taskId, e, calls[|calls|-1])]
  }

  function EventSpans(p: Pricing, taskId: Id, e: TraceEvent): seq<SpanRow> {
    [NodeSpan(p, taskId, e)] + CallSpans(taskId, e, e.toolCalls)
  }

  /** Row by row: the event with its summed usage, then each of its tool calls in order, with the
      latency it reported. */
  lemma {:induction false} EventRows(p: Pricing, taskId: Id, e: TraceEvent)
    ensures var rows, t := EventSpans(p, taskId, e), UsageTotals(p, e.usage);
            && |rows| == 1 + |e.toolCalls|
            && rows[0] == SpanRow(taskId, e.node, e.agent, e.status, None, e.startedAt, e.endedAt,
                                  (e.endedAt - e.startedAt) * 1000.0, t.inputTokens, t.outputTokens, t.costUsd)
            && forall k :: 0 <= k < |e.toolCalls| ==> IsCallRow(rows[1 + k], taskId, e, e.toolCalls[k])
  {
    CallRows(taskId, e, e.toolCalls);
  }

  predicate IsCallRow(row: SpanRow, taskId: Id, e: TraceEvent, c: CallEntry) {
    && row.taskId == taskId && row.node == "tool:" + c.tool && row.agent == e.agent && row.tool == Some(c.tool)
    && row.status == (if c.success then "success" else "failure")
    && row.endedAt == e.endedAt && row.latencyMs == c.latencyMs
    && row.inputTokens == 0 && row.outputTokens == 0 && row.costUsd == 0.0
  }

  lemma {:induction false} CallRows(taskId: Id, e: TraceEvent, calls: seq<CallEntry>)
    ensures var rows := CallSpans(taskId, e, calls);
            |rows| == |calls| && forall k :: 0 <= k < |calls| ==> IsCallRow(rows[k], taskId, e, calls[k])
  {
    if calls != [] {
      CallRows(taskId, e, calls[..|calls|-1]);
    }
  }

  /** The spans a run should leave: every event once, in order, each followed by its tool calls. */
  function RunSpans(p: Pricing, taskId: Id, events: seq<TraceEvent>): seq<SpanRow> {
    if events == [] then []
    else RunSpans(p, taskId, events[..|events|-1]) + EventSpans(p, taskId, events[|events|-1])
  }

  function Escalations(events: seq<TraceEvent>): nat {
    if events == [] then 0
    else Escalations(events[..|events|-1]) + (if events[|events|-1].node == "human_escalation" then 1 else 0)
  }

  // ---------------------------------------------------------------- totals of the spans

  lemma {:induction false} CallSpansTotal(taskId: Id, e: TraceEvent, calls: seq<CallEntry>)
    ensures TotalsOf(CallSpans(taskId, e, calls), taskId) == Totals(0, 0, 0.0, |calls|)
  {
    if calls != [] {
      var front, last := calls[..|calls|-1], CallSpan(taskId, e, calls[|calls|-1]);
      CallSpansTotal(taskId, e, front);
      TotalsConcat(CallSpans(taskId, e, front), [last], taskId);
      OneSpanTotal(last, taskId);
    }
  }

  lemma EventSpansTotal(p: Pricing, taskId: Id, e: TraceEvent)
    ensures TotalsOf(EventSpans(p, taskId, e), taskId)
         == Plus(UsageTotals(p, e.usage), Totals(0, 0, 0.0, |e.toolCalls|))
  {
    OneSpanTotal(NodeSpan(p, taskId, e), taskId);
    CallSpansTotal(taskId, e, e.toolCalls);
    TotalsConcat([NodeSpan(p, taskId, e)], CallSpans(taskId, e, e.toolCalls), taskId);
    UsageHasNoToolCalls(p, e.usage);
  }

  lemma {:induction false} UsageHasNoToolCalls(p: Pricing, us: seq<UsageEntry>)
    ensures UsageTotals(p, us).toolCalls == 0
  {
    if us != [] { UsageHasNoToolCalls(p, us[..|us|-1]); }
  }

  lemma PlusAssociates(a: Totals, b: Totals, c: Totals)
    ensures Plus(a, Plus(b, c)) == Plus(Plus(a, b), c)
  {
  }

  /** The store's aggregate over a run's spans is the sum over its events. */
  lemma {:induction false} RunSpansTotal(p: Pricing, taskId: Id, events: seq<TraceEvent>)
    ensures TotalsOf(RunSpans(p, taskId, events), taskId) == EventTotals(p, events)
  {
    if events != [] {
      var front, e := events[..|events|-1], events[|events|-1];
      RunSpansTotal(p, taskId, front);
      EventSpansTotal(p, taskId, e);
      TotalsConcat(RunSpans(p, taskId, front), EventSpans(p, taskId, e), taskId);
      PlusAssociates(EventTotals(p, front), UsageTotals(p, e.usage), Totals(0, 0, 0.0, |e.toolCalls|));
    }
  }

  lemma {:induction false} EventTotalsConcat(p: Pricing, a: seq<TraceEvent>, b: seq<TraceEvent>)
    ensures EventTotals(p, a + b) == Plus(EventTotals(p, a), EventTotals(p, b))
  {
    if b == [] {
      assert a + b == a;
      PlusNothing(EventTotals(p, a));
    } else {
      var front, e := b[..|b|-1], b[|b|-1];
      assert (a + b)[..|a + b|-1] == a + front && (a + b)[|a + b|-1] == e;
      EventTotalsConcat(p, a, front);
      var calls := Totals(0, 0, 0.0, |e.toolCalls|);
      PlusAssociates(EventTotals(p, a), EventTotals(p, front), UsageTotals(p, e.usage));
      PlusAssociates(EventTotals(p, a), Plus(EventTotals(p, front), UsageTotals(p, e.usage)), calls);
    }
  }

  lemma {:induction false} UsageTotalsConcat(p: Pricing, a: seq<UsageEntry>, b: seq<UsageEntry>)
    ensures UsageTotals(p, a + b) == Plus(UsageTotals(p, a), UsageTotals(p, b))
  {
    if b == [] {
      assert a + b == a;
      PlusNothing(UsageTotals(p, a));
    } else {
      assert (a + b)[..|a + b|-1] == a + b[..|b|-1];
      UsageTotalsConcat(p, a, b[..|b|-1]);
    }
  }

  /** What a run's events add up to, column by column: the sums over any two parts of it. */
  lemma EventTotalsAddUp(p: Pricing, a: seq<TraceEvent>, b: seq<TraceEvent>)
    ensures IsSum(EventTotals(p, a + b), EventTotals(p, a), EventTotals(p, b))
  {
    EventTotalsConcat(p, a, b);
    SumOf(EventTotals(p, a), EventTotals(p, b));
  }

  lemma SumOf(a: Totals, b: Totals)
    ensures IsSum(Plus(a, b), a, b)
  {
  }

  lemma UsageTotalsAddUp(p: Pricing, a: seq<UsageEntry>, b: seq<UsageEntry>)
    ensures IsSum(UsageTotals(p, a + b), UsageTotals(p, a), UsageTotals(p, b))
  {
    UsageTotalsConcat(p, a, b);
    SumOf(UsageTotals(p, a), UsageTotals(p, b));
  }

  /** One usage entry counts its tokens and their price. */
  lemma OneUsageTotal(p: Pricing, u: UsageEntry)
    ensures UsageTotals(p, [u]) == Totals(u.inputTokens, u.outputTokens, EstimateCost(p, u), 0)
  {
    assert [u][..0] == [];
  }

  /** One event counts its usage and its tool calls. */
  lemma OneEventTotal(p: Pricing, e: TraceEvent)
    ensures EventTotals(p, [e]) == UsageTotals(p, e.usage).(toolCalls := |e.toolCalls|)
  {
    assert [e][..0] == [];
    UsageHasNoToolCalls(p, e.usage);
    WithCalls(UsageTotals(p, e.usage), |e.toolCalls|);
  }

  lemma WithCalls(t: Totals, n: nat)
    requires t.toolCalls == 0
    ensures Plus(Plus(NO_TOTALS, t), Totals(0, 0, 0.0, n)) == t.(toolCalls := n)
  {
  }

  // ---------------------------------------------------------------- recording

  /** The sums over an event's usage entries. */
  method SumUsage(p: Pricing, usage: seq<UsageEntry>) returns (t: Totals)
    ensures t == UsageTotals(p, usage)
  {
    t := NO_TOTALS;
    for k := 0 to |usage|
      invariant t == UsageTotals(p, usage[..k])
    {
      assert usage[..k+1][..k] == usage[..k];
      var u := usage[k];
      t := Plus(t, Totals(u.inputTokens, u.outputTokens, EstimateCost(p, u), 0));
    }
    assert usage[..|usage|] == usage;
  }

  lemma CallSpansSnoc(taskId: Id, e: TraceEvent, calls: seq<CallEntry>, k: nat)
    requires k < |calls|
    ensures CallSpans(taskId, e, calls[..k+1]) == CallSpans(taskId, e, calls[..k]) + [CallSpan(taskId, e, calls[k])]
  {
    assert calls[..k+1][..k] == calls[..k] && calls[..k+1][k] == calls[k];
  }

  lemma AppendSpan(before: seq<SpanRow>, spans: seq<SpanRow>, one: SpanRow)
    ensures (before + spans) + [one] == before + (spans + [one])
  {
  }

  /** One span per tool call of an event. */
  method AddCallSpans(store: TraceStore, taskId: Id, e: TraceEvent)
    modifies store`spans
    ensures store.spans == old(store.spans) + CallSpans(taskId, e, e.toolCalls)
  {
    ghost var before := store.spans;
    for k := 0 to |e.toolCalls|
      invariant store.spans == before + CallSpans(taskId, e, e.toolCalls[..k])
    {
      CallSpansSnoc(taskId, e, e.toolCalls, k);
      var c := e.toolCalls[k];
      AppendSpan(before, CallSpans(taskId, e, e.toolCalls[..k]), CallSpan(taskId, e, c));
      store.AddSpan(taskId, "tool:" + c.tool, e.agent, if c.success then "success" else "failure", Some(c.tool),
                    e.endedAt - c.latencyMs / 1000.0, e.endedAt, 0, 0, 0.0);
    }
    assert e.toolCalls[..|e.toolCalls|] == e.toolCalls;
  }

  /** One node's spans. */
  method PersistAndExport(store: TraceStore, p: Pricing, taskId: Id, e: TraceEvent)
    modifies store`spans
    ensures store.spans == old(store.spans) + EventSpans(p, taskId, e)
  {
    var t := SumUsage(p, e.usage);
    store.AddSpan(taskId, e.node, e.agent, e.status, None, e.startedAt, e.endedAt,
                  t.inputTokens, t.outputTokens, t.costUsd);
    AddCallSpans(store, taskId, e);
  }

  lemma RunSpansSnoc(p: Pricing, taskId: Id, events: seq<TraceEvent>, k: nat)
    requires k < |events|
    ensures RunSpans(p, taskId, events[..k+1]) == RunSpans(p, taskId, events[..k]) + EventSpans(p, taskId, events[k])
  {
    assert events[..k+1][..k] == events[..k] && events[..k+1][k] == events[k];
  }

  /** Records the events past the first `recorded`, and returns the new mark. */
  method RecordNewEvents(store: TraceStore, p: Pricing, taskId: Id, events: seq<TraceEvent>, recorded: nat)
    returns (mark: nat)
    requires recorded <= |events|
    modifies store`spans
    ensures mark == |events|
    ensures forall before :: old(store.spans) == before + RunSpans(p, taskId, events[..recorded]) ==>
              store.spans == before + RunSpans(p, taskId, events)
  {
    ghost var spans0 := store.spans;
    for k := recorded to |events|
      invariant forall before :: spans0 == before + RunSpans(p, taskId, events[..recorded]) ==>
                  store.spans == before + RunSpans(p, taskId, events[..k])
    {
      RunSpansSnoc(p, taskId, events, k);
      PersistAndExport(store, p, taskId, events[k]);
    }
    assert events[..|events|] == events;
    mark := |events|;
  }

  /** What one `invoke` of the graph returns: the whole trace so far, whether it is paused, and the
      escalation in the state, if any. */
  datatype Invocation =
    Invocation(events: seq<TraceEvent>, interrupted: bool, status: string, escalation: Option<Escalation>)

  /** The graph's state only ever appends to the trace, and every resume but the last pauses again. */
  ghost predicate IsSession(results: seq<Invocation>) {
    && results != []
    && (forall k :: 0 <= k < |results| ==> (results[k].interrupted <==> k < |results| - 1))
    && (forall k :: 0 < k < |results| ==> results[k-1].events <= results[k].events)
  }

  /** One interrupt: what was submitted when, and what the human answered when. */
  datatype Wait =
    Wait(escalation: Escalation, source: Source, createdAt: real, decision: HumanDecision, resolvedAt: real)

  function Answered(q: Q.Queue, taskId: Id, w: Wait): Q.Queue {
    Q.AfterResolve(Q.Submitted(q, Q.Fresh(taskId, w.escalation, w.source, w.createdAt)), taskId, w.decision,
                   w.resolvedAt)
  }

  function AnsweredAll(q: Q.Queue, taskId: Id, waits: seq<Wait>): Q.Queue {
    if waits == [] then q
    else Answered(AnsweredAll(q, taskId, waits[..|waits|-1]), taskId, waits[|waits|-1])
  }

  /** Submit, and wait until the human has resolved. */
  method AwaitHuman(queue: Q.ApprovalQueue, taskId: Id, w: Wait) returns (d: HumanDecision)
    modifies queue
    ensures queue.Contents() == Answered(old(queue.Contents()), taskId, w) && d == w.decision
  {
    queue.Submit(Q.Fresh(taskId, w.escalation, w.source, w.createdAt));
    var r := queue.Resolve(taskId, w.decision, w.resolvedAt);
    var a := queue.Get(taskId);
    d := a.value.decision.value;
  }

  lemma AnsweredSnoc(q: Q.Queue, taskId: Id, waits: seq<Wait>, k: nat)
    requires k < |waits|
    ensures AnsweredAll(q, taskId, waits[..k+1]) == Answered(AnsweredAll(q, taskId, waits[..k]), taskId, waits[k])
  {
    assert waits[..k+1][..k] == waits[..k] && waits[..k+1][k] == waits[k];
  }

  /** The invoke-and-resume loop: however the trace was cut into invocations, every event is recorded
      exactly once, and every interrupt is submitted and answered in turn. Without a queue the human
      answers at the prompt. */
  method RecordSession(store: TraceStore, queue: Q.ApprovalQueue?, p: Pricing, taskId: Id,
                       results: seq<Invocation>, waits: seq<Wait>)
    requires IsSession(results) && |waits| == |results| - 1
    modifies store`spans, queue
    ensures store.spans == old(store.spans) + RunSpans(p, taskId, results[|results|-1].events)
    ensures queue != null ==> queue.Contents() == AnsweredAll(old(queue.Contents()), taskId, waits)
  {
    ghost var before := store.spans;
    ghost var queue0 := if queue != null then queue.Contents() else Q.Queue(map[], {});
    var turn := 0;
    assert results[0].events[..0] == [] && before + RunSpans(p, taskId, []) == before;
    var recorded := RecordNewEvents(store, p, taskId, results[0].events, 0);
    while results[turn].interrupted
      invariant 0 <= turn < |results| && recorded == |results[turn].events|
      invariant store.spans == before + RunSpans(p, taskId, results[turn].events)
      invariant queue != null ==> queue.Contents() == AnsweredAll(queue0, taskId, waits[..turn])
      decreases |results| - turn
    {
      if queue != null {
        AnsweredSnoc(queue0, taskId, waits, turn);
        var decision := AwaitHuman(queue, taskId, waits[turn]);
      }
      assert results[turn+1].events[..recorded] == results[turn].events;
      turn := turn + 1;
      recorded := RecordNewEvents(store, p, taskId, results[turn].events, recorded);
    }
    assert turn == |results| - 1;
    assert waits[..turn] == waits;
  }

  method CountEscalations(events: seq<TraceEvent>) returns (n: nat)
    ensures n == Escalations(events)
  {
    n := 0;
    for k := 0 to |events|
      invariant n == Escalations(events[..k])
    {
      assert events[..k+1][..k] == events[..k];
      if events[k].node == "human_escalation" {
        n := n + 1;
      }
    }
    assert events[..|events|] == events;
  }

  /** In a store that knew nothing of the task, its aggregate is the run's. */
  lemma SessionTotals(p: Pricing, taskId: Id, before: seq<SpanRow>, events: seq<TraceEvent>)
    requires forall k :: 0 <= k < |before| ==> before[k].taskId != taskId
    ensures TotalsOf(before + RunSpans(p, taskId, events), taskId) == EventTotals(p, events)
  {
    TotalsAfterOthers(before, RunSpans(p, taskId, events), taskId);
    RunSpansTotal(p, taskId, events);
  }

  // ---------------------------------------------------------------- the human's time

  function WaitMs(w: Wait): real {
    (w.resolvedAt - w.createdAt) * 1000.0
  }

  /** What the source takes for the human's time: the last approval alone. */
  function LastWaitMs(waits: seq<Wait>): real {
    if waits == [] then 0.0 else WaitMs(waits[|waits|-1])
  }

  /** The time a human really kept the task waiting. */
  function TotalWaitMs(waits: seq<Wait>): real {
    if waits == [] then 0.0 else TotalWaitMs(waits[..|waits|-1]) + WaitMs(waits[|waits|-1])
  }

  /** What the human answered last is the task's record; other tasks are left alone. */
  lemma {:induction false} LastAnswer(q: Q.Queue, taskId: Id, waits: seq<Wait>)
    ensures var after := AnsweredAll(q, taskId, waits);
            && after.pending == q.pending - (if waits == [] then {} else {taskId})
            && after.approvals == if waits == [] then q.approvals
                                  else q.approvals[taskId := AnsweredRecord(taskId, waits[|waits|-1])]
  {
    if waits != [] {
      LastAnswer(q, taskId, waits[..|waits|-1]);
    }
  }

  /** The record a human's answer leaves. */
  function AnsweredRecord(taskId: Id, w: Wait): Q.PendingApproval {
    Q.PendingApproval(taskId, w.escalation, Some(w.source), Q.Resolved, Some(w.decision), [], w.createdAt,
                      Some(w.resolvedAt))
  }

  /** The review time computed from the queue is that of the last approval. */
  method ReviewTime(queue: Q.ApprovalQueue?, taskId: Id, ghost queue0: Q.Queue, ghost waits: seq<Wait>)
    returns (ms: real)
    requires queue != null ==> queue.Contents() == AnsweredAll(queue0, taskId, waits) && taskId !in queue0.approvals
    ensures ms == if queue == null then 0.0 else LastWaitMs(waits)
  {
    ms := 0.0;
    if queue != null {
      LastAnswer(queue0, taskId, waits);
      var a := queue.Get(taskId);
      if a.Some? && a.value.resolvedAt.Some? {
        ms := (a.value.resolvedAt.value - a.value.createdAt) * 1000.0;
      }
    }
  }

  /** The recorded review time is the real one exactly when all the earlier waits together took no
      time. */
  lemma LastWaitIsTotal(waits: seq<Wait>)
    ensures LastWaitMs(waits) == TotalWaitMs(waits)
       <==> (waits != [] ==> TotalWaitMs(waits[..|waits|-1]) == 0.0)
  {
  }

  lemma {:induction false} WaitsTakeTime(waits: seq<Wait>)
    requires forall k :: 0 <= k < |waits| ==> WaitMs(waits[k]) > 0.0
    ensures TotalWaitMs(waits) >= 0.0 && (waits != [] ==> TotalWaitMs(waits) > 0.0)
  {
    if waits != [] {
      WaitsTakeTime(waits[..|waits|-1]);
    }
  }

  /** With waits that take time: exactly when the human was asked at most once, and too little
      otherwise. */
  lemma ReviewTimeOfOneApproval(waits: seq<Wait>)
    requires forall k :: 0 <= k < |waits| ==> WaitMs(waits[k]) > 0.0
    ensures LastWaitMs(waits) <= TotalWaitMs(waits)
    ensures LastWaitMs(waits) == TotalWaitMs(waits) <==> |waits| <= 1
  {
    if waits != [] {
      WaitsTakeTime(waits[..|waits|-1]);
    }
  }

  // ---------------------------------------------------------------- the traced task

  /** The row a finished task should have. */
  function FinishedRow(p: Pricing, userId: string, text: string, taskType: string, last: Invocation,
                       humanReviewMs: real, times: (real, real)): TaskRow
  {
    TaskRow(userId, text, Some(taskType), last.status, times.0, Some(times.1), Some((times.1 - times.0) * 1000.0),
            humanReviewMs, EventTotals(p, last.events), Escalations(last.events))
  }

  /** A finished task whose state holds a NOTIFY escalation leaves a notification. */
  method NotifyIfAsked(queue: Q.ApprovalQueue?, taskId: Id, last: Invocation, now: real)
    modifies queue
    ensures queue != null ==> queue.pending == old(queue.pending)
    ensures queue != null ==>
              queue.approvals ==
                if last.escalation.Some? && last.escalation.value.level == Notify then
                  old(queue.approvals)[taskId := Q.PendingApproval(
                    taskId, last.escalation.value, None, Q.Notified, None, [], now, Some(now))]
                else old(queue.approvals)
  {
    if queue != null && last.escalation.Some? && last.escalation.value.level.Notify? {
      queue.Notify(taskId, last.escalation.value, now);
    }
  }

  function StartedRow(userId: string, text: string, startedAt: real): TaskRow {
    TaskRow(userId, text, None, "running", startedAt, None, None, 0.0, NO_TOTALS, 0)
  }

  /** Closes the row of a started task with what its spans and its trace add up to. */
  method CloseTask(store: TraceStore, p: Pricing, taskId: Id, userId: string, text: string, taskType: string,
                   last: Invocation, humanReviewMs: real, times: (real, real))
    requires taskId in store.tasks && store.tasks[taskId] == StartedRow(userId, text, times.0)
    requires TotalsOf(store.spans, taskId) == EventTotals(p, last.events)
    modifies store`tasks
    ensures store.tasks == old(store.tasks)[taskId :=
              FinishedRow(p, userId, text, taskType, last, humanReviewMs, times)]
  {
    var escalations := CountEscalations(last.events);
    var ok := store.FinishTask(taskId, last.status, taskType, humanReviewMs, escalations, times.1);
  }

  /** The session, and what the queue then says of the task: its last answer and the human's time. */
  method FollowSession(store: TraceStore, queue: Q.ApprovalQueue?, p: Pricing, taskId: Id,
                       results: seq<Invocation>, waits: seq<Wait>)
    returns (humanReviewMs: real)
    requires IsSession(results) && |waits| == |results| - 1
    requires queue != null ==> taskId !in queue.approvals
    modifies store`spans, queue
    ensures store.spans == old(store.spans) + RunSpans(p, taskId, results[|results|-1].events)
    ensures humanReviewMs == if queue == null then 0.0 else LastWaitMs(waits)
    ensures queue != null ==> queue.pending == old(queue.pending) - (if waits == [] then {} else {taskId})
    ensures queue != null ==>
              queue.approvals == if waits == [] then old(queue.approvals)
                                 else old(queue.approvals)[taskId := AnsweredRecord(taskId, waits[|waits|-1])]
  {
    ghost var queue0 := if queue != null then queue.Contents() else Q.Queue(map[], {});
    RecordSession(store, queue, p, taskId, results, waits);
    LastAnswer(queue0, taskId, waits);
    humanReviewMs := ReviewTime(queue, taskId, queue0, waits);
  }

  /** A traced task, for any session of interrupts and resumes: the stored spans are the run's, the
      task's row carries the run's totals and the last approval's time, and the queue holds the
      answered escalations. The id is new to the store and the queue, as a fresh uuid is. `times` are
      the clock readings at start and finish. */
  method RunTracedTask(store: TraceStore, queue: Q.ApprovalQueue?, p: Pricing, taskId: Id, userId: string,
                       text: string, taskType: string, results: seq<Invocation>, waits: seq<Wait>,
                       times: (real, real))
    requires IsSession(results) && |waits| == |results| - 1
    requires forall k :: 0 <= k < |store.spans| ==> store.spans[k].taskId != taskId
    requires queue != null ==> taskId !in queue.approvals
    modifies store, queue
    ensures store.spans == old(store.spans) + RunSpans(p, taskId, results[|results|-1].events)
    ensures store.tasks == old(store.tasks)[taskId :=
              FinishedRow(p, userId, text, taskType, results[|results|-1],
                          if queue == null then 0.0 else LastWaitMs(waits), times)]
    ensures queue != null ==> queue.pending == old(queue.pending) - (if waits == [] then {} else {taskId})
    ensures queue != null ==>
              var last := results[|results|-1];
              queue.approvals ==
                if last.escalation.Some? && last.escalation.value.level == Notify then
                  old(queue.approvals)[taskId := Q.PendingApproval(
                    taskId, last.escalation.value, None, Q.Notified, None, [], times.1, Some(times.1))]
                else if waits == [] then old(queue.approvals)
                else old(queue.approvals)[taskId := AnsweredRecord(taskId, waits[|waits|-1])]
  {
    ghost var before := store.spans;
    store.StartTask(taskId, userId, text, times.0);
    var humanReviewMs := FollowSession(store, queue, p, taskId, results, waits);
    var last := results[|results|-1];
    NotifyIfAsked(queue, taskId, last, times.1);
    SessionTotals(p, taskId, before, last.events);
    CloseTask(store, p, taskId, userId, text, taskType, last, humanReviewMs, times);
  }
}
