/** The trace store (tracing/store.py): the two tables and the aggregate that closes a task. */
module TraceStore {
  import opened Schemas

  datatype SpanRow = SpanRow(
    taskId: Id, node: string, agent: string, status: string, tool: Option<string>,
    startedAt: real, endedAt: real, latencyMs: real, inputTokens: int, outputTokens: int, costUsd: real)

  datatype TaskRow = TaskRow(
    userId: string, text: string, taskType: Option<string>, status: string,
    startedAt: real, endedAt: Option<real>, wallClockMs: Option<real>, humanReviewMs: real,
    totals: Totals, escalationCount: int)

  datatype Totals = Totals(inputTokens: int, outputTokens: int, costUsd: real, toolCalls: int)

  const NO_TOTALS: Totals := Totals(0, 0, 0.0, 0)

  function Plus(a: Totals, b: Totals): Totals {
    Totals(a.inputTokens + b.inputTokens, a.outputTokens + b.outputTokens, a.costUsd + b.costUsd,
           a.toolCalls + b.toolCalls)
  }

  function SpanTotals(s: SpanRow): Totals {
    Totals(s.inputTokens, s.outputTokens, s.costUsd, if s.tool.Some? then 1 else 0)
  }

  /** The sums `SELECT ... FROM spans WHERE task_id = ?` yields. */
  function TotalsOf(spans: seq<SpanRow>, taskId: Id): Totals {
    if spans == [] then NO_TOTALS
    else
      var before := TotalsOf(spans[..|spans|-1], taskId);
      if spans[|spans|-1].taskId == taskId then Plus(before, SpanTotals(spans[|spans|-1])) else before
  }

  class TraceStore {
    var tasks: map<Id, TaskRow>
    var spans: seq<SpanRow>

    constructor ()
      ensures tasks == map[] && spans == []
    {
      tasks, spans := map[], [];
    }

    /** `INSERT OR REPLACE`: a running row with everything else unset. */
    method StartTask(taskId: Id, userId: string, text: string, now: real)
      modifies this`tasks
      ensures tasks == old(tasks)[taskId := TaskRow(userId, text, None, "running", now, None, None, 0.0, NO_TOTALS, 0)]
    {
      tasks := tasks[taskId := TaskRow(userId, text, None, "running", now, None, None, 0.0, NO_TOTALS, 0)];
    }

    method AddSpan(taskId: Id, node: string, agent: string, status: string, tool: Option<string>,
                   startedAt: real, endedAt: real, inputTokens: int, outputTokens: int, costUsd: real)
      modifies this`spans
      ensures spans == old(spans) + [SpanRow(taskId, node, agent, status, tool, startedAt, endedAt,
                                             (endedAt - startedAt) * 1000.0, inputTokens, outputTokens, costUsd)]
    {
      spans := spans + [SpanRow(taskId, node, agent, status, tool, startedAt, endedAt,
                                (endedAt - startedAt) * 1000.0, inputTokens, outputTokens, costUsd)];
    }

    /** Closes a task with the aggregate of all its spans; an unknown task is the source's error. */
    method FinishTask(taskId: Id, status: string, taskType: string, humanReviewMs: real, escalationCount: int,
                      now: real)
      returns (ok: bool)
      modifies this`tasks
      ensures ok <==> taskId in old(tasks)
      ensures !ok ==> tasks == old(tasks)
      ensures ok ==>
                var row := old(tasks)[taskId];
                tasks == old(tasks)[taskId :=
                  TaskRow(row.userId, row.text, Some(taskType), status, row.startedAt, Some(now),
                          Some((now - row.startedAt) * 1000.0), humanReviewMs, TotalsOf(spans, taskId),
                          escalationCount)]
    {
      var totals := NO_TOTALS;
      for k := 0 to |spans|
        invariant totals == TotalsOf(spans[..k], taskId)
      {
        assert spans[..k+1][..k] == spans[..k] && spans[..k+1][k] == spans[k];
        if spans[k].taskId == taskId {
          totals := Plus(totals, SpanTotals(spans[k]));
        }
      }
      assert spans[..|spans|] == spans;
      if taskId !in tasks {
        return false;
      }
      var row := tasks[taskId];
      tasks := tasks[taskId :=
        TaskRow(row.userId, row.text, Some(taskType), status, row.startedAt, Some(now),
                Some((now - row.startedAt) * 1000.0), humanReviewMs, totals, escalationCount)];
      ok := true;
    }
  }

  lemma {:induction false} TotalsConcat(a: seq<SpanRow>, b: seq<SpanRow>, taskId: Id)
    ensures TotalsOf(a + b, taskId) == Plus(TotalsOf(a, taskId), TotalsOf(b, taskId))
  {
    if b == [] {
      assert a + b == a;
    } else {
      assert (a + b)[..|a + b|-1] == a + b[..|b|-1];
      TotalsConcat(a, b[..|b|-1], taskId);
    }
  }

  /** One total is the sum of two others, column by column. */
  predicate IsSum(t: Totals, a: Totals, b: Totals) {
    && t.inputTokens == a.inputTokens + b.inputTokens && t.outputTokens == a.outputTokens + b.outputTokens
    && t.costUsd == a.costUsd + b.costUsd && t.toolCalls == a.toolCalls + b.toolCalls
  }

  /** The aggregate of one span: its own figures, and a tool call if it names a tool. */
  lemma OneSpanTotal(s: SpanRow, taskId: Id)
    ensures TotalsOf([s], taskId)
         == if s.taskId != taskId then Totals(0, 0, 0.0, 0)
            else Totals(s.inputTokens, s.outputTokens, s.costUsd, if s.tool.Some? then 1 else 0)
  {
    assert [s][..0] == [];
  }

  /** The aggregate of two stretches of the table is the sum of theirs. */
  lemma TotalsAddUp(a: seq<SpanRow>, b: seq<SpanRow>, taskId: Id)
    ensures IsSum(TotalsOf(a + b, taskId), TotalsOf(a, taskId), TotalsOf(b, taskId))
  {
    TotalsConcat(a, b, taskId);
  }

  lemma {:induction false} TotalsOfOthers(spans: seq<SpanRow>, taskId: Id)
    requires forall k :: 0 <= k < |spans| ==> spans[k].taskId != taskId
    ensures TotalsOf(spans, taskId) == NO_TOTALS
  {
    if spans != [] { TotalsOfOthers(spans[..|spans|-1], taskId); }
  }

  lemma PlusNothing(t: Totals)
    ensures Plus(NO_TOTALS, t) == t == Plus(t, NO_TOTALS)
  {
  }

  /** Spans of other tasks do not enter a task's aggregate. */
  lemma TotalsAfterOthers(others: seq<SpanRow>, spans: seq<SpanRow>, taskId: Id)
    requires forall k :: 0 <= k < |others| ==> others[k].taskId != taskId
    ensures TotalsOf(others + spans, taskId) == TotalsOf(spans, taskId)
  {
    TotalsConcat(others, spans, taskId);
    TotalsOfOthers(others, taskId);
    PlusNothing(TotalsOf(spans, taskId));
  }
}
