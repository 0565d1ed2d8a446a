/** What a specialist's tool calls come to, given the world they are made in: which of them the registry
    accepts, what the model is told of each, and how the transcript grows from turn to turn. */
module Dialogue {
  import opened Schemas
  import opened Registry
  import opened RateWindow
  import opened Transcript

  /** What the world does to one tool call: whether its arguments fit the schema, what the
      function does, and how much time passes before it. */
  datatype CallEnv = CallEnv(argsValid: bool, outcome: FuncOutcome, elapsed: nat)

  /** The registry is asked exactly for a bound tool and arguments that fit its schema. */
  predicate Asks(bound: set<string>, call: ToolCall, env: CallEnv) {
    call.name in bound && env.argsValid
  }

  function TimeOf(w: World, env: CallEnv): real {
    w.clock + env.elapsed as real
  }

  predicate Accepts(bound: set<string>, w: World, call: ToolCall, env: CallEnv) {
    Asks(bound, call, env) && RunsAt(w, call.name, TimeOf(w, env))
  }

  function AfterCall(bound: set<string>, w: World, call: ToolCall, env: CallEnv): World {
    if Asks(bound, call, env) then AfterInvoke(w, call.name, TimeOf(w, env)) else w
  }

  function LogsOfCall(bound: set<string>, w: World, call: ToolCall, env: CallEnv): seq<ToolCallLog> {
    if Accepts(bound, w, call, env) then [ToolCallLog(call.name, call.args, env.outcome.Returns?, env.outcome.text)]
    else []
  }

  const ERROR: string := "ERROR: "

  /** What a tool that ran and failed is reported as. */
  function FailureText(toolName: string, text: string): string {
    if text != "" then text else "Tool '" + toolName + "' failed."
  }

  /** The text of a call's tool message: the output of a tool that ran, or an error for the model to see. */
  predicate IsContent(bound: set<string>, w: World, call: ToolCall, env: CallEnv, content: string) {
    if !Accepts(bound, w, call, env) then ERROR <= content
    else if env.outcome.Returns? then content == env.outcome.text
    else content == ERROR + FailureText(call.name, env.outcome.text)
  }

  // ---------------------------------------------------------------- the calls of one turn

  function WorldAfter(bound: set<string>, w: World, calls: seq<ToolCall>, envs: nat -> CallEnv): World {
    if calls == [] then w
    else
      var last := |calls| - 1;
      AfterCall(bound, WorldAfter(bound, w, calls[..last], envs), calls[last], envs(last))
  }

  function LogsAfter(bound: set<string>, w: World, calls: seq<ToolCall>, envs: nat -> CallEnv): seq<ToolCallLog> {
    if calls == [] then []
    else
      var last := |calls| - 1;
      LogsAfter(bound, w, calls[..last], envs)
      + LogsOfCall(bound, WorldAfter(bound, w, calls[..last], envs), calls[last], envs(last))
  }

  /** The tool message of the k-th call. */
  predicate Answers(bound: set<string>, w: World, calls: seq<ToolCall>, envs: nat -> CallEnv, k: nat, m: Message)
    requires k < |calls|
  {
    && m.ToolMessage? && m.callId == calls[k].id
    && IsContent(bound, WorldAfter(bound, w, calls[..k], envs), calls[k], envs(k), m.content)
  }

  /** One message for each of the first |tail| calls, in order. */
  ghost predicate AnswersInOrder(bound: set<string>, w: World, calls: seq<ToolCall>, envs: nat -> CallEnv,
                                 tail: seq<Message>) {
    |tail| <= |calls| && forall k :: 0 <= k < |tail| ==> Answers(bound, w, calls, envs, k, tail[k])
  }

  lemma CallSnoc(bound: set<string>, w: World, calls: seq<ToolCall>, envs: nat -> CallEnv, k: nat)
    requires k < |calls|
    ensures var before := WorldAfter(bound, w, calls[..k], envs);
            && WorldAfter(bound, w, calls[..k+1], envs) == AfterCall(bound, before, calls[k], envs(k))
            && LogsAfter(bound, w, calls[..k+1], envs)
               == LogsAfter(bound, w, calls[..k], envs) + LogsOfCall(bound, before, calls[k], envs(k))
  {
    assert calls[..k+1][..k] == calls[..k] && calls[..k+1][k] == calls[k];
  }

  lemma AnswerSnoc(bound: set<string>, w: World, calls: seq<ToolCall>, envs: nat -> CallEnv, tail: seq<Message>,
                   m: Message)
    requires AnswersInOrder(bound, w, calls, envs, tail) && |tail| < |calls|
    requires Answers(bound, w, calls, envs, |tail|, m)
    ensures AnswersInOrder(bound, w, calls, envs, tail + [m])
  {
  }

  // ---------------------------------------------------------------- the turns of a run

  /** A run's surroundings: its tools, the registry it starts from, the model's answers, and what
      happens to each tool call of each turn. */
  datatype Scene = Scene(bound: set<string>, before: World, turns: nat -> Reply, envs: nat -> nat -> CallEnv)

  function CallsOf(r: Reply): seq<ToolCall> {
    if r.Raised? then [] else r.calls
  }

  function WorldAt(s: Scene, turn: nat): World {
    if turn == 0 then s.before
    else WorldAfter(s.bound, WorldAt(s, turn - 1), CallsOf(s.turns(turn - 1)), s.envs(turn - 1))
  }

  function LogsAt(s: Scene, turn: nat): seq<ToolCallLog> {
    if turn == 0 then []
    else LogsAt(s, turn - 1)
         + LogsAfter(s.bound, WorldAt(s, turn - 1), CallsOf(s.turns(turn - 1)), s.envs(turn - 1))
  }

  /** A turn adds the model's message and one answer per tool call to the transcript. */
  ghost predicate TurnAdds(s: Scene, turn: nat, before: seq<Message>, after: seq<Message>) {
    var calls := CallsOf(s.turns(turn));
    && before + [AiMessage(calls)] <= after && |after| == |before| + 1 + |calls|
    && AnswersInOrder(s.bound, WorldAt(s, turn), calls, s.envs(turn), after[|before| + 1..])
  }

  /** The transcripts a run goes through, from its start, turn by turn. */
  ghost predicate Talk(s: Scene, start: seq<Message>, said: seq<seq<Message>>) {
    && said != [] && said[0] == start
    && forall k :: 0 <= k < |said| - 1 ==> TurnAdds(s, k, said[k], said[k+1])
  }

  lemma TalkOn(s: Scene, start: seq<Message>, said: seq<seq<Message>>, after: seq<Message>)
    requires Talk(s, start, said) && TurnAdds(s, |said| - 1, said[|said|-1], after)
    ensures Talk(s, start, said + [after])
  {
  }

  lemma {:induction false} AnswersSettle(base: seq<Message>, calls: seq<ToolCall>, tail: seq<Message>)
    requires Waiting(base) == Some(CallIds(calls)) && |tail| <= |calls|
    requires forall k :: 0 <= k < |tail| ==> tail[k].ToolMessage? && tail[k].callId == calls[k].id
    ensures Waiting(base + tail) == Some(CallIds(calls[|tail|..]))
  {
    if tail == [] {
      assert base + tail == base && calls[0..] == calls;
    } else {
      var last := |tail| - 1;
      AnswersSettle(base, calls, tail[..last]);
      CallIdsFrom(calls, last);
      ToolTurn(base + tail[..last], tail[last].content, calls[last].id, CallIds(calls[last+1..]));
      assert base + tail == (base + tail[..last]) + [tail[last]];
    }
  }

  /** A turn made of a message and an answer to each of its calls leaves no call unanswered. */
  lemma TurnIsAnswered(s: Scene, turn: nat, before: seq<Message>, after: seq<Message>)
    requires Answered(before) && TurnAdds(s, turn, before, after)
    ensures Answered(after)
  {
    var calls := CallsOf(s.turns(turn));
    AiTurn(before, calls);
    assert after == (before + [AiMessage(calls)]) + after[|before| + 1..];
    AnswersSettle(before + [AiMessage(calls)], calls, after[|before| + 1..]);
  }

  // ---------------------------------------------------------------- the log and the histories

  /** Entries of the log that are calls of one tool. */
  function CallsTo(log: seq<ToolCallLog>, name: string): nat {
    if log == [] then 0
    else CallsTo(log[..|log|-1], name) + (if log[|log|-1].toolName == name then 1 else 0)
  }

  lemma {:induction false} CallsToConcat(a: seq<ToolCallLog>, b: seq<ToolCallLog>, name: string)
    ensures CallsTo(a + b, name) == CallsTo(a, name) + CallsTo(b, name)
  {
    if b == [] {
      assert a + b == a;
    } else {
      assert (a + b)[..|a + b|-1] == a + b[..|b|-1];
      CallsToConcat(a, b[..|b|-1], name);
    }
  }

  /** The same tools as before, with as many more calls in the history of one as the log has entries for it. */
  predicate Accounted(before: World, after: World, log: seq<ToolCallLog>, name: string) {
    && after.tools.Keys == before.tools.Keys
    && (name in before.tools ==>
          |after.tools[name].accepted| == |before.tools[name].accepted| + CallsTo(log, name))
  }

  lemma AccountedOn(a: World, b: World, c: World, log: seq<ToolCallLog>, more: seq<ToolCallLog>, name: string)
    requires Accounted(a, b, log, name) && Accounted(b, c, more, name)
    ensures Accounted(a, c, log + more, name)
  {
    CallsToConcat(log, more, name);
  }

  lemma CallIsAccounted(bound: set<string>, w: World, call: ToolCall, env: CallEnv, name: string)
    ensures Accounted(w, AfterCall(bound, w, call, env), LogsOfCall(bound, w, call, env), name)
  {
    var log := LogsOfCall(bound, w, call, env);
    if log != [] {
      assert log[..0] == [] && log[0].toolName == call.name;
    }
  }

  lemma {:induction false} TurnIsAccounted(bound: set<string>, w: World, calls: seq<ToolCall>,
                                           envs: nat -> CallEnv, name: string)
    ensures Accounted(w, WorldAfter(bound, w, calls, envs), LogsAfter(bound, w, calls, envs), name)
  {
    if calls != [] {
      var last := |calls| - 1;
      var mid := WorldAfter(bound, w, calls[..last], envs);
      TurnIsAccounted(bound, w, calls[..last], envs, name);
      CallIsAccounted(bound, mid, calls[last], envs(last), name);
      AccountedOn(w, mid, AfterCall(bound, mid, calls[last], envs(last)), LogsAfter(bound, w, calls[..last], envs),
                  LogsOfCall(bound, mid, calls[last], envs(last)), name);
    }
  }

  /** Over a whole run, every call that counts against a tool's limit is in the run's log, and every
      entry of the log counts. */
  lemma {:induction false} RunIsAccounted(s: Scene, turn: nat, name: string)
    ensures Accounted(s.before, WorldAt(s, turn), LogsAt(s, turn), name)
  {
    if turn > 0 {
      var mid, calls := WorldAt(s, turn - 1), CallsOf(s.turns(turn - 1));
      RunIsAccounted(s, turn - 1, name);
      TurnIsAccounted(s.bound, mid, calls, s.envs(turn - 1), name);
      AccountedOn(s.before, mid, WorldAfter(s.bound, mid, calls, s.envs(turn - 1)), LogsAt(s, turn - 1),
                  LogsAfter(s.bound, mid, calls, s.envs(turn - 1)), name);
    }
  }
}
