/** A specialist's run (agents/specialists.py): the tool loop, its transcript, its slice of the
    registry's log and the usage it reports. */
module Specialists {
  import opened Schemas
  import opened Registry
  import opened Transcript
  import opened Dialogue

  datatype RunResult = RunResult(success: bool, output: string, toolCalls: seq<ToolCallLog>)

  /** The tool message of a call: the tool's output, or an error for the model to see. */
  function MessageOf(toolName: string, r: InvokeResult): string {
    if !r.Logged? then ERROR + "refused"
    else if r.log.success then r.log.text
    else ERROR + FailureText(toolName, r.log.text)
  }

  lemma SliceOfNew(log: seq<ToolCallLog>, more: seq<ToolCallLog>)
    ensures (log + more)[|log|..] == more && log + [] == log
  {
  }

  lemma AppendLogs(log: seq<ToolCallLog>, made: seq<ToolCallLog>, more: seq<ToolCallLog>)
    ensures (log + made) + more == log + (made + more)
  {
  }

  class SpecialistAgent {
    const kind: SpecialistType
    const registry: ToolRegistry
    /** The tools bound when the agent was built. */
    const boundTools: set<string>
    var lastUsage: Option<Usage>

    constructor (kind: SpecialistType, registry: ToolRegistry)
      ensures this.kind == kind && this.registry == registry && lastUsage == None
      ensures boundTools == set n | n in registry.tools && kind in registry.tools[n].allowed
    {
      this.kind, this.registry := kind, registry;
      boundTools := set n | n in registry.tools && kind in registry.tools[n].allowed;
      lastUsage := None;
    }

    /** The registry's part of a tool call, with the slice of its log taken around it. */
    method InvokeAndSlice(ghost w: World, call: ToolCall, now: real, outcome: FuncOutcome)
      returns (r: InvokeResult, made: seq<ToolCallLog>)
      requires registry.Valid() && registry.Shows(kind, w) && w.clock <= now
      modifies registry, registry.tools.Values
      ensures registry.Valid() && registry.tools == old(registry.tools)
      ensures registry.callLog == old(registry.callLog) + made
      ensures registry.Shows(kind, AfterInvoke(w, call.name, now))
      ensures r.Logged? <==> RunsAt(w, call.name, now)
      ensures r.Logged? ==> r.log == ToolCallLog(call.name, call.args, outcome.Returns?, outcome.text)
      ensures made == if r.Logged? then [r.log] else []
    {
      var before := |registry.callLog|;
      ghost var log := registry.callLog;
      registry.RunsAsShown(kind, w, call.name, now);
      r := registry.Invoke(call.name, kind, call.args, now, outcome);
      SliceOfNew(log, if r.Logged? then [r.log] else []);
      made := registry.callLog[before..];
    }

    /** One tool call. Whatever goes wrong becomes the text of the tool message, and the entries
        taken from the log are exactly those the call added. */
    method CallTool(ghost w: World, call: ToolCall, env: CallEnv) returns (content: string, made: seq<ToolCallLog>)
      requires registry.Valid() && registry.Shows(kind, w)
      modifies registry, registry.tools.Values
      ensures registry.Valid() && registry.tools == old(registry.tools)
      ensures registry.callLog == old(registry.callLog) + made
      ensures registry.Shows(kind, AfterCall(boundTools, w, call, env))
      ensures made == if call.name in boundTools && env.argsValid && RunsAt(w, call.name, TimeOf(w, env))
                      then [ToolCallLog(call.name, call.args, env.outcome.Returns?, env.outcome.text)] else []
      ensures made == [] ==> ERROR <= content
      ensures made != [] && env.outcome.Returns? ==> content == env.outcome.text
      ensures made != [] && env.outcome.Raises? ==> content == ERROR + FailureText(call.name, env.outcome.text)
    {
      made := [];
      if call.name !in boundTools {
        content := ERROR + "no such tool '" + call.name + "'.";
      } else if !env.argsValid {
        content := ERROR + "invalid arguments";
      } else {
        var r;
        r, made := InvokeAndSlice(w, call, registry.clock + env.elapsed as real, env.outcome);
        content := MessageOf(call.name, r);
      }
    }

    /** The tool messages of one assistant turn. */
    method CallTools(ghost w: World, calls: seq<ToolCall>, envs: nat -> CallEnv, messages: seq<Message>)
      returns (after: seq<Message>, made: seq<ToolCallLog>)
      requires registry.Valid() && registry.Shows(kind, w)
      modifies registry, registry.tools.Values
      ensures registry.Valid() && registry.tools == old(registry.tools)
      ensures registry.callLog == old(registry.callLog) + made
      ensures registry.Shows(kind, WorldAfter(boundTools, w, calls, envs))
      ensures made == LogsAfter(boundTools, w, calls, envs)
      ensures messages <= after && |after| == |messages| + |calls|
      ensures AnswersInOrder(boundTools, w, calls, envs, after[|messages|..])
    {
      ghost var tail: seq<Message> := [];
      after, made := messages, [];
      ghost var log := registry.callLog;
      assert calls[..0] == [] && log + [] == log;
      for k := 0 to |calls|
        invariant registry.Valid() && registry.tools == old(registry.tools)
        invariant registry.callLog == log + made
        invariant registry.Shows(kind, WorldAfter(boundTools, w, calls[..k], envs))
        invariant made == LogsAfter(boundTools, w, calls[..k], envs)
        invariant |tail| == k && AnswersInOrder(boundTools, w, calls, envs, tail)
        invariant after == messages + tail
      {
        CallSnoc(boundTools, w, calls, envs, k);
        var content, more := CallTool(WorldAfter(boundTools, w, calls[..k], envs), calls[k], envs(k));
        AnswerSnoc(boundTools, w, calls, envs, tail, ToolMessage(content, calls[k].id));
        AppendLogs(log, made, more);
        made := made + more;
        tail := tail + [ToolMessage(content, calls[k].id)];
        after := after + [ToolMessage(content, calls[k].id)];
      }
      assert calls[..|calls|] == calls;
      assert after[|messages|..] == tail;
    }

    /** After the turns told in `said`: the registry as the world shows it, the calls made so far, and
        what they added to the log. */
    ghost predicate Stands(s: Scene, log: seq<ToolCallLog>, made: seq<ToolCallLog>, start: seq<Message>,
                           said: seq<seq<Message>>)
      reads registry, registry.tools.Values
    {
      && s.bound == boundTools && Talk(s, start, said)
      && registry.Shows(kind, WorldAt(s, |said| - 1)) && made == LogsAt(s, |said| - 1)
      && registry.callLog == log + made
    }

    /** One assistant turn: the message, and the answers to its tool calls. */
    method AnswerTurn(ghost s: Scene, ghost log: seq<ToolCallLog>, sofar: seq<ToolCallLog>,
                      ghost start: seq<Message>, ghost said: seq<seq<Message>>, calls: seq<ToolCall>,
                      envs: nat -> CallEnv, messages: seq<Message>)
      returns (after: seq<Message>, made: seq<ToolCallLog>)
      requires registry.Valid() && Stands(s, log, sofar, start, said)
      requires messages == said[|said|-1] && Answered(messages)
      requires calls == CallsOf(s.turns(|said| - 1)) && envs == s.envs(|said| - 1)
      modifies registry, registry.tools.Values
      ensures registry.Valid() && registry.tools == old(registry.tools)
      ensures Stands(s, log, made, start, said + [after]) && Answered(after)
    {
      ghost var turn := |said| - 1;
      after, made := CallTools(WorldAt(s, turn), calls, envs, messages + [AiMessage(calls)]);
      TurnIsAnswered(s, turn, messages, after);
      TalkOn(s, start, said, after);
      AppendLogs(log, sofar, made);
      made := sofar + made;
    }

    /** One turn of the tool loop; `end` tells whether and how the loop is over. */
    method TakeTurn(ghost s: Scene, ghost log: seq<ToolCallLog>, ghost start: seq<Message>, turn: nat,
                    turns: nat -> Reply, envs: nat -> CallEnv, messages: seq<Message>, made: seq<ToolCallLog>,
                    total: Usage, ghost said: seq<seq<Message>>)
      returns (after: seq<Message>, all: seq<ToolCallLog>, paid: Usage, end: Option<LoopEnd>,
               ghost told: seq<seq<Message>>)
      requires turn < MAX_TOOL_ITERATIONS && s.turns == turns && s.envs(turn) == envs
      requires registry.Valid() && Stands(s, log, made, start, said) && AtTurn(turns, turn, total, messages, said)
      modifies registry, registry.tools.Values
      ensures registry.Valid() && registry.tools == old(registry.tools)
      ensures Stands(s, log, all, start, told)
      ensures if end.Some? then LoopOver(turns, end.value, paid, after, told)
              else AtTurn(turns, turn + 1, paid, after, told)
    {
      var reply := turns(turn);
      if reply.Raised? {
        TurnFails(turns, turn, total, messages, said);
        return messages, made, total, Some(Failed), said;
      }
      after, all := AnswerTurn(s, log, made, start, said, reply.calls, envs, messages);
      TurnTaken(turns, turn, total, messages, said, after);
      told := said + [after];
      paid := Add(total, reply.usage);
      end := if reply.calls == [] then Some(Settled) else None;
    }

    /** The bounded tool loop: it ends as the model's answers say, and asks the model only when
        every tool call so far has been answered. */
    method ToolLoop(ghost w: World, start: seq<Message>, turns: nat -> Reply, envs: nat -> nat -> CallEnv)
      returns (messages: seq<Message>, made: seq<ToolCallLog>, total: Usage, end: LoopEnd,
               ghost said: seq<seq<Message>>)
      requires registry.Valid() && registry.Shows(kind, w) && Answered(start)
      modifies registry, registry.tools.Values
      ensures registry.Valid() && registry.tools == old(registry.tools)
      ensures Stands(Scene(boundTools, w, turns, envs), old(registry.callLog), made, start, said)
      ensures LoopOver(turns, end, total, messages, said)
    {
      ghost var s, log := Scene(boundTools, w, turns, envs), registry.callLog;
      messages, made, total, said := start, [], Usage(0, 0), [start];
      var turn: nat := 0;
      while turn < MAX_TOOL_ITERATIONS
        invariant registry.Valid() && registry.tools == old(registry.tools)
        invariant Stands(s, log, made, start, said)
        invariant AtTurn(turns, turn, total, messages, said)
        decreases MAX_TOOL_ITERATIONS - turn
      {
        var over;
        messages, made, total, over, said :=
          TakeTurn(s, log, start, turn, turns, envs(turn), messages, made, total, said);
        if over.Some? {
          end := over.value;
          return;
        }
        turn := turn + 1;
      }
      OutOfTurns(turns, total, messages, said);
      end := Exhausted;
    }

    /** One more turn, without tools, for a model that ran out of turns. */
    method ForceAnswer(start: seq<Message>, sofar: Usage, ghost asked: seq<seq<Message>>, turns: nat -> Reply,
                       ghost final: FinalReply)
      returns (ok: bool, messages: seq<Message>, total: Usage)
      requires LoopAsked(turns, Exhausted, sofar, asked) && Answered(start)
      ensures ok <==> turns(MAX_TOOL_ITERATIONS).Replied?
      ensures var forced := start + [HumanMessage(MUST_ANSWER)];
              if ok then
                && messages == forced + [AiMessage(turns(MAX_TOOL_ITERATIONS).calls)]
                && BeforeFinal(turns, total, asked + [forced], messages)
              else RunOver(turns, final, false, total, asked + [forced])
    {
      HumanTurn(start, MUST_ANSWER);
      messages, total := start + [HumanMessage(MUST_ANSWER)], sofar;
      var forced := turns(MAX_TOOL_ITERATIONS);
      ok := forced.Replied?;
      if ok {
        ForcedBeforeFinal(turns, total, asked, messages);
        total := Add(total, forced.usage);
        messages := messages + [AiMessage(forced.calls)];
      } else {
        OverAfterForcedFailure(turns, final, total, asked, messages);
      }
    }

    /** The structured call that ends a run. */
    method AskFinally(ghost turns: nat -> Reply, final: FinalReply, sofar: Usage, ghost asked: seq<seq<Message>>,
                      ghost messages: seq<Message>)
      returns (success: bool, output: string, total: Usage)
      requires BeforeFinal(turns, sofar, asked, messages)
      ensures RunOver(turns, final, success, total, asked + [messages])
      ensures output == if success then final.parsed.value else ""
    {
      OverAfterFinal(turns, final, sofar, asked, messages);
      success, output, total := false, "", sofar;
      if final.FinalReplied? {
        total := Add(total, final.usage);
        success := final.parsed.Some?;
        output := if success then final.parsed.value else "";
      }
    }

    /** What follows the tool loop: the forced turn if the model ran out of turns, then the
        structured call. */
    method Conclude(start: seq<Message>, sofar: Usage, end: LoopEnd, ghost asked: seq<seq<Message>>,
                    turns: nat -> Reply, final: FinalReply)
      returns (success: bool, output: string, total: Usage, ghost prompts: seq<seq<Message>>)
      requires LoopAsked(turns, end, sofar, asked) && Answered(start)
      ensures RunOver(turns, final, success, total, prompts)
      ensures prompts == asked + LastPrompts(turns, end, start)
      ensures output == if success then final.parsed.value else ""
    {
      if end.Failed? {
        OverAfterFailure(turns, final, sofar, asked);
        return false, "", sofar, asked;
      }
      if end.Settled? {
        SettledBeforeFinal(turns, sofar, asked, start);
        success, output, total := AskFinally(turns, final, sofar, asked, start);
        prompts := asked + [start];
        return;
      }
      var ok, messages, paid := ForceAnswer(start, sofar, asked, turns, final);
      ghost var forced := start + [HumanMessage(MUST_ANSWER)];
      prompts := asked + [forced];
      if !ok {
        return false, "", paid, prompts;
      }
      success, output, total := AskFinally(turns, final, paid, prompts, messages);
      prompts := prompts + [messages];
      assert prompts == asked + [forced, messages];
    }

    /** The tool loop and what follows it. */
    method Perform(ghost w: World, start: seq<Message>, turns: nat -> Reply, envs: nat -> nat -> CallEnv,
                   final: FinalReply)
      returns (r: RunResult, total: Usage, ghost said: seq<seq<Message>>, ghost prompts: seq<seq<Message>>)
      requires registry.Valid() && registry.Shows(kind, w) && Answered(start)
      modifies registry, registry.tools.Values
      ensures registry.Valid() && registry.tools == old(registry.tools)
      ensures Stands(Scene(boundTools, w, turns, envs), old(registry.callLog), r.toolCalls, start, said)
      ensures |said| == LoopTurns(turns) + 1 && LoopCalls(turns) <= |said|
      ensures prompts == said[..LoopCalls(turns)] + LastPrompts(turns, EndOf(turns), said[LoopTurns(turns)])
      ensures RunOver(turns, final, r.success, total, prompts)
      ensures r.output == if r.success then final.parsed.value else ""
    {
      var messages, made, sofar, end;
      messages, made, sofar, end, said := ToolLoop(w, start, turns, envs);
      AskedInLoop(turns, end, sofar, messages, said);
      var success, output;
      success, output, total, prompts := Conclude(messages, sofar, end, said[..LoopCalls(turns)], turns, final);
      r := RunResult(success, output, made);
    }

    /** The whole run, with the model's answers and the world as arbitrary inputs: the log grows by
        exactly the reported tool calls, each call the registry accepted and no other; the transcript
        starts with the two prompts and grows by whole turns; and `RunOver` says what the run comes to.
        The intermediate values of `lastUsage` are kept in `total`; the field is set when the run ends. */
    method Run(ghost w: World, systemPrompt: string, prompt: string, turns: nat -> Reply,
               envs: nat -> nat -> CallEnv, final: FinalReply)
      returns (r: RunResult, ghost said: seq<seq<Message>>, ghost prompts: seq<seq<Message>>)
      requires registry.Valid() && registry.Shows(kind, w)
      modifies this, registry, registry.tools.Values
      ensures registry.Valid() && registry.tools == old(registry.tools)
      ensures registry.callLog == old(registry.callLog) + r.toolCalls
      ensures var start := [SystemMessage(systemPrompt), HumanMessage(prompt)];
              Stands(Scene(boundTools, w, turns, envs), old(registry.callLog), r.toolCalls, start, said)
      ensures |said| == LoopTurns(turns) + 1 && LoopCalls(turns) <= |said|
      ensures prompts == said[..LoopCalls(turns)] + LastPrompts(turns, EndOf(turns), said[LoopTurns(turns)])
      ensures lastUsage.Some? && RunOver(turns, final, r.success, lastUsage.value, prompts)
      ensures r.output == if r.success then final.parsed.value else ""
    {
      StartIsAnswered(systemPrompt, prompt);
      var start := [SystemMessage(systemPrompt), HumanMessage(prompt)];
      var total;
      r, total, said, prompts := Perform(w, start, turns, envs, final);
      label Done:
      Report(total);
      assert unchanged@Done(registry) && forall n :: n in registry.tools ==> unchanged@Done(registry.tools[n]);
    }

    /** The field is set when the run ends. */
    method Report(total: Usage)
      modifies this`lastUsage
      ensures lastUsage == Some(total)
    {
      lastUsage := Some(total);
    }
  }
}
