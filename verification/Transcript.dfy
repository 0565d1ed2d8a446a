/** The message list a specialist sends to its model. */
module Transcript {
  import opened Schemas

  datatype ToolCall = ToolCall(name: string, args: string, id: string)

  datatype Message =
    | SystemMessage(text: string)
    | HumanMessage(text: string)
    | AiMessage(calls: seq<ToolCall>)
    | ToolMessage(content: string, callId: string)

  function CallIds(calls: seq<ToolCall>): seq<string> {
    if calls == [] then [] else [calls[0].id] + CallIds(calls[1..])
  }

  /** The call ids still waiting for their tool message at the end of the transcript, in order;
      None once a message came out of turn. */
  function Waiting(messages: seq<Message>): Option<seq<string>> {
    if messages == [] then Some([])
    else
      var before := Waiting(messages[..|messages|-1]);
      if before.None? then None
      else
        match messages[|messages|-1]
        case AiMessage(calls) => if before.value == [] then Some(CallIds(calls)) else None
        case ToolMessage(_, id) =>
          if before.value != [] && before.value[0] == id then Some(before.value[1..]) else None
        case SystemMessage(_) => if before.value == [] then Some([]) else None
        case HumanMessage(_) => if before.value == [] then Some([]) else None
  }

  /** Every assistant turn with tool calls is followed by exactly one tool message per call,
      with matching ids in order, before anything else. */
  predicate Answered(messages: seq<Message>) {
    Waiting(messages) == Some([])
  }

  lemma AiTurn(messages: seq<Message>, calls: seq<ToolCall>)
    requires Answered(messages)
    ensures Waiting(messages + [AiMessage(calls)]) == Some(CallIds(calls))
    ensures Answered(messages + [AiMessage(calls)]) <==> calls == []
  {
    assert (messages + [AiMessage(calls)])[..|messages|] == messages;
  }

  lemma HumanTurn(messages: seq<Message>, text: string)
    requires Answered(messages)
    ensures Answered(messages + [HumanMessage(text)])
  {
    assert (messages + [HumanMessage(text)])[..|messages|] == messages;
  }

  lemma ToolTurn(messages: seq<Message>, content: string, id: string, rest: seq<string>)
    requires Waiting(messages) == Some([id] + rest)
    ensures Waiting(messages + [ToolMessage(content, id)]) == Some(rest)
  {
    assert (messages + [ToolMessage(content, id)])[..|messages|] == messages;
    assert ([id] + rest)[1..] == rest;
  }

  lemma StartIsAnswered(systemPrompt: string, prompt: string)
    ensures Answered([SystemMessage(systemPrompt), HumanMessage(prompt)])
  {
    var s := [SystemMessage(systemPrompt)];
    assert s[..0] == [] && Waiting([]) == Some([]);
    assert Waiting(s) == Some([]);
    HumanTurn(s, prompt);
    assert s + [HumanMessage(prompt)] == [SystemMessage(systemPrompt), HumanMessage(prompt)];
  }

  lemma {:induction false} CallIdsFrom(calls: seq<ToolCall>, k: nat)
    requires k < |calls|
    ensures CallIds(calls[k..]) == [calls[k].id] + CallIds(calls[k+1..])
  {
    assert calls[k..][0] == calls[k];
    assert calls[k..][1..] == calls[k+1..];
  }

  // ---------------------------------------------------------------- model answers

  datatype Usage = Usage(inputTokens: int, outputTokens: int)

  /** One model call inside or right after the tool loop. */
  datatype Reply = Raised | Replied(calls: seq<ToolCall>, usage: Option<Usage>)

  /** The structured call that ends a run. */
  datatype FinalReply = FinalRaised | FinalReplied(usage: Option<Usage>, parsed: Option<string>)

  function Add(total: Usage, u: Option<Usage>): Usage {
    if u.None? then total
    else Usage(total.inputTokens + u.value.inputTokens, total.outputTokens + u.value.outputTokens)
  }

  /** The input tokens of a list of calls; a call that reported no usage has none. */
  function InputTokens(us: seq<Option<Usage>>): int {
    if us == [] then 0
    else InputTokens(us[..|us|-1]) + (match us[|us|-1] case Some(u) => u.inputTokens case None => 0)
  }

  function OutputTokens(us: seq<Option<Usage>>): int {
    if us == [] then 0
    else OutputTokens(us[..|us|-1]) + (match us[|us|-1] case Some(u) => u.outputTokens case None => 0)
  }

  /** A usage that is the sum of those of a list of calls, in both components. */
  predicate IsTotal(total: Usage, us: seq<Option<Usage>>) {
    total.inputTokens == InputTokens(us) && total.outputTokens == OutputTokens(us)
  }

  const MAX_TOOL_ITERATIONS: nat := 4

  /** The loop turn at which the model stops calling tools or fails, or the limit. */
  function Stop(turns: nat -> Reply, k: nat): (s: nat)
    requires k <= MAX_TOOL_ITERATIONS
    ensures k <= s <= MAX_TOOL_ITERATIONS
    ensures forall j :: k <= j < s ==> turns(j).Replied? && turns(j).calls != []
    ensures s < MAX_TOOL_ITERATIONS ==> turns(s).Raised? || turns(s).calls == []
    decreases MAX_TOOL_ITERATIONS - k
  {
    if k == MAX_TOOL_ITERATIONS || turns(k).Raised? || turns(k).calls == [] then k
    else Stop(turns, k + 1)
  }

  /** The usages of the first k turns. */
  function Reported(turns: nat -> Reply, k: nat): seq<Option<Usage>>
    requires forall j :: 0 <= j < k ==> turns(j).Replied?
  {
    if k == 0 then [] else Reported(turns, k - 1) + [turns(k - 1).usage]
  }

  /** Whether the turn that ends the tool loop, the forced one included, failed. */
  predicate LastTurnRaised(turns: nat -> Reply) {
    turns(Stop(turns, 0)).Raised?
  }

  /** Model calls made by a run: the loop turns, the forced turn if any, and the structured call. */
  function ModelCalls(turns: nat -> Reply): (n: nat)
    ensures n <= MAX_TOOL_ITERATIONS + 2
  {
    Stop(turns, 0) + (if LastTurnRaised(turns) then 1 else 2)
  }

  /** The usages of exactly the calls that returned. */
  function UsagesOf(turns: nat -> Reply, final: FinalReply): seq<Option<Usage>> {
    var s := Stop(turns, 0);
    if LastTurnRaised(turns) then Reported(turns, s)
    else Reported(turns, s + 1) + (if final.FinalRaised? then [] else [final.usage])
  }

  predicate Succeeds(turns: nat -> Reply, final: FinalReply) {
    !LastTurnRaised(turns) && final.FinalReplied? && final.parsed.Some?
  }

  lemma TotalSnoc(total: Usage, us: seq<Option<Usage>>, u: Option<Usage>)
    requires IsTotal(total, us)
    ensures IsTotal(Add(total, u), us + [u])
  {
    assert (us + [u])[..|us|] == us;
  }

  /** Which calls are paid for: every loop turn up to the last, the last one if it returned, and
      the structured call if it was made and returned. */
  lemma {:induction false} PaidCalls(turns: nat -> Reply, final: FinalReply)
    ensures var us, s := UsagesOf(turns, final), Stop(turns, 0);
            && |us| == s + (if turns(s).Raised? then 0 else if final.FinalRaised? then 1 else 2)
            && (forall k :: 0 <= k < |us| && k <= s ==> us[k] == turns(k).usage)
            && (|us| == s + 2 ==> us[s + 1] == final.usage)
  {
    var s := Stop(turns, 0);
    ReportedTurns(turns, if turns(s).Raised? then s else s + 1);
  }

  lemma {:induction false} ReportedTurns(turns: nat -> Reply, n: nat)
    requires forall j :: 0 <= j < n ==> turns(j).Replied?
    ensures |Reported(turns, n)| == n && forall k :: 0 <= k < n ==> Reported(turns, n)[k] == turns(k).usage
  {
    if n > 0 { ReportedTurns(turns, n - 1); }
  }

  /** How the tool loop ended: the model settled, ran out of turns, or failed. */
  datatype LoopEnd = Settled | Exhausted | Failed

  function EndOf(turns: nat -> Reply): LoopEnd {
    var s := Stop(turns, 0);
    if s == MAX_TOOL_ITERATIONS then Exhausted else if turns(s).Raised? then Failed else Settled
  }

  /** Turns that returned inside the tool loop. */
  function LoopTurns(turns: nat -> Reply): nat {
    Stop(turns, 0) + (if EndOf(turns).Settled? then 1 else 0)
  }

  /** Model calls made inside the tool loop. */
  function LoopCalls(turns: nat -> Reply): nat {
    Stop(turns, 0) + (if EndOf(turns).Exhausted? then 0 else 1)
  }

  lemma FailedInLoop(turns: nat -> Reply, final: FinalReply)
    requires EndOf(turns).Failed?
    ensures UsagesOf(turns, final) == Reported(turns, LoopTurns(turns))
    ensures ModelCalls(turns) == LoopCalls(turns) && !Succeeds(turns, final)
  {
  }

  lemma FailedWhenForced(turns: nat -> Reply, final: FinalReply)
    requires EndOf(turns).Exhausted? && turns(MAX_TOOL_ITERATIONS).Raised?
    ensures UsagesOf(turns, final) == Reported(turns, LoopTurns(turns))
    ensures ModelCalls(turns) == LoopCalls(turns) + 1 && !Succeeds(turns, final)
  {
  }

  /** The turns that returned before the structured call. */
  function AnsweredTurns(turns: nat -> Reply): seq<Option<Usage>>
    requires !LastTurnRaised(turns)
  {
    Reported(turns, Stop(turns, 0) + 1)
  }

  lemma ReachedTheEnd(turns: nat -> Reply, final: FinalReply)
    requires EndOf(turns).Settled? || (EndOf(turns).Exhausted? && turns(MAX_TOOL_ITERATIONS).Replied?)
    ensures !LastTurnRaised(turns)
    ensures UsagesOf(turns, final) == AnsweredTurns(turns) + (if final.FinalRaised? then [] else [final.usage])
    ensures ModelCalls(turns) == LoopCalls(turns) + (if EndOf(turns).Settled? then 1 else 2)
    ensures Succeeds(turns, final) <==> final.FinalReplied? && final.parsed.Some?
    ensures EndOf(turns).Settled? ==> AnsweredTurns(turns) == Reported(turns, LoopTurns(turns))
    ensures EndOf(turns).Exhausted? ==>
              AnsweredTurns(turns) == Reported(turns, LoopTurns(turns)) + [turns(MAX_TOOL_ITERATIONS).usage]
  {
  }

  ghost predicate AllAnswered(prompts: seq<seq<Message>>) {
    forall k :: 0 <= k < |prompts| ==> Answered(prompts[k])
  }

  /** The tool loop at the start of a turn; `said` are the transcripts so far. */
  ghost predicate AtTurn(turns: nat -> Reply, turn: nat, total: Usage, messages: seq<Message>,
                         said: seq<seq<Message>>) {
    && turn <= Stop(turns, 0)
    && IsTotal(total, Reported(turns, turn))
    && |said| == turn + 1 && said[turn] == messages && AllAnswered(said)
  }

  /** The tool loop once it is over. */
  ghost predicate LoopOver(turns: nat -> Reply, end: LoopEnd, total: Usage, messages: seq<Message>,
                           said: seq<seq<Message>>) {
    && end == EndOf(turns)
    && IsTotal(total, Reported(turns, LoopTurns(turns)))
    && |said| == LoopTurns(turns) + 1 && said[LoopTurns(turns)] == messages && AllAnswered(said)
  }

  lemma StopHere(turns: nat -> Reply, turn: nat)
    requires turn < MAX_TOOL_ITERATIONS && turn <= Stop(turns, 0)
    ensures if turns(turn).Raised? || turns(turn).calls == [] then Stop(turns, 0) == turn
            else turn + 1 <= Stop(turns, 0)
  {
  }

  lemma TurnFails(turns: nat -> Reply, turn: nat, total: Usage, messages: seq<Message>, said: seq<seq<Message>>)
    requires turn < MAX_TOOL_ITERATIONS && AtTurn(turns, turn, total, messages, said)
    requires turns(turn).Raised?
    ensures LoopOver(turns, Failed, total, messages, said)
  {
    StopHere(turns, turn);
  }

  /** A turn that returned is the last one exactly if it asked for no tool. */
  lemma TurnTaken(turns: nat -> Reply, turn: nat, total: Usage, messages: seq<Message>, said: seq<seq<Message>>,
                  after: seq<Message>)
    requires turn < MAX_TOOL_ITERATIONS && AtTurn(turns, turn, total, messages, said)
    requires turns(turn).Replied? && Answered(after)
    ensures var paid := Add(total, turns(turn).usage);
            if turns(turn).calls == [] then LoopOver(turns, Settled, paid, after, said + [after])
            else AtTurn(turns, turn + 1, paid, after, said + [after])
  {
    StopHere(turns, turn);
    TotalSnoc(total, Reported(turns, turn), turns(turn).usage);
  }

  lemma OutOfTurns(turns: nat -> Reply, total: Usage, messages: seq<Message>, said: seq<seq<Message>>)
    requires AtTurn(turns, MAX_TOOL_ITERATIONS, total, messages, said)
    ensures LoopOver(turns, Exhausted, total, messages, said)
  {
  }

  /** The tool loop once it is over, seen from the transcripts its model calls were made on. */
  ghost predicate LoopAsked(turns: nat -> Reply, end: LoopEnd, total: Usage, prompts: seq<seq<Message>>) {
    && end == EndOf(turns)
    && IsTotal(total, Reported(turns, LoopTurns(turns)))
    && |prompts| == LoopCalls(turns) && AllAnswered(prompts)
  }

  lemma AskedInLoop(turns: nat -> Reply, end: LoopEnd, total: Usage, messages: seq<Message>,
                    said: seq<seq<Message>>)
    requires LoopOver(turns, end, total, messages, said)
    ensures LoopCalls(turns) <= |said| && LoopAsked(turns, end, total, said[..LoopCalls(turns)])
    ensures Answered(messages)
  {
  }

  const MUST_ANSWER := "You must answer now, using only what you've already gathered above."

  /** The transcripts of the model calls after the tool loop: none if it failed, the structured call's
      if the model settled, and otherwise that of a forced turn first. */
  function LastPrompts(turns: nat -> Reply, end: LoopEnd, messages: seq<Message>): seq<seq<Message>> {
    match end
    case Failed => []
    case Settled => [messages]
    case Exhausted =>
      var forced := messages + [HumanMessage(MUST_ANSWER)];
      match turns(MAX_TOOL_ITERATIONS)
      case Raised => [forced]
      case Replied(calls, _) => [forced, forced + [AiMessage(calls)]]
  }

  /** What a run reports once it is over, whatever its outcome. */
  ghost predicate RunOver(turns: nat -> Reply, final: FinalReply, success: bool, total: Usage,
                          prompts: seq<seq<Message>>) {
    && (success <==> Succeeds(turns, final))
    && IsTotal(total, UsagesOf(turns, final))
    && |prompts| == ModelCalls(turns)
    && (forall k :: 0 <= k < |prompts| && k <= MAX_TOOL_ITERATIONS ==> Answered(prompts[k]))
    && (|prompts| == MAX_TOOL_ITERATIONS + 2 ==>
          (Answered(prompts[MAX_TOOL_ITERATIONS + 1]) <==> turns(MAX_TOOL_ITERATIONS).calls == []))
  }

  lemma OverAfterFailure(turns: nat -> Reply, final: FinalReply, total: Usage, prompts: seq<seq<Message>>)
    requires LoopAsked(turns, Failed, total, prompts)
    ensures RunOver(turns, final, false, total, prompts)
  {
    FailedInLoop(turns, final);
  }

  lemma OverAfterForcedFailure(turns: nat -> Reply, final: FinalReply, total: Usage,
                               prompts: seq<seq<Message>>, messages: seq<Message>)
    requires LoopAsked(turns, Exhausted, total, prompts) && Answered(messages)
    requires turns(MAX_TOOL_ITERATIONS).Raised?
    ensures RunOver(turns, final, false, total, prompts + [messages])
  {
    FailedWhenForced(turns, final);
  }

  /** Everything before the structured call. */
  ghost predicate BeforeFinal(turns: nat -> Reply, total: Usage, prompts: seq<seq<Message>>, messages: seq<Message>) {
    && !LastTurnRaised(turns)
    && IsTotal(total, AnsweredTurns(turns))
    && |prompts| + 1 == ModelCalls(turns) && AllAnswered(prompts)
    && (|prompts| <= MAX_TOOL_ITERATIONS ==> Answered(messages))
    && (|prompts| == MAX_TOOL_ITERATIONS + 1 ==>
          (Answered(messages) <==> turns(MAX_TOOL_ITERATIONS).calls == []))
  }

  lemma SettledBeforeFinal(turns: nat -> Reply, total: Usage, prompts: seq<seq<Message>>, messages: seq<Message>)
    requires LoopAsked(turns, Settled, total, prompts) && Answered(messages)
    ensures BeforeFinal(turns, total, prompts, messages)
  {
    ReachedTheEnd(turns, FinalRaised);
  }

  lemma ForcedBeforeFinal(turns: nat -> Reply, total: Usage, prompts: seq<seq<Message>>, messages: seq<Message>)
    requires LoopAsked(turns, Exhausted, total, prompts) && Answered(messages)
    requires turns(MAX_TOOL_ITERATIONS).Replied?
    ensures var forced := turns(MAX_TOOL_ITERATIONS);
            BeforeFinal(turns, Add(total, forced.usage), prompts + [messages], messages + [AiMessage(forced.calls)])
  {
    ReachedTheEnd(turns, FinalRaised);
    TotalSnoc(total, Reported(turns, LoopTurns(turns)), turns(MAX_TOOL_ITERATIONS).usage);
    AiTurn(messages, turns(MAX_TOOL_ITERATIONS).calls);
  }

  lemma OverAfterFinal(turns: nat -> Reply, final: FinalReply, total: Usage, prompts: seq<seq<Message>>,
                       messages: seq<Message>)
    requires BeforeFinal(turns, total, prompts, messages)
    ensures var t := if final.FinalRaised? then total else Add(total, final.usage);
            RunOver(turns, final, final.FinalReplied? && final.parsed.Some?, t, prompts + [messages])
  {
    if final.FinalRaised? {
      assert AnsweredTurns(turns) + [] == AnsweredTurns(turns);
    } else {
      TotalSnoc(total, AnsweredTurns(turns), final.usage);
    }
  }

  /** A model that calls a tool in every turn, the forced one included. */
  function Insistent(turn: nat): Reply {
    Replied([ToolCall("search", "", "call")], None)
  }

  /** Its structured call is made on a transcript with an unanswered tool call, whatever else happens. */
  lemma ForcedTurnLeavesCalls(final: FinalReply, success: bool, total: Usage, prompts: seq<seq<Message>>)
    requires RunOver(Insistent, final, success, total, prompts)
    ensures |prompts| == 6 && !Answered(prompts[5])
  {
    assert Stop(Insistent, 0) == MAX_TOOL_ITERATIONS;
  }
}
