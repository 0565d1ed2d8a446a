/** What the recorder is handed: a run of the graph, cut where `invoke` returns. */
module Sessions {
  import opened Schemas
  import opened Graph
  import opened GraphInvariant
  import opened Traces
  import R = Recorder

  /** The `node` field of a trace entry. */
  function NodeName(e: Event): string {
    match e
    case EvIntake => "intake"
    case EvPlan(_) => "plan_task"
    case EvRun(id, _) => "run_specialist:" + id
    case EvReview(_) => "review"
    case EvFeedback(_) => "apply_review_feedback"
    case EvNotify => "notify_human"
    case EvSynthesize => "synthesize"
    case EvDeliver => "deliver"
    case EvReject => "reject_task"
    case EvEscalation(_, _, _) => "human_escalation"
    case EvDecision(_, _, _) => "apply_human_decision"
  }

  /** The trace as the recorder sees it; times, usage and tool calls of the k-th entry are arbitrary. */
  function Entries(trace: seq<Event>, extra: nat -> R.TraceEvent): seq<R.TraceEvent> {
    if trace == [] then []
    else
      var last := |trace| - 1;
      Entries(trace[..last], extra) + [extra(last).(node := NodeName(trace[last]))]
  }

  function StatusName(s: Status): string {
    match s case Running => "unknown" case Completed => "completed" case Rejected => "rejected"
  }

  function Result(c: Config, extra: nat -> R.TraceEvent): R.Invocation {
    R.Invocation(Entries(c.st.trace, extra), c.pc.HumanEscalation?, StatusName(c.st.status), c.st.escalation)
  }

  /** `invoke` returns when a step reaches an interrupt or the end. */
  predicate Returns(before: Config, after: Config) {
    after.pc.HumanEscalation? || (after.pc.End? && !before.pc.End?)
  }

  /** The results of the successive invocations of a run. */
  function Invocations(L: Limits, c: Config, inputs: seq<Input>, extra: nat -> R.TraceEvent): seq<R.Invocation> {
    if inputs == [] then []
    else
      var front := inputs[..|inputs|-1];
      var earlier := Invocations(L, c, front, extra);
      if Returns(Run(L, c, front), Run(L, c, inputs)) then earlier + [Result(Run(L, c, inputs), extra)] else earlier
  }

  // ---------------------------------------------------------------- entries

  lemma {:induction false} EntriesGrow(a: seq<Event>, b: seq<Event>, extra: nat -> R.TraceEvent)
    requires a <= b
    ensures Entries(a, extra) <= Entries(b, extra)
  {
    if |a| == |b| {
      assert a == b;
    } else {
      EntriesGrow(a, b[..|b|-1], extra);
    }
  }

  lemma OnlyEscalationsAreNamedSo(e: Event)
    ensures NodeName(e) == "human_escalation" <==> e.EvEscalation?
  {
    if e.EvRun? {
      assert NodeName(e)[0] == 'r';
      assert "human_escalation"[0] == 'h';
    } else {
      assert |"human_escalation"| == 16;
    }
  }

  /** Counting by name finds exactly the escalation steps. */
  lemma {:induction false} EscalationsByName(trace: seq<Event>, extra: nat -> R.TraceEvent)
    ensures R.Escalations(Entries(trace, extra)) == Count(trace, IsEscalation)
  {
    if trace != [] {
      var last := |trace| - 1;
      EscalationsByName(trace[..last], extra);
      OnlyEscalationsAreNamedSo(trace[last]);
      var front := Entries(trace[..last], extra);
      var e := extra(last).(node := NodeName(trace[last]));
      assert (front + [e])[..|front|] == front;
    }
  }

  // ---------------------------------------------------------------- the session so far

  /** Every invocation so far was interrupted, one per decision taken or now awaited, and the trace
      only grew. */
  ghost predicate Underway(results: seq<R.Invocation>, c: Config, decisions: nat, extra: nat -> R.TraceEvent) {
    && |results| == decisions + (if c.pc.HumanEscalation? then 1 else 0)
    && (forall k :: 0 <= k < |results| ==> results[k].interrupted)
    && (forall k :: 0 < k < |results| ==> results[k-1].events <= results[k].events)
    && (results != [] ==> results[|results|-1].events <= Entries(c.st.trace, extra))
  }

  lemma StaysUnderway(results: seq<R.Invocation>, c: Config, n: Config, decisions: nat, extra: nat -> R.TraceEvent)
    requires Underway(results, c, decisions, extra) && c.st.trace <= n.st.trace && !n.pc.End?
    requires !(c.pc.HumanEscalation? && n.pc.HumanEscalation?)
    ensures Underway(if Returns(c, n) then results + [Result(n, extra)] else results, n,
                     decisions + (if c.pc.HumanEscalation? then 1 else 0), extra)
  {
    EntriesGrow(c.st.trace, n.st.trace, extra);
  }

  lemma InterruptsAreLeft(L: Limits, c: Config, i: Input)
    ensures c.pc.HumanEscalation? ==> Step(L, c, i).pc.ApplyHumanDecision?
    ensures c.pc.End? ==> Step(L, c, i).pc.End?
  {
  }

  lemma {:induction false} RunIsUnderway(L: Limits, requireApproval: bool, inputs: seq<Input>,
                                         extra: nat -> R.TraceEvent)
    requires !Run(L, Start(requireApproval), inputs).pc.End?
    ensures var c0 := Start(requireApproval);
            Underway(Invocations(L, c0, inputs, extra), Run(L, c0, inputs), DecisionsTaken(L, c0, inputs), extra)
  {
    if inputs != [] {
      var c0 := Start(requireApproval);
      var front, i := inputs[..|inputs|-1], inputs[|inputs|-1];
      var c := Run(L, c0, front);
      InterruptsAreLeft(L, c, i);
      RunIsUnderway(L, requireApproval, front, extra);
      RunKeepsInv(L, requireApproval, front);
      StepGrows(L, c, i);
      StaysUnderway(Invocations(L, c0, front, extra), c, Step(L, c, i), DecisionsTaken(L, c0, front), extra);
    }
  }

  /** The run's last step ends it. */
  predicate Complete(L: Limits, c: Config, inputs: seq<Input>) {
    inputs != [] && Run(L, c, inputs).pc.End? && !Run(L, c, inputs[..|inputs|-1]).pc.End?
  }

  lemma LastResult(results: seq<R.Invocation>, c: Config, n: Config, decisions: nat, extra: nat -> R.TraceEvent)
    requires Underway(results, c, decisions, extra) && c.st.trace <= n.st.trace && n.pc.End?
    ensures R.IsSession(results + [Result(n, extra)])
  {
    EntriesGrow(c.st.trace, n.st.trace, extra);
  }

  /** Every complete run, cut into invocations, is a session for the recorder; it has one interrupt per
      human decision, its last result holds the whole trace, and counting that trace's escalations, as
      the task's row does, yields the number of human decisions consumed. */
  lemma RunsAreSessions(L: Limits, requireApproval: bool, inputs: seq<Input>, extra: nat -> R.TraceEvent)
    requires Complete(L, Start(requireApproval), inputs)
    ensures var c0 := Start(requireApproval);
            var results := Invocations(L, c0, inputs, extra);
            && R.IsSession(results) && |results| - 1 == DecisionsTaken(L, c0, inputs)
            && results[|results|-1] == Result(Run(L, c0, inputs), extra)
            && R.Escalations(results[|results|-1].events) == DecisionsTaken(L, c0, inputs)
  {
    var c0 := Start(requireApproval);
    var front, i := inputs[..|inputs|-1], inputs[|inputs|-1];
    var c := Run(L, c0, front);
    InterruptsAreLeft(L, c, i);
    RunIsUnderway(L, requireApproval, front, extra);
    RunKeepsInv(L, requireApproval, front);
    StepGrows(L, c, i);
    LastResult(Invocations(L, c0, front, extra), c, Step(L, c, i), DecisionsTaken(L, c0, front), extra);
    EscalationsByName(Run(L, c0, inputs).st.trace, extra);
    EscalationsCountDecisions(L, requireApproval, inputs);
  }

  // ---------------------------------------------------------------- who is notified

  ghost predicate Notified(t: seq<Event>) {
    exists k :: 0 <= k < |t| && t[k].EvNotify?
  }

  /** A NOTIFY is in the state exactly if it was logged, and then nobody is asked any more. */
  ghost predicate NotifyIsLogged(c: Config) {
    && (Notified(c.st.trace) <==> c.st.escalation.Some? && c.st.escalation.value.level == Notify)
    && (Notified(c.st.trace) ==>
          c.st.source == Some(ReviewLowScoreNotify) && (c.pc.Synthesize? || c.pc.Deliver? || c.pc.End?))
  }

  lemma NotifiedSnoc(t: seq<Event>, e: Event)
    ensures Notified(t + [e]) <==> Notified(t) || e.EvNotify?
  {
    var n := t + [e];
    assert n[|t|] == e && forall k :: 0 <= k < |t| ==> n[k] == t[k];
  }

  lemma BatchNotifiesNobody(t: seq<Event>, batch: seq<Id>, answers: map<Id, Outcome>)
    requires !Notified(t)
    ensures !Notified(t + RunEvents(batch, answers))
  {
    RunEventsAreRuns(batch, answers);
    var n := t + RunEvents(batch, answers);
    forall k | 0 <= k < |n| ensures !n[k].EvNotify? {
      assert if k < |t| then n[k] == t[k] else n[k] in RunEvents(batch, answers);
    }
  }

  /** A step that logs one entry and keeps the escalation, or replaces it by one that waits for an
      answer. */
  lemma OtherEntry(c: Config, n: Config, e: Event)
    requires NotifyIsLogged(c) && n.st.trace == c.st.trace + [e] && !e.EvNotify?
    requires if c.pc.HumanEscalation? then n.st.escalation.Some? && n.st.escalation.value.level != Notify
             else n.st.escalation == c.st.escalation && n.st.source == c.st.source
    requires c.pc.Synthesize? || c.pc.Deliver? ==> n.pc.Deliver? || n.pc.End?
    requires !c.pc.End?
    ensures NotifyIsLogged(n)
  {
    NotifiedSnoc(c.st.trace, e);
  }

  lemma WorkKeepsNotify(L: Limits, c: Config, i: Input)
    requires Inv(L, c) && NotifyIsLogged(c)
    requires c.pc.RouteBatch? || c.pc.RunSpecialists? || c.pc.ApplyHumanDecision? || c.pc.NotifyHuman?
    ensures NotifyIsLogged(Step(L, c, i))
  {
    if c.pc.RunSpecialists? {
      BatchStepIs(L, c, i);
      BatchNotifiesNobody(c.st.trace, c.pc.batch, i.answers);
    } else if c.pc.ApplyHumanDecision? {
      DecisionIsApplicable(L, c.st);
      var e := EvDecision(c.st.source.value, c.st.decision.value.action, c.st.escalation.value.stuckIds);
      NotifiedSnoc(c.st.trace, e);
    } else if c.pc.NotifyHuman? {
      NotifiedSnoc(c.st.trace, EvNotify);
    }
  }

  lemma StepKeepsNotify(L: Limits, c: Config, i: Input)
    requires Inv(L, c) && NotifyIsLogged(c)
    ensures NotifyIsLogged(Step(L, c, i))
  {
    var n := Step(L, c, i);
    match c.pc
    case Intake => OtherEntry(c, n, EvIntake);
    case PlanTask => OtherEntry(c, n, EvPlan(i.plan));
    case Review => OtherEntry(c, n, EvReview(i.review));
    case ApplyReviewFeedback => OtherEntry(c, n, EvFeedback(c.st.review.value.redo));
    case Synthesize => OtherEntry(c, n, EvSynthesize);
    case Deliver => OtherEntry(c, n, EvDeliver);
    case RejectTask => OtherEntry(c, n, EvReject);
    case HumanEscalation =>
      OtherEntry(c, n, EvEscalation(EscalationSource(L, c.st), i.decision.action, RaiseEscalation(L, c.st).stuckIds));
    case End =>
    case Crashed =>
    case _ => WorkKeepsNotify(L, c, i);
  }

  lemma {:induction false} RunKeepsNotify(L: Limits, requireApproval: bool, inputs: seq<Input>)
    ensures NotifyIsLogged(Run(L, Start(requireApproval), inputs))
  {
    if inputs != [] {
      var front := inputs[..|inputs|-1];
      RunKeepsNotify(L, requireApproval, front);
      RunKeepsInv(L, requireApproval, front);
      StepKeepsNotify(L, Run(L, Start(requireApproval), front), inputs[|inputs|-1]);
    }
  }

  /** The last result of a complete run asks for a notification if and only if the log shows one. */
  lemma NotificationReachesTheQueue(L: Limits, requireApproval: bool, inputs: seq<Input>,
                                    extra: nat -> R.TraceEvent)
    requires Complete(L, Start(requireApproval), inputs)
    ensures var results := Invocations(L, Start(requireApproval), inputs, extra);
            var t := Run(L, Start(requireApproval), inputs).st.trace;
            && results != []
            && var last := results[|results|-1];
               (last.escalation.Some? && last.escalation.value.level == Notify)
                 <==> exists k :: 0 <= k < |t| && t[k].EvNotify?
  {
    RunsAreSessions(L, requireApproval, inputs, extra);
    RunKeepsNotify(L, requireApproval, inputs);
  }

  // ---------------------------------------------------------------- a run that asks twice

  function Saying(action: Action): Input {
    Input(Plan([], 1.0), map[], ReviewResult(true, 1.0, "", [], false), HumanDecision(action, None, None), "")
  }

  /** So many escalations were logged on the way to `c`. */
  ghost predicate Asked(L: Limits, c: Config, inputs: seq<Input>, n: nat) {
    c == Run(L, Start(true), inputs) && Count(c.st.trace, IsEscalation) == n && c.st.requireApproval
  }

  lemma OneStepOn(L: Limits, inputs: seq<Input>, c: Config, n: nat, i: Input, d: Config, e: Event)
    requires Asked(L, c, inputs, n) && d == Step(L, c, i) && d.st.trace == c.st.trace + [e] && d.st.requireApproval
    ensures Asked(L, d, inputs + [i], n + if e.EvEscalation? then 1 else 0)
  {
    RunSnoc(L, Start(true), inputs, i);
    CountSnoc(c.st.trace, e, IsEscalation);
  }

  lemma ShownPlan(L: Limits, c: Config, inputs: seq<Input>, n: nat) returns (d: Config, more: seq<Input>)
    requires Asked(L, c, inputs, n) && c.pc.PlanTask? && Clean(c.st)
    ensures Asked(L, d, more, n) && d.pc.HumanEscalation? && Clean(d.st)
  {
    var i := Saying(Modify);
    d, more := Step(L, c, i), inputs + [i];
    OneStepOn(L, inputs, c, n, i, d, EvPlan(i.plan));
  }

  /** The human is asked about a plan, and the answer is applied. */
  lemma AnsweredPlan(L: Limits, c: Config, inputs: seq<Input>, n: nat, action: Action)
    returns (d: Config, more: seq<Input>)
    requires Asked(L, c, inputs, n) && c.pc.HumanEscalation? && Clean(c.st) && (action.Modify? || action.Reject?)
    ensures Asked(L, d, more, n + 1) && Clean(d.st)
    ensures d.pc == if action.Modify? then PlanTask else RejectTask
  {
    var i := Saying(action);
    var m := Step(L, c, i);
    assert m.pc.ApplyHumanDecision? && DecisionApplies(m.st) && IsPlanSource(m.st.source.value);
    var asked := EvEscalation(EscalationSource(L, c.st), action, RaiseEscalation(L, c.st).stuckIds);
    OneStepOn(L, inputs, c, n, i, m, asked);
    d := Step(L, m, i);
    OneStepOn(L, inputs + [i], m, n + 1, i, d, EvDecision(m.st.source.value, action, m.st.escalation.value.stuckIds));
    more := inputs + [i] + [i];
  }

  /** A task whose plan is sent back once and then rejected. */
  lemma ModifiedThenRejected(L: Limits) returns (inputs: seq<Input>)
    ensures Complete(L, Start(true), inputs) && DecisionsTaken(L, Start(true), inputs) == 2
  {
    var i := Saying(Modify);
    var c1 := Step(L, Start(true), i);
    assert [] + [i] == [i];
    OneStepOn(L, [], Start(true), 0, i, c1, EvIntake);
    var c2, i2 := ShownPlan(L, c1, [i], 0);
    var c3, i3 := AnsweredPlan(L, c2, i2, 0, Modify);
    var c4, i4 := ShownPlan(L, c3, i3, 1);
    var c5, i5 := AnsweredPlan(L, c4, i4, 1, Reject);
    inputs := LastStep(L, c5, i5);
    EscalationsCountDecisions(L, true, inputs);
  }

  lemma LastStep(L: Limits, c: Config, past: seq<Input>) returns (inputs: seq<Input>)
    requires Asked(L, c, past, 2) && c.pc.RejectTask?
    ensures Complete(L, Start(true), inputs) && Count(Run(L, Start(true), inputs).st.trace, IsEscalation) == 2
  {
    var i := Saying(Reject);
    inputs := past + [i];
    OneStepOn(L, past, c, 2, i, Step(L, c, i), EvReject);
    assert inputs[..|inputs|-1] == past;
  }

  /** A run of the graph with two interrupts of one second each: the row says one second, the human
      took two. */
  lemma TwoApprovalsCountOnce(L: Limits, p: R.Pricing, extra: nat -> R.TraceEvent, userId: string, text: string,
                              taskType: string, times: (real, real))
    returns (inputs: seq<Input>, waits: seq<R.Wait>)
    ensures Complete(L, Start(true), inputs)
    ensures var results := Invocations(L, Start(true), inputs, extra);
            && R.IsSession(results) && |waits| == |results| - 1 == 2
            && R.FinishedRow(p, userId, text, taskType, results[2], R.LastWaitMs(waits), times).humanReviewMs == 1000.0
    ensures R.TotalWaitMs(waits) == 2000.0
  {
    inputs := ModifiedThenRejected(L);
    RunsAreSessions(L, true, inputs, extra);
    var shown := Escalation(ApprovePlan, {});
    var first := R.Wait(shown, PlanRequested, 0.0, Saying(Modify).decision, 1.0);
    var second := R.Wait(shown, PlanRequested, 5.0, Saying(Reject).decision, 6.0);
    waits := [first, second];
    assert waits[..1] == [first] && [first][..0] == [];
    assert R.TotalWaitMs([first]) == R.TotalWaitMs([]) + R.WaitMs(first);
  }
}
