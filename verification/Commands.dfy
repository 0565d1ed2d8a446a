/** The approval queue at the level of its Redis commands: clients interleave between the commands of
    a method. Undisturbed methods behave as the atomic ones of `Escalations`; disturbed ones lose
    decisions, freshness and pending entries. */
module Commands {
  import opened Schemas
  import opened ApprovalQueue
  import opened Escalations

  datatype Client = Runner(task: Id) | Person(name: Id)

  /** Where a client stands inside a method, with what it has read. */
  datatype Stage =
    | Adding(task: Id)                              // submit: the record is written, SADD follows
    | Resolving(task: Id, read: PendingApproval, decision: HumanDecision)  // resolve: HSET and SREM follow
    | Removing(task: Id)                            // resolve: the record is written, SREM follows
    | Messaging(task: Id, read: PendingApproval, message: ChatMessage)     // append_message: HSET follows

  /** `shared` holds what is in Redis, the runners and the log; `busy` the clients inside a method. */
  datatype Server = Server(shared: World, busy: map<Client, Stage>)

  /** One Redis command of one client. A method is logged where it writes the record. */
  datatype Command =
    | SubmitSet(task: Id, escalation: Escalation, source: Source, now: real)
    | SubmitAdd(task: Id)
    | PollGet(task: Id)
    | FinishSet(task: Id, notify: bool, escalation: Escalation, now: real)
    | ResolveGet(person: Id, task: Id, decision: HumanDecision)
    | ResolveSet(person: Id, task: Id, now: real)
    | ResolveRem(person: Id, task: Id)
    | MessageGet(person: Id, task: Id, message: ChatMessage)
    | MessageSet(person: Id, task: Id)

  function ClientOf(cmd: Command): Client {
    if cmd.SubmitSet? || cmd.SubmitAdd? || cmd.PollGet? || cmd.FinishSet? then Runner(cmd.task)
    else Person(cmd.person)
  }

  predicate At(s: Server, c: Client, stage: Stage) {
    c in s.busy && s.busy[c] == stage
  }

  function Written(s: Server, task: Id, a: PendingApproval): World {
    s.shared.(queue := s.shared.queue.(approvals := s.shared.queue.approvals[task := a]))
  }

  function Left(s: Server, c: Client): map<Client, Stage> {
    s.busy - {c}
  }

  function Exec(s: Server, cmd: Command): Server {
    var w := s.shared;
    var c := ClientOf(cmd);
    match cmd
    case SubmitSet(t, e, src, now) =>
      if StateOf(w, t).Running? && c !in s.busy then
        var r := Written(s, t, Fresh(t, e, src, now));
        Server(r.(runners := r.runners[t := Waiting], log := r.log + [DidSubmit(t, Request(e, now))]),
               s.busy[c := Adding(t)])
      else s
    case SubmitAdd(t) =>
      if At(s, c, Adding(t)) then
        Server(w.(queue := w.queue.(pending := w.queue.pending + {t})), Left(s, c))
      else s
    case PollGet(t) => if c !in s.busy then s.(shared := Step(w, Poll(t))) else s
    case FinishSet(t, notify, e, now) => if c !in s.busy then s.(shared := Step(w, Finish(t, notify, e, now))) else s
    case ResolveGet(_, t, d) =>
      if t in w.queue.approvals && c !in s.busy then
        s.(busy := s.busy[c := Resolving(t, w.queue.approvals[t], d)])
      else s
    case ResolveSet(_, t, now) =>
      if c in s.busy && s.busy[c].Resolving? && s.busy[c].task == t then
        var a, d := s.busy[c].read, s.busy[c].decision;
        var r := Written(s, t, ResolvedWith(a, d, now));
        Server(r.(log := r.log + [DidResolve(t, RequestOf(a), d)]), s.busy[c := Removing(t)])
      else s
    case ResolveRem(_, t) =>
      if At(s, c, Removing(t)) then
        Server(w.(queue := w.queue.(pending := w.queue.pending - {t})), Left(s, c))
      else s
    case MessageGet(_, t, m) =>
      if t in w.queue.approvals && c !in s.busy then
        s.(busy := s.busy[c := Messaging(t, w.queue.approvals[t], m)])
      else s
    case MessageSet(_, t) =>
      if c in s.busy && s.busy[c].Messaging? && s.busy[c].task == t then
        var a := s.busy[c].read;
        Server(Written(s, t, a.(messages := a.messages + [s.busy[c].message])), Left(s, c))
      else s
  }

  const IDLE: Server := Server(NOTHING, map[])

  function ExecAll(cmds: seq<Command>): Server {
    if cmds == [] then IDLE else Exec(ExecAll(cmds[..|cmds|-1]), cmds[|cmds|-1])
  }

  // ---------------------------------------------------------------- undisturbed methods

  /** Commands that write nothing to the queue: a poll, and finishing without a notification. */
  predicate WritesNothing(cmd: Command) {
    cmd.PollGet? || (cmd.FinishSet? && !cmd.notify)
  }

  /** No other client is inside a method on the command's task, unless the command writes nothing. */
  ghost predicate Alone(s: Server, cmd: Command) {
    WritesNothing(cmd) || forall c :: c in s.busy && c != ClientOf(cmd) ==> s.busy[c].task != cmd.task
  }

  ghost predicate Undisturbed(cmds: seq<Command>) {
    forall k :: 0 <= k < |cmds| ==> Alone(ExecAll(cmds[..k]), cmds[k])
  }

  /** How the client's method under way shows: what it read still stands, and only the pending set may
      lag behind. */
  ghost predicate UnderWay(q: Queue, pending: set<Id>, c: Client, stage: Stage) {
    var t := stage.task;
    match stage
    case Adding(_) => c == Runner(t) && t in pending
    case Resolving(_, a, _) => t in q.approvals && q.approvals[t] == a && (t in q.pending <==> t in pending)
    case Removing(_) => t !in pending
    case Messaging(_, a, _) => t in q.approvals && q.approvals[t] == a && (t in q.pending <==> t in pending)
  }

  ghost predicate Untouched(s: Server, t: Id) {
    forall c :: c in s.busy ==> s.busy[c].task != t
  }

  /** The server agrees with an atomic world, but for the pending entries of the methods under way, at
      most one per task. */
  ghost predicate Refines(s: Server, w: World) {
    && s.shared.runners == w.runners && s.shared.log == w.log
    && s.shared.queue.approvals == w.queue.approvals
    && (forall c, d :: c in s.busy && d in s.busy && s.busy[c].task == s.busy[d].task ==> c == d)
    && (forall c :: c in s.busy ==> UnderWay(s.shared.queue, w.queue.pending, c, s.busy[c]))
    && (forall t :: Untouched(s, t) ==> (t in s.shared.queue.pending <==> t in w.queue.pending))
  }

  // ---------------------------------------------------------------- one command, at most one atomic step

  ghost predicate SameElsewhere(q: Queue, r: Queue, t: Id) {
    forall u :: u != t ==>
      && (u in q.approvals <==> u in r.approvals) && (u in q.approvals ==> q.approvals[u] == r.approvals[u])
      && (u in q.pending <==> u in r.pending)
  }

  /** The client's own progress on the task, seen from the atomic world. */
  ghost predicate Caught(s: Server, w: World, c: Client, t: Id) {
    if c in s.busy then s.busy[c].task == t && UnderWay(s.shared.queue, w.queue.pending, c, s.busy[c])
    else t in s.shared.queue.pending <==> t in w.queue.pending
  }

  lemma UnderWayElsewhere(q: Queue, w: Queue, q': Queue, w': Queue, c: Client, stage: Stage, t: Id)
    requires UnderWay(q, w.pending, c, stage) && stage.task != t && SameElsewhere(q, q', t) && SameElsewhere(w, w', t)
    ensures UnderWay(q', w'.pending, c, stage)
  {
  }

  lemma OthersStay(s: Server, s': Server, c: Client)
    requires s'.busy - {c} == s.busy - {c}
    ensures forall d :: d != c ==> (d in s'.busy <==> d in s.busy) && (d in s.busy ==> s'.busy[d] == s.busy[d])
  {
    forall d | d != c ensures (d in s'.busy <==> d in s.busy) && (d in s.busy ==> s'.busy[d] == s.busy[d]) {
      assert d in s'.busy <==> d in s'.busy - {c};
      assert d in s.busy <==> d in s.busy - {c};
      if d in s.busy { assert (s.busy - {c})[d] == (s'.busy - {c})[d]; }
    }
  }

  /** A command that touches one task, and moves only its own client, keeps the rest. */
  lemma RefinesOnward(s: Server, w: World, s': Server, w': World, c: Client, t: Id)
    requires Refines(s, w) && (forall d :: d in s.busy && d != c ==> s.busy[d].task != t)
    requires c in s.busy ==> s.busy[c].task == t
    requires s'.shared.runners == w'.runners && s'.shared.log == w'.log
    requires s'.shared.queue.approvals == w'.queue.approvals
    requires s'.busy - {c} == s.busy - {c}
    requires SameElsewhere(s.shared.queue, s'.shared.queue, t) && SameElsewhere(w.queue, w'.queue, t)
    requires Caught(s', w', c, t)
    ensures Refines(s', w')
  {
    OthersStay(s, s', c);
    forall d | d in s'.busy ensures UnderWay(s'.shared.queue, w'.queue.pending, d, s'.busy[d]) {
      if d != c {
        UnderWayElsewhere(s.shared.queue, w.queue, s'.shared.queue, w'.queue, d, s.busy[d], t);
      }
    }
    forall u | Untouched(s', u) ensures u in s'.shared.queue.pending <==> u in w'.queue.pending {
      if u != t {
        assert Untouched(s, u);
      }
    }
  }

  /** A client about to start a method on a task nobody else is inside finds it settled. */
  lemma Settled(s: Server, w: World, c: Client, t: Id)
    requires Refines(s, w) && c !in s.busy && forall d :: d in s.busy && d != c ==> s.busy[d].task != t
    ensures t in s.shared.queue.pending <==> t in w.queue.pending
  {
    assert Untouched(s, t);
  }

  function After(w: World, m: Option<Move>): World {
    if m.Some? then Step(w, m.value) else w
  }

  lemma SubmitRefines(s: Server, cmd: Command, w: World) returns (m: Option<Move>)
    requires Refines(s, w) && Alone(s, cmd) && (cmd.SubmitSet? || cmd.SubmitAdd?)
    ensures Refines(Exec(s, cmd), After(w, m))
  {
    m := None;
    var t, c, n := cmd.task, ClientOf(cmd), Exec(s, cmd);
    if n != s {
      if cmd.SubmitSet? {
        Settled(s, w, c, t);
        m := Some(Interrupt(t, cmd.escalation, cmd.source, cmd.now));
      }
      RefinesOnward(s, w, n, After(w, m), c, t);
    }
  }

  /** A command that writes nothing may fall anywhere. */
  lemma SilentRefines(s: Server, cmd: Command, w: World) returns (m: Option<Move>)
    requires Refines(s, w) && WritesNothing(cmd)
    ensures Refines(Exec(s, cmd), After(w, m))
  {
    m := None;
    if ClientOf(cmd) !in s.busy {
      m := Some(if cmd.PollGet? then Poll(cmd.task) else Finish(cmd.task, false, cmd.escalation, cmd.now));
      SameButRunners(s, w, Exec(s, cmd), After(w, m));
    }
  }

  lemma SameButRunners(s: Server, w: World, s': Server, w': World)
    requires Refines(s, w) && s'.busy == s.busy && s'.shared.queue == s.shared.queue && w'.queue == w.queue
    requires s'.shared.runners == w'.runners && s'.shared.log == w'.log
    ensures Refines(s', w')
  {
    assert forall t :: Untouched(s', t) <==> Untouched(s, t);
  }

  lemma NotifyRefines(s: Server, cmd: Command, w: World) returns (m: Option<Move>)
    requires Refines(s, w) && Alone(s, cmd) && cmd.FinishSet? && cmd.notify
    ensures Refines(Exec(s, cmd), After(w, m))
  {
    m := None;
    var t, c, n := cmd.task, ClientOf(cmd), Exec(s, cmd);
    if c !in s.busy {
      Settled(s, w, c, t);
      m := Some(Finish(t, true, cmd.escalation, cmd.now));
      RefinesOnward(s, w, n, After(w, m), c, t);
    }
  }

  lemma ResolveRefines(s: Server, cmd: Command, w: World) returns (m: Option<Move>)
    requires Refines(s, w) && Alone(s, cmd) && (cmd.ResolveGet? || cmd.ResolveSet? || cmd.ResolveRem?)
    ensures Refines(Exec(s, cmd), After(w, m))
  {
    m := None;
    var t, c, n := cmd.task, ClientOf(cmd), Exec(s, cmd);
    if n != s {
      if cmd.ResolveGet? {
        Settled(s, w, c, t);
      } else if cmd.ResolveSet? {
        m := Some(Resolve(t, s.busy[c].decision, cmd.now));
      }
      RefinesOnward(s, w, n, After(w, m), c, t);
    }
  }

  lemma MessageRefines(s: Server, cmd: Command, w: World) returns (m: Option<Move>)
    requires Refines(s, w) && Alone(s, cmd) && (cmd.MessageGet? || cmd.MessageSet?)
    ensures Refines(Exec(s, cmd), After(w, m))
  {
    m := None;
    var t, c, n := cmd.task, ClientOf(cmd), Exec(s, cmd);
    if n != s {
      if cmd.MessageGet? {
        Settled(s, w, c, t);
      } else {
        m := Some(Ask(t, s.busy[c].message));
      }
      RefinesOnward(s, w, n, After(w, m), c, t);
    }
  }

  lemma ExecRefines(s: Server, cmd: Command, w: World) returns (m: Option<Move>)
    requires Refines(s, w) && Alone(s, cmd)
    ensures Refines(Exec(s, cmd), After(w, m))
  {
    if WritesNothing(cmd) {
      m := SilentRefines(s, cmd, w);
    } else if cmd.SubmitSet? || cmd.SubmitAdd? {
      m := SubmitRefines(s, cmd, w);
    } else if cmd.FinishSet? {
      m := NotifyRefines(s, cmd, w);
    } else if cmd.MessageGet? || cmd.MessageSet? {
      m := MessageRefines(s, cmd, w);
    } else {
      m := ResolveRefines(s, cmd, w);
    }
  }

  lemma RunAfter(moves: seq<Move>, m: Option<Move>) returns (more: seq<Move>)
    ensures Run(more) == After(Run(moves), m)
  {
    more := moves;
    if m.Some? {
      more := moves + [m.value];
      assert more[..|moves|] == moves;
    }
  }

  lemma UndisturbedPrefix(cmds: seq<Command>)
    requires cmds != [] && Undisturbed(cmds)
    ensures Undisturbed(cmds[..|cmds|-1]) && Alone(ExecAll(cmds[..|cmds|-1]), cmds[|cmds|-1])
  {
    var front := cmds[..|cmds|-1];
    forall k | 0 <= k < |front| ensures Alone(ExecAll(front[..k]), front[k]) {
      assert front[..k] == cmds[..k] && front[k] == cmds[k];
    }
  }

  /** Undisturbed methods are linearizable: whatever the interleaving of their commands, with polls
      falling anywhere, some run of atomic methods has the same runners, log and records, and the same
      pending set but for the methods under way. */
  lemma {:induction false} UndisturbedIsAtomic(cmds: seq<Command>) returns (moves: seq<Move>)
    requires Undisturbed(cmds)
    ensures Refines(ExecAll(cmds), Run(moves))
  {
    if cmds == [] {
      moves := [];
    } else {
      var front, last := cmds[..|cmds|-1], cmds[|cmds|-1];
      UndisturbedPrefix(cmds);
      var before := UndisturbedIsAtomic(front);
      var m := ExecRefines(ExecAll(front), last, Run(before));
      moves := RunAfter(before, m);
    }
  }

  lemma SettledQueue(s: Server, w: World)
    requires Refines(s, w) && s.busy == map[]
    ensures s.shared == w
  {
    forall t ensures t in s.shared.queue.pending <==> t in w.queue.pending {
      assert Untouched(s, t);
    }
  }

  /** So undisturbed methods keep what atomic ones keep: every decision a runner resumes with answers
      the very request it waits on, and between methods the queue is the one the log prescribes. */
  lemma UndisturbedIsConsistent(cmds: seq<Command>)
    requires Undisturbed(cmds)
    ensures EveryResumeIsFresh(ExecAll(cmds).shared.log)
    ensures ExecAll(cmds).busy == map[] ==> Consistent(ExecAll(cmds).shared)
  {
    var moves := UndisturbedIsAtomic(cmds);
    DecisionsAreFresh(moves);
    QueueFollowsTheLog(moves);
    if ExecAll(cmds).busy == map[] { SettledQueue(ExecAll(cmds), Run(moves)); }
  }

  // ---------------------------------------------------------------- disturbed methods

  const T: Id := "t"
  const ALICE: Id := "alice"
  const BOB: Id := "bob"
  const FIRST: HumanDecision := HumanDecision(Approve, None, None)
  const SECOND: HumanDecision := HumanDecision(Reject, None, None)
  const ESCALATION: Escalation := Escalation(TakeOverLevel, {})

  function Record(now: real): PendingApproval {
    Fresh(T, ESCALATION, SpecialistRetry, now)
  }

  function Asked(now: real): Request {
    Request(ESCALATION, now)
  }

  lemma ExecSnoc(cmds: seq<Command>, cmd: Command)
    ensures ExecAll(cmds + [cmd]) == Exec(ExecAll(cmds), cmd)
  {
    assert (cmds + [cmd])[..|cmds|] == cmds;
  }

  /** The runner submits undisturbed. */
  lemma WholeSubmit(past: seq<Command>, now: real) returns (cmds: seq<Command>)
    requires StateOf(ExecAll(past).shared, T).Running? && Runner(T) !in ExecAll(past).busy
    ensures var s := ExecAll(past);
            ExecAll(cmds) == Server(World(Submitted(s.shared.queue, Record(now)), s.shared.runners[T := Waiting],
                                          s.shared.log + [DidSubmit(T, Asked(now))]), s.busy)
  {
    var write := SubmitSet(T, ESCALATION, SpecialistRetry, now);
    ExecSnoc(past, write);
    ExecSnoc(past + [write], SubmitAdd(T));
    cmds := past + [write] + [SubmitAdd(T)];
    SubmitCommands(ExecAll(past), now);
  }

  lemma SubmitCommands(s: Server, now: real)
    requires StateOf(s.shared, T).Running? && Runner(T) !in s.busy
    ensures Exec(Exec(s, SubmitSet(T, ESCALATION, SpecialistRetry, now)), SubmitAdd(T))
         == Server(World(Submitted(s.shared.queue, Record(now)), s.shared.runners[T := Waiting],
                         s.shared.log + [DidSubmit(T, Asked(now))]), s.busy)
  {
    var w := s.shared;
    var s1 := Exec(s, SubmitSet(T, ESCALATION, SpecialistRetry, now));
    assert s1 == Server(World(Queue(w.queue.approvals[T := Record(now)], w.queue.pending), w.runners[T := Waiting],
                              w.log + [DidSubmit(T, Asked(now))]), s.busy[Runner(T) := Adding(T)]);
    assert s.busy[Runner(T) := Adding(T)] - {Runner(T)} == s.busy;
  }

  /** A reviewer reads the record and decides. */
  lemma Read(past: seq<Command>, person: Id, d: HumanDecision) returns (cmds: seq<Command>)
    requires T in ExecAll(past).shared.queue.approvals && Person(person) !in ExecAll(past).busy
    ensures var s := ExecAll(past);
            ExecAll(cmds) == s.(busy := s.busy[Person(person) := Resolving(T, s.shared.queue.approvals[T], d)])
  {
    ExecSnoc(past, ResolveGet(person, T, d));
    cmds := past + [ResolveGet(person, T, d)];
  }

  /** ... and writes it back. */
  lemma Write(past: seq<Command>, person: Id, a: PendingApproval, d: HumanDecision) returns (cmds: seq<Command>)
    requires At(ExecAll(past), Person(person), Resolving(T, a, d))
    ensures var s := ExecAll(past);
            var q := s.shared.queue;
            ExecAll(cmds) == Server(World(Queue(q.approvals[T := ResolvedWith(a, d, 1.0)], q.pending),
                                          s.shared.runners, s.shared.log + [DidResolve(T, RequestOf(a), d)]),
                                    s.busy[Person(person) := Removing(T)])
  {
    ExecSnoc(past, ResolveSet(person, T, 1.0));
    cmds := past + [ResolveSet(person, T, 1.0)];
  }

  lemma Remove(past: seq<Command>, person: Id) returns (cmds: seq<Command>)
    requires At(ExecAll(past), Person(person), Removing(T))
    ensures var s := ExecAll(past);
            ExecAll(cmds) == Server(s.shared.(queue := s.shared.queue.(pending := s.shared.queue.pending - {T})),
                                    s.busy - {Person(person)})
  {
    ExecSnoc(past, ResolveRem(person, T));
    cmds := past + [ResolveRem(person, T)];
  }

  /** A whole resolve, undisturbed. */
  lemma WholeResolve(past: seq<Command>, person: Id, d: HumanDecision) returns (cmds: seq<Command>)
    requires T in ExecAll(past).shared.queue.approvals && Person(person) !in ExecAll(past).busy
    ensures var s := ExecAll(past);
            var q := s.shared.queue;
            var a := q.approvals[T];
            ExecAll(cmds) == Server(World(Queue(q.approvals[T := ResolvedWith(a, d, 1.0)], q.pending - {T}),
                                          s.shared.runners, s.shared.log + [DidResolve(T, RequestOf(a), d)]),
                                    s.busy)
  {
    var s := ExecAll(past);
    var c1 := Read(past, person, d);
    var c2 := Write(c1, person, s.shared.queue.approvals[T], d);
    cmds := Remove(c2, person);
    assert ExecAll(cmds).busy == s.busy;
  }

  lemma Resume(past: seq<Command>, d: HumanDecision) returns (cmds: seq<Command>)
    requires Runner(T) !in ExecAll(past).busy && StateOf(ExecAll(past).shared, T).Waiting?
    requires Decision(ExecAll(past).shared.queue, T) == Some(d)
    ensures var s := ExecAll(past);
            ExecAll(cmds) == s.(shared := s.shared.(runners := s.shared.runners[T := Running],
                                                    log := s.shared.log + [DidResume(T, d)]))
  {
    ExecSnoc(past, PollGet(T));
    cmds := past + [PollGet(T)];
  }

  /** A chat message read before and written after a resolve undoes it: nobody is inside a method,
      the log has the decision, the runner waits, and the queue neither holds the decision nor lists
      the task. */
  lemma MessageUndoesDecision() returns (cmds: seq<Command>)
    ensures var s := ExecAll(cmds);
            && s.busy == map[] && !Consistent(s.shared)
            && s.shared.log == [DidSubmit(T, Asked(0.0)), DidResolve(T, Asked(0.0), FIRST)]
            && StateOf(s.shared, T).Waiting? && Decision(s.shared.queue, T).None? && T !in s.shared.queue.pending
  {
    var message := ChatMessage("human", "why?");
    var c1 := WholeSubmit([], 0.0);
    var c2 := c1 + [MessageGet(ALICE, T, message)];
    ExecSnoc(c1, MessageGet(ALICE, T, message));
    var c3 := WholeResolve(c2, BOB, FIRST);
    ExecSnoc(c3, MessageSet(ALICE, T));
    cmds := c3 + [MessageSet(ALICE, T)];
    var s := ExecAll(cmds);
    assert s.shared.queue.approvals[T].status.Pending? && T !in s.shared.queue.pending;
    assert !PendingIsExact(s.shared.queue);
  }

  /** Alice has read the record and decided; meanwhile Bob resolves and the runner resumes. */
  lemma ResumedMeanwhile() returns (cmds: seq<Command>)
    ensures var s := ExecAll(cmds);
            && s.busy == map[Person(ALICE) := Resolving(T, Record(0.0), FIRST)]
            && StateOf(s.shared, T).Running? && T in s.shared.queue.approvals
            && s.shared.log == [DidSubmit(T, Asked(0.0)), DidResolve(T, Asked(0.0), SECOND), DidResume(T, SECOND)]
  {
    var c1 := WholeSubmit([], 0.0);
    var c2 := Read(c1, ALICE, FIRST);
    var c3 := WholeResolve(c2, BOB, SECOND);
    cmds := Resume(c3, SECOND);
  }

  /** A resolve that read the record of one escalation and writes after the next was submitted: the
      runner resumes with a decision made on the earlier request. */
  lemma StaleDecisionIsUsed() returns (cmds: seq<Command>)
    ensures var log := ExecAll(cmds).shared.log;
            && log == [DidSubmit(T, Asked(0.0)), DidResolve(T, Asked(0.0), SECOND), DidResume(T, SECOND),
                       DidSubmit(T, Asked(2.0)), DidResolve(T, Asked(0.0), FIRST), DidResume(T, FIRST)]
            && !EveryResumeIsFresh(log)
  {
    var c1 := ResumedMeanwhile();
    var c2 := WholeSubmit(c1, 2.0);
    var c3 := Write(c2, ALICE, Record(0.0), FIRST);
    cmds := Resume(c3, FIRST);
    StaleLog(ExecAll(cmds).shared.log);
  }

  lemma StaleLog(log: seq<Event>)
    requires log == [DidSubmit(T, Asked(0.0)), DidResolve(T, Asked(0.0), SECOND), DidResume(T, SECOND),
                     DidSubmit(T, Asked(2.0)), DidResolve(T, Asked(0.0), FIRST), DidResume(T, FIRST)]
    ensures !EveryResumeIsFresh(log)
  {
    forall s, r ensures !AnswersAt(log[..5], T, FIRST, s, r) {
      assert log[..5][3] == DidSubmit(T, Asked(2.0)) && log[..5][4] == DidResolve(T, Asked(0.0), FIRST);
    }
    assert log[5].DidResume? && !Answers(log[..5], T, FIRST);
  }

  /** A resolve whose last command comes after the next submit: the new escalation waits for a human
      and is not listed. */
  lemma LateRemovalHidesTask() returns (cmds: seq<Command>)
    ensures var s := ExecAll(cmds);
            && s.busy == map[] && !PendingIsExact(s.shared.queue) && StateOf(s.shared, T).Waiting?
            && T in s.shared.queue.approvals && s.shared.queue.approvals[T] == Record(2.0)
            && T !in s.shared.queue.pending
  {
    var c1 := WholeSubmit([], 0.0);
    var c2 := Read(c1, ALICE, FIRST);
    var c3 := Write(c2, ALICE, Record(0.0), FIRST);
    var c4 := Resume(c3, FIRST);
    var c5 := WholeSubmit(c4, 2.0);
    cmds := Remove(c5, ALICE);
    assert ExecAll(cmds).busy == map[];
  }
}
