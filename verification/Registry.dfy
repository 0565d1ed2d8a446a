/** The tool registry (tools/registry.py): who may call what, how often, and what is logged. */
module Registry {
  import opened Schemas
  import opened RateWindow

  datatype ToolCallLog = ToolCallLog(toolName: string, inputs: string, success: bool, text: string)

  /** What the registered function does with its arguments. */
  datatype FuncOutcome = Returns(text: string) | Raises(text: string)

  datatype InvokeResult = Logged(log: ToolCallLog) | ToolNotFound | ToolNotAllowed | RateLimitExceeded

  class RegisteredTool {
    const name: string
    const allowed: set<SpecialistType>
    const limit: int
    var timestamps: seq<real>

    /** Every call ever accepted, and how many of them the deque has let go. */
    ghost var accepted: seq<real>
    ghost var dropped: nat
    ghost var lastCheck: real

    /** The deque is the suffix of the accepted history that can still matter. */
    ghost predicate Valid()
      reads this
    {
      Represents(timestamps, accepted, dropped, lastCheck, limit)
    }

    constructor (name: string, allowed: set<SpecialistType>, limit: int, ghost now: real)
      ensures Valid() && accepted == [] && lastCheck == now
      ensures this.name == name && this.allowed == allowed && this.limit == limit
    {
      this.name, this.allowed, this.limit := name, allowed, limit;
      timestamps, accepted, dropped, lastCheck := [], [], 0, now;
    }

    /** With a clock that never goes back, a call is accepted exactly when fewer than `limit` calls
        of the whole history lie in [now - 60, now]. */
    method CheckRateLimit(now: real) returns (ok: bool)
      requires Valid() && lastCheck <= now
      modifies this
      ensures Valid() && lastCheck == now
      ensures ok <==> Recent(old(accepted), now) < limit
      ensures accepted == if ok then old(accepted) + [now] else old(accepted)
    {
      var windowStart := now - 60.0;
      while timestamps != [] && timestamps[0] < windowStart
        invariant accepted == old(accepted)
        invariant Popping(timestamps, accepted, dropped, windowStart)
        decreases |timestamps|
      {
        PopOne(timestamps, accepted, dropped, windowStart);
        timestamps := timestamps[1..];
        dropped := dropped + 1;
      }
      Settled(timestamps, accepted, dropped, old(lastCheck), now, limit);
      lastCheck := now;
      if |timestamps| >= limit {
        return false;
      }
      AcceptOne(timestamps, accepted, dropped, now, limit);
      timestamps := timestamps + [now];
      accepted := accepted + [now];
      return true;
    }
  }

  /** What a specialist's calls depend on: of every tool its limit, whether the specialist may call
      it, and when it was called. */
  datatype ToolView = ToolView(open: bool, limit: int, accepted: seq<real>)
  datatype World = World(clock: real, tools: map<string, ToolView>)

  /** A call the registry runs: fewer than the tool's limit were accepted in the minute before it. */
  predicate RunsAt(w: World, name: string, now: real) {
    && name in w.tools && w.tools[name].open
    && Recent(w.tools[name].accepted, now) < w.tools[name].limit
  }

  /** Time moves on, and a call that ran joins its tool's history. */
  function Moved(w: World, name: string, now: real, ran: bool): World
    requires ran ==> name in w.tools
  {
    World(now, if ran then w.tools[name := w.tools[name].(accepted := w.tools[name].accepted + [now])] else w.tools)
  }

  function AfterInvoke(w: World, name: string, now: real): World {
    Moved(w, name, now, RunsAt(w, name, now))
  }

  class ToolRegistry {
    var tools: map<string, RegisteredTool>
    var callLog: seq<ToolCallLog>
    /** The process's monotonic clock. */
    var clock: real

    ghost predicate Valid()
      reads this, tools.Values
    {
      && (forall n :: n in tools ==> tools[n].Valid() && tools[n].name == n && tools[n].lastCheck <= clock)
      && (forall m, n :: m in tools && n in tools && m != n ==> tools[m] != tools[n])
    }

    constructor ()
      ensures Valid() && tools == map[] && callLog == []
    {
      tools, callLog, clock := map[], [], 0.0;
    }

    method Register(name: string, allowed: set<SpecialistType>, limit: int) returns (ok: bool)
      requires Valid()
      modifies this`tools
      ensures Valid()
      ensures ok <==> name !in old(tools)
      ensures !ok ==> tools == old(tools)
      ensures ok ==>
                && tools.Keys == old(tools).Keys + {name}
                && (forall n :: n in old(tools) ==> tools[n] == old(tools)[n])
                && fresh(tools[name]) && tools[name].accepted == []
                && tools[name].allowed == allowed && tools[name].limit == limit
    {
      if name in tools {
        return false;
      }
      var t := new RegisteredTool(name, allowed, limit, clock);
      tools := tools[name := t];
      return true;
    }

    /** The world as a specialist sees it. */
    ghost predicate Shows(specialist: SpecialistType, w: World)
      reads this, tools.Values
    {
      && w.clock == clock && w.tools.Keys == tools.Keys
      && forall n :: n in tools ==>
           w.tools[n] == ToolView(specialist in tools[n].allowed, tools[n].limit, tools[n].accepted)
    }

    lemma RunsAsShown(specialist: SpecialistType, w: World, name: string, now: real)
      requires Shows(specialist, w)
      ensures RunsAt(w, name, now) <==>
                && name in tools && specialist in tools[name].allowed
                && Recent(tools[name].accepted, now) < tools[name].limit
    {
    }

    /** Time passes and one tool is checked: the registry stays valid. */
    twostate lemma StaysValid(checked: string)
      requires old(Valid()) && tools == old(tools) && old(clock) <= clock && checked in tools
      requires forall n :: n in tools && n != checked ==> unchanged(tools[n])
      requires tools[checked].Valid() && tools[checked].lastCheck <= clock
      ensures Valid()
    {
      forall n | n in tools ensures tools[n].Valid() && tools[n].lastCheck <= clock {
        if n != checked {
          assert old(tools[n].Valid());
        }
      }
    }

    /** A call is run and logged exactly when the tool exists, the specialist may use it and the
        tool's trailing window has room; a refused call leaves no entry in the log. */
    method Invoke(toolName: string, specialist: SpecialistType, inputs: string, now: real, outcome: FuncOutcome)
      returns (r: InvokeResult)
      requires Valid() && clock <= now
      modifies this, if toolName in tools then {tools[toolName]} else {}
      ensures Valid() && tools == old(tools) && clock == now
      ensures r.ToolNotFound? <==> toolName !in tools
      ensures r.ToolNotAllowed? <==> toolName in tools && specialist !in tools[toolName].allowed
      ensures r.RateLimitExceeded? <==>
                && toolName in tools && specialist in tools[toolName].allowed
                && Recent(old(tools[toolName].accepted), now) >= tools[toolName].limit
      ensures r.Logged? ==> r.log == ToolCallLog(toolName, inputs, outcome.Returns?, outcome.text)
      ensures callLog == if r.Logged? then old(callLog) + [r.log] else old(callLog)
      ensures toolName in tools ==>
                tools[toolName].accepted == if r.Logged? then old(tools[toolName].accepted) + [now]
                                            else old(tools[toolName].accepted)
      ensures forall n :: n in tools && n != toolName ==> tools[n].accepted == old(tools[n].accepted)
    {
      if toolName !in tools {
        clock := now;
        return ToolNotFound;
      }
      var tool := tools[toolName];
      if specialist !in tool.allowed {
        clock := now;
        return ToolNotAllowed;
      }
      var ok := tool.CheckRateLimit(now);
      clock := now;
      StaysValid(toolName);
      if !ok {
        return RateLimitExceeded;
      }
      var log := ToolCallLog(toolName, inputs, outcome.Returns?, outcome.text);
      callLog := callLog + [log];
      return Logged(log);
    }
  }

  /** A call of a tool nobody registered: refused, and the log does not show it. */
  method RefusalIsNotLogged() returns (r: InvokeResult, logged: nat)
    ensures r == ToolNotFound && logged == 0
  {
    var registry := new ToolRegistry();
    r := registry.Invoke("no_such_tool", Research, "", registry.clock, Returns("text"));
    logged := |registry.callLog|;
  }
}
