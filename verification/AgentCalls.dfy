/** Recorded model and tool requests: a request key is claimed once, its answer is stored under the key,
    and later claims replay it. Functions give the table after one session; the classes do it in place. */
module AgentCalls {
  import opened Common
  import opened AgentTypes
  import opened AgentGraph

  // ---- model calls -----------------------------------------------------------------------

  datatype CallClaim =
    | Ask(calls: CallTable, call: nat)   // go to the provider under this call
    | Replay(reply: Reply)               // recorded answer
    | ReplayFailure                      // recorded failure, never retried
    | Busy                               // somebody holds the call

  function ClaimCall(calls: CallTable, key: ModelKey, now: nat, lease: nat, id: nat): CallClaim {
    if key !in calls then Ask(calls[key := CallRunning(id, now + lease, 1)], id)
    else
      match calls[key]
      case CallDone(call, answer, _) => Replay(Reply(call, answer))
      case CallFailed(_, _, _) => ReplayFailure
      case CallRunning(call, until, attempt) =>
        if until > now then Busy else Ask(calls[key := CallRunning(call, now + lease, attempt + 1)], call)
  }

  // Both endings write the row unconditionally.
  function EndCall(calls: CallTable, key: ModelKey, row: CallRow): CallTable {
    calls[key := row]
  }

  function Attempt(calls: CallTable, key: ModelKey): nat {
    if key in calls then calls[key].attempt else 1
  }

  /** The audited gateway in front of a provider. */
  class AuditedGateway {
    const lease: nat
    var calls: CallTable

    constructor (lease: nat, calls: CallTable)
      ensures this.lease == lease && this.calls == calls
    {
      this.lease, this.calls := lease, calls;
    }

    method Claim(key: ModelKey, now: nat, id: nat) returns (r: CallClaim)
      modifies this
      ensures r == ClaimCall(old(calls), key, now, lease, id)
      ensures calls == if r.Ask? then r.calls else old(calls)
    {
      if key !in calls {
        calls := calls[key := CallRunning(id, now + lease, 1)];
        return Ask(calls, id);
      }
      match calls[key] {
        case CallDone(call, answer, _) => r := Replay(Reply(call, answer));
        case CallFailed(_, _, _) => r := ReplayFailure;
        case CallRunning(call, until, attempt) =>
          if until > now {
            r := Busy;
          } else {
            calls := calls[key := CallRunning(call, now + lease, attempt + 1)];
            r := Ask(calls, call);
          }
      }
    }

    method FinishSuccess(key: ModelKey, call: nat, answer: Answer)
      modifies this
      ensures calls == EndCall(old(calls), key, CallDone(call, answer, Attempt(old(calls), key)))
    {
      calls := calls[key := CallDone(call, answer, Attempt(calls, key))];
    }

    method FinishError(key: ModelKey, call: nat, code: string)
      modifies this
      ensures calls == EndCall(old(calls), key, CallFailed(call, code, Attempt(old(calls), key)))
    {
      calls := calls[key := CallFailed(call, code, Attempt(calls, key))];
    }
  }

  // ---- tool runs -------------------------------------------------------------------------

  datatype ToolStart =
    | Refuse                       // refused by validation, nothing recorded
    | Reuse(result: ToolResult)    // recorded result, or a failure while the row still runs
    | Launch(key: ToolKey)         // a new row, now running

  function StartTool(cfg: Settings, s: State, tools: ToolTable, action: Action): ToolStart {
    if InvalidRequest(cfg, s, action) then Refuse
    else
      var key := KeyOf(cfg, action);
      if key in tools then Reuse(Recorded(tools[key])) else Launch(key)
  }

  // A row still running belongs to a lost worker: the executor reports a failure.
  function Recorded(row: ToolRow): ToolResult {
    match row
    case ToolDone(run, output) => ToolResult(Some(run), output)
    case ToolRunning(run) => ToolResult(Some(run), ToolOutput(Failed, []))
  }

  class ToolExecutor {
    var tools: ToolTable

    constructor (tools: ToolTable)
      ensures this.tools == tools
    {
      this.tools := tools;
    }

    method Start(cfg: Settings, s: State, action: Action, run: nat) returns (r: ToolStart)
      modifies this
      ensures r == StartTool(cfg, s, old(tools), action)
      ensures tools == if r.Launch? then old(tools)[r.key := ToolRunning(run)] else old(tools)
    {
      if InvalidRequest(cfg, s, action) {
        return Refuse;
      }
      var key := KeyOf(cfg, action);
      if key in tools {
        return Reuse(Recorded(tools[key]));
      }
      tools := tools[key := ToolRunning(run)];
      r := Launch(key);
    }

    method Finish(key: ToolKey, run: nat, output: ToolOutput) returns (r: ToolResult)
      modifies this
      ensures tools == old(tools)[key := ToolDone(run, output)] && r == Recorded(tools[key])
    {
      tools := tools[key := ToolDone(run, output)];
      r := ToolResult(Some(run), output);
    }
  }

  // ---- what a record is worth ------------------------------------------------------------

  // Two claims of one key reach the provider under the same call.
  lemma ReclaimKeepsTheCall(calls: CallTable, key: ModelKey, now: nat, later: nat, lease: nat, id: nat, id': nat)
    ensures
      var first := ClaimCall(calls, key, now, lease, id);
      first.Ask? ==>
        var second := ClaimCall(first.calls, key, later, lease, id');
        if later < now + lease then second == Busy
        else second.Ask? && second.call == first.call && second.calls[key].attempt == first.calls[key].attempt + 1
  {
  }
}
