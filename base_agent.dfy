// What every agent shares and the orchestrator that runs them
// (enterprise-ai-strategy/agents/base_agent.py): the standard response, its
// default form and its quality check, the registry of agents, the run
// history, team runs over a shared context, and the history's summary.
// An agent's `process_task` (a call to the language model) becomes a
// parameter holding what the call did; clocks are parameters.

module BaseAgent {
  import opened Common

  /** A metadata value; `MNone` is Python's None. */
  datatype Meta = MText(text: string) | MInt(n: int) | MReal(x: real) | MFlag(flag: bool) | MItems(items: seq<string>) | MNone

  /** What a call to the language model did: it raised an exception with
      this message, or it returned this text. */
  datatype Generation = GenerationRaised(error: string) | Generated(text: string)

  /** A Python call that returns a value or raises an exception with a
      message. */
  datatype PyResult<T> = PyOk(value: T) | PyRaise(error: string)

  /** The message of a KeyError for a missing string key: its quoted form
      (keys with quotes or backslashes are not modelled). */
  function KeyErrorMessage(key: string): string
  {
    "'" + key + "'"
  }

  /** The message of the AttributeError Python raises when code reads an
      entry with `.get` from the text a language-model call returned. */
  const StrHasNoGet := "'str' object has no attribute 'get'"

  datatype AgentResponse = AgentResponse(agentName: string, task: string, content: string,
                                         metadata: map<string, Meta>, timestamp: int,
                                         status: string, confidence: real)

  /** `_create_response`: metadata defaults to {}, the status to
      "success" and the confidence to 0.8. */
  function CreateResponse(agentName: string, task: string, content: string, metadata: Option<map<string, Meta>>,
                          status: Option<string>, confidence: Option<real>, now: int): (r: AgentResponse)
    ensures r.agentName == agentName && r.task == task && r.content == content && r.timestamp == now
    ensures metadata.None? ==> r.metadata == map[]
    ensures status.None? ==> r.status == "success"
    ensures confidence.None? ==> r.confidence == 0.8
  {
    AgentResponse(agentName, task, content, if metadata.Some? then metadata.value else map[], now,
                  if status.Some? then status.value else "success",
                  if confidence.Some? then confidence.value else 0.8)
  }

  /** The response an agent's `process_task` returns when it caught an
      error: status "error", confidence 0 and the error flag. */
  function AgentErrorResponse(agentName: string, task: string, content: string, now: int): (r: AgentResponse)
    ensures r.status == "error" && r.confidence == 0.0 && r.metadata == map["error" := MFlag(true)]
  {
    CreateResponse(agentName, task, content, Some(map["error" := MFlag(true)]), Some("error"), Some(0.0), now)
  }

  /** `validate_response`. */
  predicate Valid(r: AgentResponse)
  {
    |r.content| >= 100 && r.confidence >= 0.5
  }

  /** A response fails the check exactly when its content is under 100
      characters or its confidence under 0.5; a default response passes
      exactly when its content is long enough. */
  lemma ValidIff(r: AgentResponse, agentName: string, task: string, content: string, meta: Option<map<string, Meta>>, now: int)
    ensures !Valid(r) <==> |r.content| < 100 || r.confidence < 0.5
    ensures Valid(CreateResponse(agentName, task, content, meta, None, None, now)) <==> |content| >= 100
    ensures !Valid(AgentErrorResponse(agentName, task, content, now))
  {
  }

  // ---------------------------------------------------------------------
  // The orchestrator

  /** A registered agent: its `agent_name` and which agent it is. */
  datatype AgentRef = AgentRef(name: string, kind: string)

  /** What one `process_task` call did. */
  datatype TaskResult = Responded(response: AgentResponse) | Threw(message: string)

  /** What `execute_agent` gave: a response, or the ValueError for an
      unregistered name. */
  datatype Execution = Executed(response: AgentResponse) | Unregistered(message: string)

  datatype TeamResult = TeamDone(responses: seq<AgentResponse>) | TeamFailed(message: string)

  /** The response `execute_agent` records for one call: an agent that
      raised gets the error response; a response failing the check is
      marked "partial". */
  function Settle(agentName: string, task: string, result: TaskResult, now: int): (r: AgentResponse)
    ensures result.Threw? ==>
      (r.status == "error" && r.confidence == 0.0
       && r.content == "Error: " + result.message && r.metadata == map["error" := MFlag(true)])
    ensures result.Responded? && Valid(result.response) ==> r == result.response
    ensures result.Responded? && !Valid(result.response) ==> r == result.response.(status := "partial")
  {
    match result
    case Threw(m) => AgentResponse(agentName, task, "Error: " + m, map["error" := MFlag(true)], now, "error", 0.0)
    case Responded(resp) => if !Valid(resp) then resp.(status := "partial") else resp
  }

  /** A settled response is "success" only when the agent answered with a
      valid success; an agent's own error response is recorded as
      "partial", as its confidence of 0 fails the check. */
  lemma SettledStatus(agentName: string, task: string, result: TaskResult, now: int)
    ensures Settle(agentName, task, result, now).status == "success" <==>
      result.Responded? && Valid(result.response) && result.response.status == "success"
    ensures Settle(agentName, task, result, now).status == "partial" <==>
      result.Responded? && (!Valid(result.response) || result.response.status == "partial")
    ensures result.Responded? && result.response.status == "error" && result.response.confidence == 0.0 ==>
      Settle(agentName, task, result, now).status == "partial"
  {
  }

  /** The dict a coordinated run shares: the caller's, mutated in place. */
  class Context {
    var entries: map<string, string>

    constructor (entries0: map<string, string>)
      ensures entries == entries0
    {
      entries := entries0;
    }
  }

  function ResponseKey(agentName: string): string
  {
    agentName + "_response"
  }

  /** The keys a run writes. */
  function ResponseKeys(names: seq<string>): (r: set<string>)
    ensures forall i :: 0 <= i < |names| ==> ResponseKey(names[i]) in r
  {
    if names == [] then {}
    else
      var n := |names| - 1;
      var before := ResponseKeys(names[..n]);
      assert forall i :: 0 <= i < n ==> names[..n][i] == names[i];
      before + {ResponseKey(names[n])}
  }

  /** A run writes the keys of its names and no others. */
  lemma {:induction false} ResponseKeysExact(names: seq<string>, k: string)
    ensures k in ResponseKeys(names) <==> exists i :: 0 <= i < |names| && k == ResponseKey(names[i])
  {
    if names != [] {
      var n := |names| - 1;
      ResponseKeysExact(names[..n], k);
      if k in ResponseKeys(names[..n]) {
        var i :| 0 <= i < n && k == ResponseKey(names[..n][i]);
        assert names[i] == names[..n][i];
      }
    }
  }

  /** The context after a run has written each response's content under
      '<name>_response', in order. */
  function ContextAfter(e: map<string, string>, names: seq<string>, rs: seq<AgentResponse>): (r: map<string, string>)
    requires |names| == |rs|
    ensures r.Keys == e.Keys + ResponseKeys(names)
  {
    if names == [] then e
    else
      var n := |names| - 1;
      ContextAfter(e, names[..n], rs[..n])[ResponseKey(names[n]) := rs[n].content]
  }

  lemma {:induction false} ContextStep(e: map<string, string>, names: seq<string>, rs: seq<AgentResponse>, i: nat, x: AgentResponse)
    requires i < |names| && |rs| == i
    ensures ContextAfter(e, names[..i + 1], rs + [x])
      == ContextAfter(e, names[..i], rs)[ResponseKey(names[i]) := x.content]
  {
    var ns := names[..i + 1];
    assert ns[..i] == names[..i];
    assert (rs + [x])[..i] == rs;
    assert ns[i] == names[i];
  }

  lemma ResponseKeyInjective(a: string, b: string)
    requires ResponseKey(a) == ResponseKey(b)
    ensures a == b
  {
    var s := "_response";
    assert |a| == |b|;
    assert a == ResponseKey(a)[..|a|];
    assert b == ResponseKey(b)[..|b|];
  }

  /** Each agent's entry holds the content of its last response in the run. */
  lemma {:induction false} ContextHoldsLast(e: map<string, string>, names: seq<string>, rs: seq<AgentResponse>, i: nat)
    requires |names| == |rs| && i < |names|
    requires forall j :: i < j < |names| ==> names[j] != names[i]
    ensures ContextAfter(e, names, rs)[ResponseKey(names[i])] == rs[i].content
  {
    var n := |names| - 1;
    var prev := ContextAfter(e, names[..n], rs[..n]);
    assert ContextAfter(e, names, rs) == prev[ResponseKey(names[n]) := rs[n].content];
    if i < n {
      if ResponseKey(names[n]) == ResponseKey(names[i]) {
        ResponseKeyInjective(names[n], names[i]);
      }
      assert names[..n][i] == names[i] && rs[..n][i] == rs[i];
      assert forall j :: i < j < n ==> names[..n][j] == names[j];
      ContextHoldsLast(e, names[..n], rs[..n], i);
    }
  }

  /** The number of leading names that are registered: a team run stops at
      the first one that is not. */
  function RegisteredPrefix(names: seq<string>, agents: map<string, AgentRef>): (k: nat)
    ensures k <= |names|
    ensures forall i :: 0 <= i < k ==> names[i] in agents
    ensures k < |names| ==> names[k] !in agents
  {
    if names == [] || names[0] !in agents then 0 else 1 + RegisteredPrefix(names[1..], agents)
  }

  /** The settled responses of the first `k` calls of a run. */
  function TeamResponses(names: seq<string>, task: string, results: seq<TaskResult>, now: int, k: nat): (r: seq<AgentResponse>)
    requires k <= |names| && k <= |results|
    ensures |r| == k
    ensures forall i :: 0 <= i < k ==> r[i] == Settle(names[i], task, results[i], now)
  {
    seq(k, i requires 0 <= i < k => Settle(names[i], task, results[i], now))
  }

  lemma {:induction false} TeamStep(names: seq<string>, task: string, results: seq<TaskResult>, now: int, i: nat)
    requires i < |names| && i < |results|
    ensures TeamResponses(names, task, results, now, i + 1)
      == TeamResponses(names, task, results, now, i) + [Settle(names[i], task, results[i], now)]
  {
  }

  class Orchestrator {
    var agents: map<string, AgentRef>
    var history: seq<AgentResponse>

    constructor ()
      ensures agents == map[] && history == []
    {
      agents := map[];
      history := [];
    }

    /** `register_agent`: keyed by name, so a second agent of the same name
        replaces the first. */
    method RegisterAgent(a: AgentRef)
      modifies this
      ensures agents == old(agents)[a.name := a]
      ensures history == old(history)
    {
      agents := agents[a.name := a];
    }

    /** `execute_agent`: an unregistered name raises and records nothing;
        otherwise exactly one settled response is appended to the history. */
    method ExecuteAgent(agentName: string, task: string, result: TaskResult, now: int) returns (r: Execution)
      modifies this
      ensures agents == old(agents)
      ensures agentName !in agents ==> r == Unregistered("Agent " + agentName + " not found") && history == old(history)
      ensures agentName in agents ==>
        r == Executed(Settle(agentName, task, result, now)) && history == old(history) + [r.response]
    {
      if agentName !in agents {
        return Unregistered("Agent " + agentName + " not found");
      }
      var response: AgentResponse;
      match result {
        case Threw(m) =>
          response := AgentResponse(agentName, task, "Error: " + m, map["error" := MFlag(true)], now, "error", 0.0);
        case Responded(resp) =>
          response := resp;
          if !Valid(response) {
            response := response.(status := "partial");
          }
      }
      history := history + [response];
      r := Executed(response);
    }

    /** `execute_agent_team`: runs the agents in order, `results[i]` being
        what the i-th call did, and writes each response into the context
        (created on the first write when the caller gave none). An
        unregistered name raises and ends the run, after the earlier calls
        have been recorded and written. */
    method ExecuteAgentTeam(names: seq<string>, task: string, ctx: Context?, results: seq<TaskResult>, now: int)
        returns (r: TeamResult, used: Context?)
      requires |results| == |names|
      modifies this, ctx
      ensures agents == old(agents)
      ensures var k := RegisteredPrefix(names, old(agents));
        var rs := TeamResponses(names, task, results, now, k);
        history == old(history) + rs
        && (k == |names| ==> r == TeamDone(rs))
        && (k < |names| ==> r == TeamFailed("Agent " + names[k] + " not found"))
        && (ctx != null ==> used == ctx && ctx.entries == ContextAfter(old(ctx.entries), names[..k], rs))
        && (ctx == null && k == 0 ==> used == null)
        && (ctx == null && k > 0 ==> used != null && fresh(used) && used.entries == ContextAfter(map[], names[..k], rs))
    {
      var k := RegisteredPrefix(names, agents);
      var responses;
      responses, used := RunRegistered(names, task, ctx, results, now, k);
      if k < |names| {
        var e := ExecuteAgent(names[k], task, results[k], now);
        r := TeamFailed(e.message);
      } else {
        r := TeamDone(responses);
      }
    }

    /** The calls of a team run before its first unregistered name, the
        `k` leading registered ones. */
    method RunRegistered(names: seq<string>, task: string, ctx: Context?, results: seq<TaskResult>, now: int, k: nat)
        returns (responses: seq<AgentResponse>, used: Context?)
      requires |results| == |names| && k == RegisteredPrefix(names, agents)
      modifies this, ctx
      ensures agents == old(agents)
      ensures responses == TeamResponses(names, task, results, now, k)
      ensures history == old(history) + responses
      ensures ctx != null ==> used == ctx && ctx.entries == ContextAfter(old(ctx.entries), names[..k], responses)
      ensures ctx == null && k == 0 ==> used == null
      ensures ctx == null && k > 0 ==> used != null && fresh(used) && used.entries == ContextAfter(map[], names[..k], responses)
    {
      if ctx == null && k == 0 {
        return [], null;
      }
      // Without a caller's context, the dictionary the first call's entry
      // goes into is created now rather than just after that call; nothing
      // can observe it in between.
      if ctx != null {
        used := ctx;
      } else {
        used := new Context(map[]);
      }
      responses := RunInto(names, task, used, results, now, k);
    }

    /** The first `k` calls of a run, each writing its entry into `c`. */
    method RunInto(names: seq<string>, task: string, c: Context, results: seq<TaskResult>, now: int, k: nat)
        returns (responses: seq<AgentResponse>)
      requires |results| == |names| && k == RegisteredPrefix(names, agents)
      modifies this, c
      ensures agents == old(agents)
      ensures responses == TeamResponses(names, task, results, now, k)
      ensures history == old(history) + responses
      ensures c.entries == ContextAfter(old(c.entries), names[..k], responses)
    {
      responses := [];
      var i := 0;
      while i < k
        invariant 0 <= i <= k
        invariant agents == old(agents)
        invariant responses == TeamResponses(names, task, results, now, i)
        invariant history == old(history) + responses
        invariant c.entries == ContextAfter(old(c.entries), names[..i], responses)
      {
        assert names[i] in agents;
        var e := ExecuteAgent(names[i], task, results[i], now);
        var x := e.response;
        assert x == Settle(names[i], task, results[i], now);
        TeamStep(names, task, results, now, i);
        ContextStep(old(c.entries), names, responses, i, x);
        c.entries := c.entries[ResponseKey(names[i]) := x.content];
        responses := responses + [x];
        i := i + 1;
      }
    }

    /** `get_execution_summary`. */
    function Summary(): ExecutionSummary
      reads this
    {
      SummaryOf(history)
    }
  }

  datatype ExecutionSummary = ExecutionSummary(total: nat, successful: nat, successRate: real,
                                               agentsUsed: set<string>, latest: Option<int>)

  function IsSuccess(): AgentResponse -> bool
  {
    (r: AgentResponse) => r.status == "success"
  }

  /** The agents a history mentions. */
  function AgentsUsed(h: seq<AgentResponse>): (r: set<string>)
    ensures forall i :: 0 <= i < |h| ==> h[i].agentName in r
    ensures forall n :: n in r ==> exists i :: 0 <= i < |h| && h[i].agentName == n
  {
    if h == [] then {}
    else
      var n := |h| - 1;
      var before := AgentsUsed(h[..n]);
      assert forall i :: 0 <= i < n ==> h[..n][i] == h[i];
      before + {h[n].agentName}
  }

  /** `a / b` for counts, which lies between 0 and 1. */
  function Ratio(a: nat, b: nat): (r: real)
    requires 0 < b && a <= b
    ensures r == a as real / b as real
    ensures 0.0 <= r <= 1.0
  {
    var q := a as real / b as real;
    assert q * b as real == a as real;
    q
  }

  /** The summary of a history: successes never exceed runs, and the rate
      is their ratio, 0 for an empty history. */
  function SummaryOf(h: seq<AgentResponse>): (r: ExecutionSummary)
    ensures r.total == |h| && r.successful <= r.total
    ensures r.total > 0 ==> r.successRate == r.successful as real / r.total as real
    ensures r.total == 0 ==> r.successRate == 0.0 && r.latest.None?
    ensures 0.0 <= r.successRate <= 1.0
    ensures r.agentsUsed == AgentsUsed(h)
  {
    var total := |h|;
    var successful := Count(h, IsSuccess());
    assert successful <= total;
    ExecutionSummary(total, successful,
                     if total > 0 then Ratio(successful, total) else 0.0,
                     AgentsUsed(h),
                     if h == [] then None else Some(h[|h| - 1].timestamp))
  }

  /** One more recorded run adds one to the total, one to the successes
      exactly when it succeeded, its agent to those used, and becomes the
      latest. */
  lemma {:induction false} SummaryAppend(h: seq<AgentResponse>, x: AgentResponse)
    ensures SummaryOf(h + [x]).total == SummaryOf(h).total + 1
    ensures SummaryOf(h + [x]).successful == SummaryOf(h).successful + (if x.status == "success" then 1 else 0)
    ensures SummaryOf(h + [x]).agentsUsed == SummaryOf(h).agentsUsed + {x.agentName}
    ensures SummaryOf(h + [x]).latest == Some(x.timestamp)
  {
    FilterConcat(h, [x], IsSuccess());
    assert Filter([x], IsSuccess()) == (if x.status == "success" then [x] else []) by {
      assert [x][1..] == [];
    }
    var hx := h + [x];
    assert hx[..|h|] == h;
  }
}
