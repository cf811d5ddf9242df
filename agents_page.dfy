// The agents page of the operations console: the agents grouped by
// category, the execute dialog with its parameter defaults and edits, and
// the execute gates
// (enterprise-ai-strategy/operational-layer/web-ui/src/components/AgentsPage.tsx).

module AgentsPage {
  import opened Common

  /** A parameter value as the dialog holds it. */
  datatype ParamValue = Text(text: string) | Number(number: real) | Flag(flag: bool)

  datatype ParamKind = StringParam | NumberParam | BooleanParam | SelectParam

  datatype AgentParameter = AgentParameter(
    name: string, kind: ParamKind, description: string, required: bool,
    options: seq<string>, default: Option<ParamValue>)

  datatype AgentStatus = AgentActive | AgentInactive

  /** An agent card; the category is kept as text, since grouping works for
      any category name. */
  datatype Agent = Agent(
    name: string, displayName: string, description: string, category: string,
    parameters: seq<AgentParameter>, status: AgentStatus, totalRuns: nat)

  /** `getCategoryColor`. */
  function CategoryColor(category: string): (r: string)
    ensures category == "market_intelligence" ==> r == "#1976d2"
    ensures category == "training_content" ==> r == "#388e3c"
    ensures category == "operational" ==> r == "#f57c00"
    ensures category !in {"market_intelligence", "training_content", "operational"} ==> r == "#757575"
  {
    match category
    case "market_intelligence" => "#1976d2"
    case "training_content" => "#388e3c"
    case "operational" => "#f57c00"
    case _ => "#757575"
  }

  /** The colour of the card's status chip. */
  function StatusChipColor(a: Agent): string
  {
    if a.status == AgentActive then "success" else "default"
  }

  /** The card's Execute button is enabled exactly for an active agent,
      which is exactly when its status chip is green. */
  function CanExecute(a: Agent): (r: bool)
    ensures r <==> a.status == AgentActive
    ensures r <==> StatusChipColor(a) == "success"
  {
    a.status != AgentInactive
  }

  // ---------------------------------------------------------------------
  // Grouping by category

  function InCategory(c: string): Agent -> bool
  {
    (a: Agent) => a.category == c
  }

  /** The categories in the order their first agent appears, which is the
      order the reduce inserts the keys and `Object.entries` lists them. */
  function Categories(agents: seq<Agent>): (r: seq<string>)
    ensures forall j, k :: 0 <= j < k < |r| ==> r[j] != r[k]
  {
    if agents == [] then []
    else
      var prev := Categories(agents[..|agents| - 1]);
      var c := agents[|agents| - 1].category;
      if c in prev then prev else prev + [c]
  }

  /** Every agent's category is listed, and only agents' categories are. */
  lemma {:induction false} CategoriesExact(agents: seq<Agent>)
    ensures forall i :: 0 <= i < |agents| ==> agents[i].category in Categories(agents)
    ensures forall c :: c in Categories(agents) ==> exists i :: 0 <= i < |agents| && agents[i].category == c
  {
    if agents != [] {
      var init := agents[..|agents| - 1];
      CategoriesExact(init);
      assert forall i :: 0 <= i < |init| ==> init[i] == agents[i];
    }
  }

  /** `order` and `groups` hold the grouping of `agents`. */
  ghost predicate Grouped(agents: seq<Agent>, order: seq<string>, groups: map<string, seq<Agent>>)
  {
    order == Categories(agents)
    && (forall c :: c in groups <==> c in order)
    && forall c :: c in groups ==> groups[c] == Filter(agents, InCategory(c))
  }

  /** One reduce step: a new category gets a list, and the agent is pushed
      onto its category's list. */
  lemma {:induction false} PushStep(agents: seq<Agent>, a: Agent, order: seq<string>, groups: map<string, seq<Agent>>,
                                    order': seq<string>, groups': map<string, seq<Agent>>)
    requires Grouped(agents, order, groups)
    requires order' == if a.category in groups then order else order + [a.category]
    requires groups' == groups[a.category := (if a.category in groups then groups[a.category] else []) + [a]]
    ensures Grouped(agents + [a], order', groups')
  {
    var c := a.category;
    var all := agents + [a];
    assert all[..|all| - 1] == agents;
    assert Categories(all) == order';
    forall d | d in groups'
      ensures groups'[d] == Filter(all, InCategory(d))
    {
      FilterConcat(agents, [a], InCategory(d));
      if d == c && c !in groups {
        CountAbsent(agents, c);
      }
    }
  }

  /** `groupedAgents`: walks the agents once, creating a category's list on
      its first agent and pushing each agent onto its category's list. */
  method GroupAgents(agents: seq<Agent>) returns (order: seq<string>, groups: map<string, seq<Agent>>)
    ensures order == Categories(agents)
    ensures forall c :: c in groups <==> c in order
    ensures forall c :: c in groups ==> groups[c] == Filter(agents, InCategory(c))
    ensures forall c :: c in groups ==> groups[c] != []
  {
    order := [];
    groups := map[];
    var i := 0;
    ghost var seen := [];
    while i < |agents|
      invariant 0 <= i <= |agents|
      invariant seen == agents[..i]
      invariant Grouped(seen, order, groups)
    {
      var a := agents[i];
      var c := a.category;
      var order0, groups0 := order, groups;
      var current := if c in groups then groups[c] else [];
      if c !in groups {
        order := order + [c];
      }
      groups := groups[c := current + [a]];
      PushStep(seen, a, order0, groups0, order, groups);
      PrefixStep(agents, i);
      seen := seen + [a];
      i := i + 1;
    }
    assert seen == agents;
    GroupsNonEmpty(agents);
  }

  /** Every listed category has at least one agent. */
  lemma GroupsNonEmpty(agents: seq<Agent>)
    ensures forall c :: c in Categories(agents) ==> Filter(agents, InCategory(c)) != []
  {
    CategoriesExact(agents);
    forall c | c in Categories(agents)
      ensures Filter(agents, InCategory(c)) != []
    {
      var k :| 0 <= k < |agents| && agents[k].category == c;
      assert agents[k] in Filter(agents, InCategory(c));
    }
  }

  /** No agent of the sequence is in the category: its group is empty. */
  lemma {:induction false} CountAbsent(agents: seq<Agent>, c: string)
    requires c !in Categories(agents)
    ensures Filter(agents, InCategory(c)) == []
  {
    CategoriesExact(agents);
    FilterNone(agents, InCategory(c));
  }

  /** The sizes of the groups listed in `cs`. */
  function GroupSizes(cs: seq<string>, agents: seq<Agent>): nat
  {
    if cs == [] then 0 else Count(agents, InCategory(cs[0])) + GroupSizes(cs[1..], agents)
  }

  lemma {:induction false} GroupSizesAppend(cs: seq<string>, c: string, agents: seq<Agent>)
    ensures GroupSizes(cs + [c], agents) == GroupSizes(cs, agents) + Count(agents, InCategory(c))
  {
    if cs != [] {
      assert (cs + [c])[1..] == cs[1..] + [c];
      GroupSizesAppend(cs[1..], c, agents);
    }
  }

  /** One more agent adds one to the group sizes of distinct categories
      exactly when its own category is among them. */
  lemma {:induction false} GroupSizesStep(cs: seq<string>, agents: seq<Agent>, a: Agent)
    requires forall j, k :: 0 <= j < k < |cs| ==> cs[j] != cs[k]
    ensures GroupSizes(cs, agents + [a]) == GroupSizes(cs, agents) + (if a.category in cs then 1 else 0)
  {
    if cs != [] {
      FilterConcat(agents, [a], InCategory(cs[0]));
      GroupSizesStep(cs[1..], agents, a);
      assert a.category in cs[1..] ==> a.category != cs[0];
      assert a.category in cs <==> a.category == cs[0] || a.category in cs[1..];
    }
  }

  /** The groups together hold every agent once: their sizes add up to the
      number of agents. */
  lemma {:induction false} GroupsPartition(agents: seq<Agent>)
    ensures GroupSizes(Categories(agents), agents) == |agents|
  {
    if agents != [] {
      var init := agents[..|agents| - 1];
      var a := agents[|agents| - 1];
      assert agents == init + [a];
      GroupsPartition(init);
      var prev := Categories(init);
      GroupSizesStep(prev, init, a);
      if a.category !in prev {
        GroupSizesAppend(prev, a.category, agents);
        FilterConcat(init, [a], InCategory(a.category));
        CountAbsent(init, a.category);
      }
    }
  }

  // ---------------------------------------------------------------------
  // Parameters

  /** The defaults the dialog starts with: each parameter that has a
      default, a later parameter of the same name overriding an earlier. */
  function Defaults(params: seq<AgentParameter>): map<string, ParamValue>
  {
    if params == [] then map[]
    else
      var prev := Defaults(params[..|params| - 1]);
      var p := params[|params| - 1];
      if p.default.Some? then prev[p.name := p.default.value] else prev
  }

  /** A name has a default exactly when some parameter of that name has one,
      and the value is that of the last such parameter. */
  lemma {:induction false} DefaultsOf(params: seq<AgentParameter>, n: string)
    ensures n in Defaults(params) <==> exists i :: 0 <= i < |params| && params[i].name == n && params[i].default.Some?
    ensures n in Defaults(params) ==>
      exists i :: (0 <= i < |params| && params[i].name == n && params[i].default.Some?
        && Defaults(params)[n] == params[i].default.value
        && forall j :: i < j < |params| ==> params[j].name != n || params[j].default.None?)
  {
    if params != [] {
      var init := params[..|params| - 1];
      assert forall i :: 0 <= i < |init| ==> init[i] == params[i];
      DefaultsOf(init, n);
    }
  }

  /** With distinct parameter names, each declared default is in place. */
  lemma DefaultsDistinct(params: seq<AgentParameter>, i: nat)
    requires forall j, k :: 0 <= j < k < |params| ==> params[j].name != params[k].name
    requires i < |params| && params[i].default.Some?
    ensures params[i].name in Defaults(params) && Defaults(params)[params[i].name] == params[i].default.value
  {
    DefaultsOf(params, params[i].name);
  }

  /** The `forEach` of `handleExecuteAgent`. */
  method DefaultParams(params: seq<AgentParameter>) returns (m: map<string, ParamValue>)
    ensures m == Defaults(params)
  {
    m := map[];
    var i := 0;
    while i < |params|
      invariant 0 <= i <= |params|
      invariant m == Defaults(params[..i])
    {
      assert params[..i + 1][..i] == params[..i];
      if params[i].default.Some? {
        m := m[params[i].name := params[i].default.value];
      }
      i := i + 1;
    }
    assert params[..|params|] == params;
  }

  /** `executionParams[name] || ''`: what an input shows; a missing or falsy
      value shows as empty. */
  function Shown(m: map<string, ParamValue>, name: string): (r: ParamValue)
    ensures name !in m ==> r == Text("")
    ensures name in m && m[name] !in {Text(""), Number(0.0), Flag(false)} ==> r == m[name]
  {
    if name in m && m[name] !in {Text(""), Number(0.0), Flag(false)} then m[name] else Text("")
  }

  /** A numeric parameter set to zero shows as an empty field. */
  lemma ZeroShownBlank(m: map<string, ParamValue>, name: string)
    ensures Shown(m[name := Number(0.0)], name) == Text("")
  {
  }

  // ---------------------------------------------------------------------
  // The execute dialog

  /** The execute dialog and its parameters. */
  class ExecuteDialog {
    var open: bool
    var agent: Option<Agent>
    var params: map<string, ParamValue>
    var executing: bool

    constructor ()
      ensures !open && agent.None? && params == map[] && !executing
    {
      open := false;
      agent := None;
      params := map[];
      executing := false;
    }

    /** `handleExecuteAgent`: opens the dialog on the agent with its
        defaults. */
    method HandleExecuteAgent(a: Agent)
      modifies this
      ensures open && agent == Some(a) && params == Defaults(a.parameters)
      ensures executing == old(executing)
    {
      open := true;
      agent := Some(a);
      params := DefaultParams(a.parameters);
    }

    /** `handleCloseExecuteDialog`. */
    method HandleCloseExecuteDialog()
      modifies this
      ensures !open && agent.None? && params == map[]
      ensures executing == old(executing)
    {
      open := false;
      agent := None;
      params := map[];
    }

    /** `handleParameterChange`: only the named parameter changes. */
    method HandleParameterChange(name: string, value: ParamValue)
      modifies this
      ensures params == old(params)[name := value]
      ensures forall n :: n in old(params) && n != name ==> n in params && params[n] == old(params)[n]
      ensures open == old(open) && agent == old(agent) && executing == old(executing)
    {
      params := params[name := value];
    }

    /** `handleConfirmExecution`: without an agent nothing happens; otherwise
        `executing` is raised for the run and lowered in the `finally`. On
        success the dialog closes; on failure it stays as it was.
        `succeeded` says whether the run completed without throwing. */
    method HandleConfirmExecution(succeeded: bool) returns (note: Option<Notice>)
      modifies this
      ensures old(agent).None? ==> note.None? && open == old(open) && agent == old(agent) && params == old(params) && executing == old(executing)
      ensures old(agent).Some? ==> !executing
      ensures old(agent).Some? && succeeded ==>
        note == Some(Notice("Agent \"" + old(agent).value.displayName + "\" executed successfully", Success))
        && !open && agent.None? && params == map[]
      ensures old(agent).Some? && !succeeded ==>
        note == Some(Notice("Failed to execute agent", Error))
        && open == old(open) && agent == old(agent) && params == old(params)
    {
      if agent.None? {
        return None;
      }
      executing := true;
      if succeeded {
        note := Some(Notice("Agent \"" + agent.value.displayName + "\" executed successfully", Success));
        HandleCloseExecuteDialog();
      } else {
        note := Some(Notice("Failed to execute agent", Error));
      }
      executing := false;
    }
  }
}
