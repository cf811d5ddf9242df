// The competitive-intelligence agent
// (enterprise-ai-strategy/agents/market_intelligence/competitive_intelligence_agent.py):
// how it picks the competitors of a tool, the fixed market-trend record,
// and what `process_task` returns. The analysis text itself comes from the
// language model and is a parameter.

module CompetitiveIntelligence {
  import opened Common
  import opened BaseAgent

  const AgentName := "competitive_intelligence_agent"

  const CodeGeneration := ["GitHub Copilot", "Amazon CodeWhisperer", "Tabnine", "Codeium"]
  const CodeChat := ["Claude Code", "Cursor", "Continue.dev", "Sourcegraph Cody"]
  const IdeIntegration := ["Windsurf IDE", "VS Code Extensions", "JetBrains AI", "Vim AI"]
  const TestingTools := ["Test.ai", "Applitools", "Mabl", "Testim"]
  const DevopsAutomation := ["GitLab AI", "Jenkins AI", "CircleCI AI", "Azure DevOps AI"]
  const Documentation := ["Mintlify", "GitBook AI", "Notion AI", "Confluence AI"]

  /** `tool_categories`, in the dictionary's order. */
  const ToolCategories: seq<(string, seq<string>)> := [
    ("code_generation", CodeGeneration),
    ("code_chat", CodeChat),
    ("ide_integration", IdeIntegration),
    ("testing_tools", TestingTools),
    ("devops_automation", DevopsAutomation),
    ("documentation", Documentation)
  ]

  /** The default AI coding tools used when no competitor is left. */
  const DefaultCompetitors := ["GitHub Copilot", "Amazon CodeWhisperer", "Tabnine"]

  /** `dict.get(key, [])` over a table of (key, list) pairs. */
  function Lookup(table: seq<(string, seq<string>)>, key: string): (r: seq<string>)
    ensures (forall i :: 0 <= i < |table| ==> table[i].0 != key) ==> r == []
    ensures forall i :: 0 <= i < |table| && table[i].0 == key && (forall j :: 0 <= j < i ==> table[j].0 != key) ==>
      r == table[i].1
  {
    if table == [] then []
    else if table[0].0 == key then table[0].1
    else Lookup(table[1..], key)
  }

  predicate MentionsCode(lower: string)
  {
    Contains(lower, "code") || Contains(lower, "copilot") || Contains(lower, "assistant")
  }

  predicate MentionsTesting(lower: string)
  {
    Contains(lower, "test") || Contains(lower, "qa")
  }

  predicate MentionsDevops(lower: string)
  {
    Contains(lower, "devops") || Contains(lower, "ci") || Contains(lower, "cd") || Contains(lower, "deploy")
  }

  /** What one pass of the category loop adds for a tool whose lower-cased
      name is `lower`: the keyword test does not depend on the category, so
      the testing and devops lists are added on every pass. */
  function Added(lower: string, category: (string, seq<string>)): seq<string>
  {
    if MentionsCode(lower) then
      (if category.0 == "code_generation" || category.0 == "code_chat" then category.1 else [])
    else if MentionsTesting(lower) then TestingTools
    else if MentionsDevops(lower) then DevopsAutomation
    else []
  }

  /** Everything the category loop gathers over `cats`. */
  function Gathered(lower: string, cats: seq<(string, seq<string>)>): seq<string>
  {
    if cats == [] then [] else Added(lower, cats[0]) + Gathered(lower, cats[1..])
  }

  /** The candidates before filtering: gathered by keyword when no category
      is given (None or ""), otherwise that category's list. */
  function Candidates(toolName: string, toolCategory: Option<string>): seq<string>
  {
    if !Truthy(toolCategory) then Gathered(Lower(toolName), ToolCategories)
    else Lookup(ToolCategories, toolCategory.value)
  }

  function NotSelf(toolName: string): string -> bool
  {
    (comp: string) => Lower(comp) != Lower(toolName)
  }

  /** The competitors `identify_competitors` returns: the candidates without
      the tool itself, the defaults when none is left, at most five. */
  function Competitors(toolName: string, toolCategory: Option<string>): (r: seq<string>)
    ensures 1 <= |r| <= 5
    ensures var kept := Filter(Candidates(toolName, toolCategory), NotSelf(toolName));
      r == Take(if kept == [] then DefaultCompetitors else kept, 5)
  {
    var kept := Filter(Candidates(toolName, toolCategory), NotSelf(toolName));
    Take(if kept == [] then DefaultCompetitors else kept, 5)
  }

  /** The category loop of `identify_competitors` over `cats`, extending
      the list on every pass. */
  method GatherByKeyword(lower: string, cats: seq<(string, seq<string>)>) returns (competitors: seq<string>)
    ensures competitors == Gathered(lower, cats)
  {
    competitors := [];
    var i := 0;
    while i < |cats|
      invariant 0 <= i <= |cats|
      invariant competitors + Gathered(lower, cats[i..]) == Gathered(lower, cats)
    {
      var category := cats[i];
      ghost var before := competitors;
      GatheredStep(lower, cats, i);
      if MentionsCode(lower) {
        if category.0 == "code_generation" || category.0 == "code_chat" {
          competitors := competitors + category.1;
        }
      } else if MentionsTesting(lower) {
        competitors := competitors + TestingTools;
      } else if MentionsDevops(lower) {
        competitors := competitors + DevopsAutomation;
      }
      assert competitors == before + Added(lower, category);
      AppendAssoc(before, Added(lower, category), Gathered(lower, cats[i + 1..]));
      i := i + 1;
    }
    assert cats[i..] == [];
  }

  lemma AppendAssoc<T>(a: seq<T>, b: seq<T>, c: seq<T>)
    ensures (a + b) + c == a + (b + c)
  {
  }

  lemma GatheredStep(lower: string, cats: seq<(string, seq<string>)>, i: nat)
    requires i < |cats|
    ensures Gathered(lower, cats[i..]) == Added(lower, cats[i]) + Gathered(lower, cats[i + 1..])
  {
    assert cats[i..][1..] == cats[i + 1..];
  }

  /** `identify_competitors`: the candidates are gathered or looked up,
      the tool itself is filtered out, the defaults fill an empty list, and
      the list is cut to five names. */
  method IdentifyCompetitors(toolName: string, toolCategory: Option<string>) returns (r: seq<string>)
    ensures r == Competitors(toolName, toolCategory)
    ensures 1 <= |r| <= 5
  {
    var competitors: seq<string>;
    if !Truthy(toolCategory) {
      competitors := GatherByKeyword(Lower(toolName), ToolCategories);
    } else {
      competitors := Lookup(ToolCategories, toolCategory.value);
    }
    competitors := Filter(competitors, NotSelf(toolName));
    if competitors == [] {
      competitors := DefaultCompetitors;
    }
    r := Take(competitors, 5);
  }

  /** When a candidate survives the filter, no returned name is the tool's
      own (ignoring letter case); only the default list can name it. */
  lemma ExcludesSelf(toolName: string, toolCategory: Option<string>)
    ensures Filter(Candidates(toolName, toolCategory), NotSelf(toolName)) != [] ==>
      forall i :: 0 <= i < |Competitors(toolName, toolCategory)| ==>
        Lower(Competitors(toolName, toolCategory)[i]) != Lower(toolName)
    ensures Filter(Candidates(toolName, toolCategory), NotSelf(toolName)) == [] ==>
      Competitors(toolName, toolCategory) == DefaultCompetitors
  {
    var kept := Filter(Candidates(toolName, toolCategory), NotSelf(toolName));
    if kept != [] {
      forall i | 0 <= i < |Competitors(toolName, toolCategory)|
        ensures Lower(Competitors(toolName, toolCategory)[i]) != Lower(toolName)
      {
        assert Competitors(toolName, toolCategory)[i] == kept[i];
        assert NotSelf(toolName)(kept[i]);
      }
    }
  }

  /** The default list is not filtered: Tabnine with a category the table
      does not know is offered Tabnine as its own competitor. */
  lemma FallbackNamesTool()
    ensures "Tabnine" in Competitors("Tabnine", Some("pair_programming"))
  {
    var t := ToolCategories;
    assert forall i :: 0 <= i < |t| ==> t[i].0 != "pair_programming";
    assert Candidates("Tabnine", Some("pair_programming")) == [];
    assert Competitors("Tabnine", Some("pair_programming")) == DefaultCompetitors;
    assert DefaultCompetitors[2] == "Tabnine";
  }

  /** With an explicit category the candidates are that category's list,
      and a category the table does not have gives the defaults. */
  lemma ExplicitCategory(toolName: string, category: string, k: nat)
    requires category != ""
    ensures k < |ToolCategories| && ToolCategories[k].0 == category ==>
      Candidates(toolName, Some(category)) == ToolCategories[k].1
    ensures (forall i :: 0 <= i < |ToolCategories| ==> ToolCategories[i].0 != category) ==>
      Competitors(toolName, Some(category)) == DefaultCompetitors
  {
    var t := ToolCategories;
    assert forall i, j :: 0 <= j < i < |t| ==> t[i].0 != t[j].0;
    if forall i :: 0 <= i < |t| ==> t[i].0 != category {
      assert Candidates(toolName, Some(category)) == [];
    }
  }

  /** `s` repeated `n` times. */
  function Repeat(s: seq<string>, n: nat): (r: seq<string>)
    ensures |r| == n * |s|
  {
    if n == 0 then [] else s + Repeat(s, n - 1)
  }

  /** Without a code keyword, every pass adds the same list. */
  lemma {:induction false} GatheredRepeats(lower: string, cats: seq<(string, seq<string>)>)
    requires !MentionsCode(lower)
    ensures MentionsTesting(lower) ==> Gathered(lower, cats) == Repeat(TestingTools, |cats|)
    ensures !MentionsTesting(lower) && MentionsDevops(lower) ==> Gathered(lower, cats) == Repeat(DevopsAutomation, |cats|)
    ensures !MentionsTesting(lower) && !MentionsDevops(lower) ==> Gathered(lower, cats) == []
  {
    if cats != [] {
      GatheredRepeats(lower, cats[1..]);
    }
  }

  /** With a code keyword only the two code lists are gathered. */
  lemma CodeGathered(lower: string)
    requires MentionsCode(lower)
    ensures Gathered(lower, ToolCategories) == CodeGeneration + CodeChat
  {
    var t := ToolCategories;
    assert Gathered(lower, t[6..]) == [];
    assert Gathered(lower, t[5..]) == [] by { assert t[5..][1..] == t[6..]; }
    assert Gathered(lower, t[4..]) == [] by { assert t[4..][1..] == t[5..]; }
    assert Gathered(lower, t[3..]) == [] by { assert t[3..][1..] == t[4..]; }
    assert Gathered(lower, t[2..]) == [] by { assert t[2..][1..] == t[3..]; }
    assert Gathered(lower, t[1..]) == CodeChat by { assert t[1..][1..] == t[2..]; }
    assert Gathered(lower, t) == CodeGeneration + CodeChat by { assert t[1..] == t[1..]; }
  }

  /** Without a category the first keyword group that the name mentions
      decides: code tools gather the code-generation then the code-chat
      list; testing tools gather the testing list six times over; devops
      tools the devops list six times over; other tools nothing. */
  lemma KeywordCandidates(toolName: string)
    ensures var lower := Lower(toolName);
      MentionsCode(lower) ==> Candidates(toolName, None) == CodeGeneration + CodeChat
    ensures var lower := Lower(toolName);
      !MentionsCode(lower) && MentionsTesting(lower) ==> Candidates(toolName, None) == Repeat(TestingTools, 6)
    ensures var lower := Lower(toolName);
      (!MentionsCode(lower) && !MentionsTesting(lower) && MentionsDevops(lower) ==>
         Candidates(toolName, None) == Repeat(DevopsAutomation, 6))
    ensures var lower := Lower(toolName);
      (!MentionsCode(lower) && !MentionsTesting(lower) && !MentionsDevops(lower) ==>
         Competitors(toolName, None) == DefaultCompetitors)
  {
    var lower := Lower(toolName);
    if MentionsCode(lower) {
      CodeGathered(lower);
    } else {
      GatheredRepeats(lower, ToolCategories);
    }
  }

  /** A repeated list whose items all pass the filter passes whole. */
  lemma {:induction false} RepeatKept(s: seq<string>, n: nat, p: string -> bool)
    requires forall i :: 0 <= i < |s| ==> p(s[i])
    ensures Filter(Repeat(s, n), p) == Repeat(s, n)
  {
    if n > 0 {
      RepeatKept(s, n - 1, p);
      FilterConcat(s, Repeat(s, n - 1), p);
      FilterAll(s, p);
    }
  }

  /** Two or more copies of a list start with the list and its first item. */
  lemma RepeatStart(s: seq<string>, n: nat)
    requires s != [] && n >= 2
    ensures Take(Repeat(s, n), |s| + 1) == s + [s[0]]
  {
    assert Repeat(s, n) == s + (s + Repeat(s, n - 2));
  }

  /** Because the testing list is added on every pass, a testing tool that
      is none of the four is offered Test.ai twice. */
  lemma TestingListsTestAiTwice(toolName: string)
    requires !MentionsCode(Lower(toolName)) && MentionsTesting(Lower(toolName))
    requires forall i :: 0 <= i < |TestingTools| ==> Lower(TestingTools[i]) != Lower(toolName)
    ensures Competitors(toolName, None) == TestingTools + ["Test.ai"]
  {
    KeywordCandidates(toolName);
    var t := TestingTools;
    RepeatKept(t, 6, NotSelf(toolName));
    RepeatStart(t, 6);
  }

  // ---------------------------------------------------------------------
  // Market trends

  datatype MarketTrends = MarketTrends(marketGrowth: string, keyTrends: seq<string>, emergingPlayers: seq<string>,
                                       marketConsolidation: string, pricingTrends: string)

  const MarketGrowth := "AI development tools market growing 45% YoY"
  const KeyTrends: seq<string> :=
    ["Shift towards multi-modal AI (code + chat + documentation)",
     "Enterprise focus on compliance and security",
     "Integration with existing developer workflows",
     "Emphasis on productivity metrics and ROI measurement"]
  const EmergingPlayers: seq<string> := ["New startups focusing on specialized use cases"]
  const MarketConsolidation := "Large tech companies acquiring AI tool startups"
  const PricingTrends := "Shift from per-user to usage-based pricing models"

  /** `analyze_market_trends`: the same record whatever the category, with
      the 45% growth line, four key trends, one emerging player and the
      consolidation and pricing remarks. */
  function AnalyzeMarketTrends(toolCategory: string): (r: MarketTrends)
    ensures |r.keyTrends| == 4 && |r.emergingPlayers| == 1
    ensures r.marketGrowth == MarketGrowth && r.keyTrends == KeyTrends && r.emergingPlayers == EmergingPlayers
    ensures r.marketConsolidation == MarketConsolidation && r.pricingTrends == PricingTrends
  {
    MarketTrends(MarketGrowth, KeyTrends, EmergingPlayers, MarketConsolidation, PricingTrends)
  }

  lemma MarketTrendsIgnoreCategory(a: string, b: string)
    ensures AnalyzeMarketTrends(a) == AnalyzeMarketTrends(b)
  {
  }

  // ---------------------------------------------------------------------
  // Processing a task

  /** The entries of the context the agent reads; a missing context
      reads as `CompetitiveContext("", None, None)`. */
  datatype CompetitiveContext = CompetitiveContext(toolName: string, toolCategory: Option<string>,
                                                   competitors: Option<seq<string>>)

  const MissingToolName := "Tool name is required for competitive analysis"

  /** The competitors the analysis is about: the caller's list when it is
      non-empty, otherwise the identified ones. */
  function ChosenCompetitors(ctx: CompetitiveContext): seq<string>
  {
    if ctx.competitors.Some? && ctx.competitors.value != [] then ctx.competitors.value
    else Competitors(ctx.toolName, ctx.toolCategory)
  }

  function ErrorReply(task: string, message: string, now: int): AgentResponse
  {
    CreateResponse(AgentName, task, "Error during competitive analysis: " + message, None, Some("error"), Some(0.0), now)
  }

  /** `process_task`; `generation` is what the analysis call did, and its
      text stands for the page built around it. */
  function ProcessTask(task: string, ctx: CompetitiveContext, generation: Generation, now: int): (r: AgentResponse)
    ensures r.agentName == AgentName && r.task == task && r.timestamp == now
    ensures r.status == "error" <==> ctx.toolName == "" || generation.GenerationRaised?
    ensures r.status == "error" ==> r.confidence == 0.0 && r.metadata == map[]
    ensures ctx.toolName == "" ==> r.content == "Error during competitive analysis: " + MissingToolName
    ensures r.status != "error" ==>
      r.status == "success" && r.confidence == 0.85 && r.content == generation.text
      && r.metadata.Keys == {"tool_name", "competitors", "analysis_date", "tool_category", "market_trends_included"}
      && r.metadata["tool_name"] == MText(ctx.toolName)
      && r.metadata["competitors"] == MItems(ChosenCompetitors(ctx))
      && r.metadata["tool_category"] == (if ctx.toolCategory.Some? then MText(ctx.toolCategory.value) else MNone)
      && r.metadata["market_trends_included"] == MFlag(true)
  {
    if ctx.toolName == "" then ErrorReply(task, MissingToolName, now)
    else match generation
      case GenerationRaised(e) => ErrorReply(task, e, now)
      case Generated(text) =>
        var meta := map["tool_name" := MText(ctx.toolName),
                        "competitors" := MItems(ChosenCompetitors(ctx)),
                        "analysis_date" := MInt(now),
                        "tool_category" := if ctx.toolCategory.Some? then MText(ctx.toolCategory.value) else MNone,
                        "market_trends_included" := MFlag(true)];
        CreateResponse(AgentName, task, text, Some(meta), None, Some(0.85), now)
  }
}
