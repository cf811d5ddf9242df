// The strategy centre controller: the evaluation queue and its status
// lookups, the discovery pipeline (collect, de-duplicate, rank), the
// weighted evaluation score and the keyword reading of AI replies.

module StrategyCenter {
  import opened Common

  datatype Tool = Tool(name: string, status: string, category: string, vendor: string)

  // ---------------------------------------------------------------------
  // Status lookups

  predicate InEvaluation(status: string)
  {
    status == "DISCOVERY" || status == "EVALUATION" || status == "PILOT_ACTIVE"
  }

  /** The tools shown in the evaluation queue. */
  function EvaluationQueue(tools: seq<Tool>): (r: seq<Tool>)
    ensures forall i :: 0 <= i < |r| ==> r[i] in tools && InEvaluation(r[i].status)
    ensures forall i :: 0 <= i < |tools| && InEvaluation(tools[i].status) ==> tools[i] in r
  {
    Filter(tools, (t: Tool) => InEvaluation(t.status))
  }

  function EvaluationPhase(status: string): (r: string)
    ensures r == "Unknown phase" <==> !InEvaluation(status)
  {
    if status == "DISCOVERY" then "Initial screening"
    else if status == "EVALUATION" then "Technical deep dive"
    else if status == "PILOT_ACTIVE" then "Pilot testing"
    else "Unknown phase"
  }

  function EvaluationProgress(status: string): (r: nat)
    ensures r == 0 || r == 30 || r == 70 || r == 90
    ensures r == 0 <==> !InEvaluation(status)
  {
    if status == "DISCOVERY" then 30
    else if status == "EVALUATION" then 70
    else if status == "PILOT_ACTIVE" then 90
    else 0
  }

  /** Phase text and progress bar never disagree: a phase is named exactly
      when some progress is shown, and progress grows along the pipeline. */
  lemma PhaseAndProgressAgree(status: string)
    ensures (EvaluationPhase(status) == "Unknown phase") == (EvaluationProgress(status) == 0)
    ensures EvaluationProgress("DISCOVERY") < EvaluationProgress("EVALUATION") < EvaluationProgress("PILOT_ACTIVE")
  {
  }

  /** The first three tools still in discovery, in input order. */
  function RecentDiscoveries(tools: seq<Tool>): (r: seq<Tool>)
    ensures |r| <= 3
    ensures forall i :: 0 <= i < |r| ==> r[i] in tools && r[i].status == "DISCOVERY"
    ensures |r| < 3 ==> forall i :: 0 <= i < |tools| && tools[i].status == "DISCOVERY" ==> tools[i] in r
  {
    Take(Filter(tools, (t: Tool) => t.status == "DISCOVERY"), 3)
  }

  function DiscoveryPriority(tool: Tool): (r: string)
    ensures r == "High Priority" || r == "Medium Priority"
    ensures r == "High Priority" <==> tool.category == "AI_FIRST_IDE" || tool.vendor == "Amazon"
  {
    if tool.category == "AI_FIRST_IDE" then "High Priority"
    else if tool.vendor == "Amazon" then "High Priority"
    else "Medium Priority"
  }

  function PriorityColor(priority: string): (r: string)
    ensures priority != "High Priority" && priority != "Medium Priority"
            ==> r == "bg-gray-100 text-gray-800"
    ensures priority == "High Priority" ==> r == "bg-red-100 text-red-800"
    ensures priority == "Medium Priority" ==> r == "bg-yellow-100 text-yellow-800"
  {
    if priority == "High Priority" then "bg-red-100 text-red-800"
    else if priority == "Medium Priority" then "bg-yellow-100 text-yellow-800"
    else "bg-gray-100 text-gray-800"
  }

  /** A computed priority never falls back to the Low colour. */
  lemma DiscoveryNeverLow(tool: Tool)
    ensures PriorityColor(DiscoveryPriority(tool)) != PriorityColor("Low Priority")
  {
  }

  function AlertColor(severity: string): (r: string)
    ensures severity != "HIGH" && severity != "MEDIUM" ==> r == "border-blue-500"
    ensures severity == "HIGH" ==> r == "border-red-500"
    ensures severity == "MEDIUM" ==> r == "border-yellow-500"
  {
    if severity == "HIGH" then "border-red-500"
    else if severity == "MEDIUM" then "border-yellow-500"
    else "border-blue-500"
  }

  // ---------------------------------------------------------------------
  // Discovery pipeline

  datatype Discovery = Discovery(name: string, score: Option<real>, source: string)

  /** `d.score || 0`: an absent score ranks as 0. */
  function RankKey(d: Discovery): real
  {
    if d.score.Some? then d.score.value else 0.0
  }

  /** Index of the first discovery carrying `name` (`findIndex`). */
  function FirstWithName(ds: seq<Discovery>, name: string): (r: Option<nat>)
    ensures r.Some? ==> r.value < |ds| && ds[r.value].name == name
    ensures r.Some? ==> forall j :: 0 <= j < r.value ==> ds[j].name != name
    ensures r.None? ==> forall j :: 0 <= j < |ds| ==> ds[j].name != name
  {
    if ds == [] then None
    else if ds[0].name == name then Some(0)
    else match FirstWithName(ds[1..], name)
      case None => None
      case Some(k) => Some(k + 1)
  }

  predicate IsFirstOccurrence(ds: seq<Discovery>, i: nat)
    requires i < |ds|
  {
    FirstWithName(ds, ds[i].name) == Some(i)
  }

  /** Indices `i >= from` with `index === self.findIndex(...)`, ascending. */
  function KeptIndices(ds: seq<Discovery>, from: nat): (r: seq<nat>)
    requires from <= |ds|
    ensures forall k :: 0 <= k < |r| ==> from <= r[k] < |ds| && IsFirstOccurrence(ds, r[k])
    ensures forall a, b :: 0 <= a < b < |r| ==> r[a] < r[b]
    ensures forall i :: from <= i < |ds| && IsFirstOccurrence(ds, i) ==> i in r
    decreases |ds| - from
  {
    if from == |ds| then []
    else (if IsFirstOccurrence(ds, from) then [from] else []) + KeptIndices(ds, from + 1)
  }

  /** `discoveries.filter((d, i, self) => i === self.findIndex(e => e.name === d.name))` */
  function Deduplicate(ds: seq<Discovery>): (r: seq<Discovery>)
  {
    var idx := KeptIndices(ds, 0);
    seq(|idx|, k requires 0 <= k < |idx| => ds[idx[k]])
  }

  predicate DistinctNames(ds: seq<Discovery>)
  {
    forall a, b :: 0 <= a < b < |ds| ==> ds[a].name != ds[b].name
  }

  /** De-duplication keeps exactly the first discovery of every name. */
  lemma {:induction false} DeduplicateProperties(ds: seq<Discovery>)
    ensures DistinctNames(Deduplicate(ds))
    ensures forall k :: 0 <= k < |Deduplicate(ds)| ==>
              Deduplicate(ds)[k] in ds && FirstWithName(ds, Deduplicate(ds)[k].name).Some?
              && ds[FirstWithName(ds, Deduplicate(ds)[k].name).value] == Deduplicate(ds)[k]
    ensures forall j :: 0 <= j < |ds| ==> exists k :: 0 <= k < |Deduplicate(ds)| && Deduplicate(ds)[k].name == ds[j].name
  {
    var idx := KeptIndices(ds, 0);
    var r := Deduplicate(ds);
    forall a, b | 0 <= a < b < |r| ensures r[a].name != r[b].name {
      assert idx[a] < idx[b];
    }
    forall j | 0 <= j < |ds| ensures exists k :: 0 <= k < |r| && r[k].name == ds[j].name {
      var f := FirstWithName(ds, ds[j].name);
      assert f.Some?;
      assert IsFirstOccurrence(ds, f.value);
      var k :| 0 <= k < |idx| && idx[k] == f.value;
      assert r[k] == ds[f.value];
    }
  }

  /** `unique.sort((a, b) => (b.score || 0) - (a.score || 0)).slice(0, 10)` */
  function DeduplicateAndRank(ds: seq<Discovery>): (r: seq<Discovery>)
    ensures |r| <= 10
    ensures SortedDesc(r, RankKey)
  {
    Take(SortDesc(Deduplicate(ds), RankKey), 10)
  }

  /** Equal elements at two positions occur at least twice. */
  lemma MultisetTwice<T>(s: seq<T>, a: nat, b: nat)
    requires a < b < |s| && s[a] == s[b]
    ensures multiset(s)[s[a]] >= 2
  {
    assert s == s[..b] + [s[b]] + s[b + 1..];
    assert s[a] in s[..b];
  }

  /** A sequence whose elements have distinct names holds each element once. */
  lemma DistinctOnce(s: seq<Discovery>, x: Discovery)
    requires DistinctNames(s)
    ensures multiset(s)[x] <= 1
  {
    if s != [] {
      assert s == [s[0]] + s[1..];
      DistinctOnce(s[1..], x);
      if s[0] == x {
        assert x !in s[1..] by {
          forall j | 0 <= j < |s[1..]| ensures s[1..][j] != x {
            assert s[j + 1].name != s[0].name;
          }
        }
      }
    }
  }

  /** A rearrangement of elements with distinct names has distinct names. */
  lemma PermutationKeepsDistinct(u: seq<Discovery>, s: seq<Discovery>)
    requires multiset(s) == multiset(u) && DistinctNames(u)
    ensures DistinctNames(s)
  {
    forall a, b | 0 <= a < b < |s| ensures s[a].name != s[b].name {
      if s[a].name == s[b].name {
        assert s[a] in multiset(u) && s[b] in multiset(u);
        var i :| 0 <= i < |u| && u[i] == s[a];
        var j :| 0 <= j < |u| && u[j] == s[b];
        if i == j {
          MultisetTwice(s, a, b);
          DistinctOnce(u, s[a]);
        }
      }
    }
  }

  /** Ranked discoveries never share a name and all come from the
      de-duplicated list; equal scores keep their discovery order. */
  lemma {:induction false} RankedDistinct(ds: seq<Discovery>)
    ensures DistinctNames(DeduplicateAndRank(ds))
    ensures forall k :: 0 <= k < |DeduplicateAndRank(ds)| ==> DeduplicateAndRank(ds)[k] in Deduplicate(ds)
  {
    DeduplicateProperties(ds);
    TopTenOf(Deduplicate(ds));
  }

  /** The first ten of a ranking of discoveries with distinct names have
      distinct names and come from those discoveries. */
  lemma TopTenOf(u: seq<Discovery>)
    requires DistinctNames(u)
    ensures DistinctNames(Take(SortDesc(u, RankKey), 10))
    ensures forall k :: 0 <= k < |Take(SortDesc(u, RankKey), 10)| ==> Take(SortDesc(u, RankKey), 10)[k] in u
  {
    var s := SortDesc(u, RankKey);
    var r := Take(s, 10);
    PermutationKeepsDistinct(u, s);
    forall k | 0 <= k < |r| ensures r[k] in u {
      assert r[k] == s[k];
      assert s[k] in multiset(s);
    }
  }

  /** Discoveries with equal scores are ranked in discovery order. */
  lemma RankStable(ds: seq<Discovery>, score: real)
    ensures Filter(SortDesc(Deduplicate(ds), RankKey), (d: Discovery) => RankKey(d) == score)
         == Filter(Deduplicate(ds), (d: Discovery) => RankKey(d) == score)
  {
    var u := Deduplicate(ds);
    var s := SortDesc(u, RankKey);
    var p := (d: Discovery) => RankKey(d) == score;
    SortDescStable(u, RankKey, score, p);
  }

  /** What one discovery source did: it threw, or it returned its finds. */
  datatype SourceOutcome = Failed | Found(results: seq<Discovery>)

  /** Results of the sources that did not throw, in source order. */
  function Collected(outcomes: seq<SourceOutcome>): seq<Discovery>
  {
    if outcomes == [] then []
    else
      var last := outcomes[|outcomes| - 1];
      Collected(outcomes[..|outcomes| - 1]) + (if last.Found? then last.results else [])
  }

  /** A failing source adds nothing and does not stop the ones after it. */
  lemma {:induction false} CollectedConcat(a: seq<SourceOutcome>, b: seq<SourceOutcome>)
    ensures Collected(a + b) == Collected(a) + Collected(b)
    decreases |b|
  {
    if b == [] {
      assert a + b == a;
    } else {
      assert (a + b)[..|a + b| - 1] == a + b[..|b| - 1];
      CollectedConcat(a, b[..|b| - 1]);
    }
  }

  lemma FailedSourceIgnored(a: seq<SourceOutcome>, b: seq<SourceOutcome>)
    ensures Collected(a + [Failed] + b) == Collected(a) + Collected(b)
  {
    var front := a + [Failed];
    CollectedConcat(front, b);
    FailedAtEnd(a);
  }

  lemma FailedAtEnd(a: seq<SourceOutcome>)
    ensures Collected(a + [Failed]) == Collected(a)
  {
    assert (a + [Failed])[..|a|] == a;
  }

  /** `runDiscovery`: every source in turn, its results pushed when it does
      not throw, then de-duplication and ranking. */
  method RunDiscovery(outcomes: seq<SourceOutcome>) returns (ranked: seq<Discovery>, discoveries: seq<Discovery>)
    ensures discoveries == Collected(outcomes)
    ensures ranked == DeduplicateAndRank(discoveries)
  {
    discoveries := [];
    var i := 0;
    while i < |outcomes|
      invariant 0 <= i <= |outcomes|
      invariant discoveries == Collected(outcomes[..i])
    {
      assert outcomes[..i + 1][..i] == outcomes[..i];
      match outcomes[i] {
        case Failed =>
        case Found(results) =>
          discoveries := discoveries + results;
      }
      i := i + 1;
    }
    assert outcomes[..i] == outcomes;
    ranked := DeduplicateAndRank(discoveries);
  }

  // ---------------------------------------------------------------------
  // Weighted evaluation

  const Criteria: seq<string> :=
    ["technical_capabilities", "enterprise_readiness", "cost_effectiveness",
     "integration_ease", "security_compliance"]

  /** `weights[criterion]`; a key the table lacks yields `undefined`. */
  function Weight(criterion: string): Option<real>
  {
    if criterion == "technical_capabilities" then Some(0.3)
    else if criterion == "enterprise_readiness" then Some(0.25)
    else if criterion == "cost_effectiveness" then Some(0.2)
    else if criterion == "integration_ease" then Some(0.15)
    else if criterion == "security_compliance" then Some(0.1)
    else None
  }

  /** `Object.entries(scores).reduce((t, [c, s]) => t + s * weights[c], 0)`;
      `None` stands for the NaN an unknown criterion produces. */
  function OverallScore(entries: seq<(string, real)>): (r: Option<real>)
    ensures r.Some? <==> forall i :: 0 <= i < |entries| ==> Weight(entries[i].0).Some?
  {
    if entries == [] then Some(0.0)
    else
      var init := entries[..|entries| - 1];
      var last := entries[|entries| - 1];
      assert forall i :: 0 <= i < |init| ==> init[i] == entries[i];
      match (OverallScore(init), Weight(last.0))
      case (Some(t), Some(w)) => Some(t + last.1 * w)
      case _ => None
  }

  lemma WeightsSumToOne()
    ensures Weight(Criteria[0]).value + Weight(Criteria[1]).value + Weight(Criteria[2]).value
            + Weight(Criteria[3]).value + Weight(Criteria[4]).value == 1.0
  {
  }

  /** The score object `evaluateTool` builds: each criterion with its draw. */
  function ScoreEntries(draws: seq<real>): (r: seq<(string, real)>)
    requires |draws| == |Criteria|
    ensures |r| == |Criteria|
    ensures forall i :: 0 <= i < |r| ==> r[i] == (Criteria[i], draws[i])
  {
    seq(|Criteria|, i requires 0 <= i < |Criteria| => (Criteria[i], draws[i]))
  }

  /** The evaluation score is the weighted sum with weights adding to 1: equal
      criterion scores give that score, and scores in [0, 10] stay in it. */
  lemma {:induction false} OverallScoreOfEvaluation(draws: seq<real>)
    requires |draws| == |Criteria|
    ensures OverallScore(ScoreEntries(draws))
         == Some(0.3 * draws[0] + 0.25 * draws[1] + 0.2 * draws[2] + 0.15 * draws[3] + 0.1 * draws[4])
    ensures (forall i :: 0 <= i < |draws| ==> draws[i] == draws[0])
            ==> OverallScore(ScoreEntries(draws)) == Some(draws[0])
    ensures (forall i :: 0 <= i < |draws| ==> 0.0 <= draws[i] <= 10.0)
            ==> 0.0 <= OverallScore(ScoreEntries(draws)).value <= 10.0
  {
    var e := ScoreEntries(draws);
    assert e[..1] == [e[0]];
    assert e[..0] == [];
    assert e[..1][..0] == [];
    assert e[..2][..1] == e[..1];
    assert e[..3][..2] == e[..2];
    assert e[..4][..3] == e[..3];
    assert e[..5][..4] == e[..4];
    assert e[..5] == e;
    assert OverallScore(e[..1]) == Some(0.0 + draws[0] * 0.3);
    assert OverallScore(e[..2]) == Some(0.0 + draws[0] * 0.3 + draws[1] * 0.25);
    assert OverallScore(e[..3]) == Some(0.0 + draws[0] * 0.3 + draws[1] * 0.25 + draws[2] * 0.2);
    assert OverallScore(e[..4]) == Some(0.0 + draws[0] * 0.3 + draws[1] * 0.25 + draws[2] * 0.2 + draws[3] * 0.15);
  }

  /** `evaluateTool`: a score per criterion in table order (the random draws
      are the parameter), then the overall score. */
  method EvaluateTool(draws: seq<real>) returns (score: Option<real>)
    requires |draws| == |Criteria|
    ensures score == OverallScore(ScoreEntries(draws))
    ensures score.Some?
  {
    var scores: seq<(string, real)> := [];
    var i := 0;
    while i < |Criteria|
      invariant 0 <= i <= |Criteria|
      invariant scores == ScoreEntries(draws)[..i]
    {
      scores := scores + [(Criteria[i], draws[i])];
      i := i + 1;
    }
    assert scores == ScoreEntries(draws);
    OverallScoreOfEvaluation(draws);
    score := OverallScore(scores);
  }

  // ---------------------------------------------------------------------
  // Strategic insights

  datatype Insight = Insight(icon: string, title: string, description: string)

  const OpportunityDefault := "Context engineering adoption could increase productivity by an additional 25% based on early pilot data."
  const RiskDefault := "Microsoft's rapid VS Code AI integration may impact standalone tool adoption. Monitor competitive moves closely."
  const TrendDefault := "Agent-based development tools showing 340% growth. AWS Strands Agents represents strategic positioning opportunity."

  predicate HasKeyword(line: string, keyword: string)
  {
    Contains(Lower(line), keyword)
  }

  /** `lines.find(line => line.toLowerCase().includes(keyword)) || dflt` */
  function KeywordLine(lines: seq<string>, keyword: string, dflt: string): string
  {
    match FindFirst(lines, (l: string) => HasKeyword(l, keyword))
    case Some(j) => if lines[j] != "" then lines[j] else dflt
    case None => dflt
  }

  /** `desc` is the first of `lines` mentioning `keyword`, or `dflt` when
      none does. */
  predicate ReadsKeyword(lines: seq<string>, keyword: string, dflt: string, desc: string)
  {
    ((forall i :: 0 <= i < |lines| ==> !HasKeyword(lines[i], keyword)) ==> desc == dflt)
    && (forall j :: (0 <= j < |lines| && HasKeyword(lines[j], keyword)
                     && forall i :: 0 <= i < j ==> !HasKeyword(lines[i], keyword)) ==> desc == lines[j])
  }

  lemma KeywordLineReads(lines: seq<string>, keyword: string, dflt: string)
    requires forall i :: 0 <= i < |lines| ==> lines[i] != ""
    ensures ReadsKeyword(lines, keyword, dflt, KeywordLine(lines, keyword, dflt))
  {
    var f := FindFirst(lines, (l: string) => HasKeyword(l, keyword));
    forall j | 0 <= j < |lines| && HasKeyword(lines[j], keyword)
              && (forall i :: 0 <= i < j ==> !HasKeyword(lines[i], keyword))
      ensures KeywordLine(lines, keyword, dflt) == lines[j]
    {
      assert f.Some?;
    }
  }

  /** The three insight cards, opportunity, risk and trend, with their
      icons and titles, around the given descriptions. */
  function Cards(opportunity: string, risk: string, trend: string): seq<Insight>
  {
    [ Insight("🎯", "Key Opportunity Identified", opportunity),
      Insight("⚠️", "Risk Alert", risk),
      Insight("📈", "Market Trend", trend) ]
  }

  /** Any two sets of cards share their icons and titles. */
  lemma CardsAlike(a: string, b: string, c: string, d: string, e: string, f: string)
    ensures forall i :: 0 <= i < 3 ==>
      Cards(a, b, c)[i].icon == Cards(d, e, f)[i].icon && Cards(a, b, c)[i].title == Cards(d, e, f)[i].title
  {
  }

  /** The three insights read from the reply's lines. */
  function InsightsFrom(lines: seq<string>): (r: seq<Insight>)
    ensures |r| == 3
    ensures r[0].title == "Key Opportunity Identified" && r[1].title == "Risk Alert" && r[2].title == "Market Trend"
    ensures r[0].description == KeywordLine(lines, "opportunity", OpportunityDefault)
    ensures r[1].description == KeywordLine(lines, "risk", RiskDefault)
    ensures r[2].description == KeywordLine(lines, "trend", TrendDefault)
  {
    Cards(KeywordLine(lines, "opportunity", OpportunityDefault),
          KeywordLine(lines, "risk", RiskDefault),
          KeywordLine(lines, "trend", TrendDefault))
  }

  /** `parseAIInsights`: always three insights, each described by the first
      non-blank reply line with its keyword (case-insensitive), or else by
      a fixed sentence. */
  function ParseAIInsights(response: string): seq<Insight>
  {
    InsightsFrom(NonBlankLines(response))
  }

  /** Each insight is described by the first of the lines carrying its
      keyword in any letter case, or else by its fixed sentence. */
  lemma InsightsFromReads(lines: seq<string>)
    requires forall i :: 0 <= i < |lines| ==> lines[i] != ""
    ensures ReadsKeyword(lines, "opportunity", OpportunityDefault, InsightsFrom(lines)[0].description)
    ensures ReadsKeyword(lines, "risk", RiskDefault, InsightsFrom(lines)[1].description)
    ensures ReadsKeyword(lines, "trend", TrendDefault, InsightsFrom(lines)[2].description)
  {
    KeywordLineReads(lines, "opportunity", OpportunityDefault);
    KeywordLineReads(lines, "risk", RiskDefault);
    KeywordLineReads(lines, "trend", TrendDefault);
  }

  /** The reply always gives three insights, each described by the first
      non-blank reply line carrying its keyword in any letter case, or else
      by its fixed sentence. */
  lemma ParseAIInsightsReads(response: string)
    ensures |ParseAIInsights(response)| == 3
    ensures ReadsKeyword(NonBlankLines(response), "opportunity", OpportunityDefault, ParseAIInsights(response)[0].description)
    ensures ReadsKeyword(NonBlankLines(response), "risk", RiskDefault, ParseAIInsights(response)[1].description)
    ensures ReadsKeyword(NonBlankLines(response), "trend", TrendDefault, ParseAIInsights(response)[2].description)
  {
    InsightsFromReads(NonBlankLines(response));
  }

  function FallbackInsights(): (r: seq<Insight>)
    ensures |r| == 3
    ensures r[0].title == "Key Opportunity Identified" && r[1].title == "Risk Alert" && r[2].title == "Market Trend"
    ensures r[0].description == OpportunityDefault + " Recommend accelerated training program."
    ensures r[1].description == RiskDefault && r[2].description == TrendDefault
  {
    Cards(OpportunityDefault + " Recommend accelerated training program.", RiskDefault, TrendDefault)
  }

  /** The fallback shows the same three cards as a parsed reply, with the
      same icons and titles, so callers render both alike. */
  lemma FallbackLikeParsed(response: string)
    ensures forall i :: 0 <= i < 3 ==>
      FallbackInsights()[i].icon == ParseAIInsights(response)[i].icon
      && FallbackInsights()[i].title == ParseAIInsights(response)[i].title
  {
    var lines := NonBlankLines(response);
    CardsAlike(OpportunityDefault + " Recommend accelerated training program.", RiskDefault, TrendDefault,
               KeywordLine(lines, "opportunity", OpportunityDefault),
               KeywordLine(lines, "risk", RiskDefault),
               KeywordLine(lines, "trend", TrendDefault));
  }

  /** `generateStrategicInsights`; `None` is the null it can return. */
  function GenerateStrategicInsights(apiKey: Option<string>, ai: AiOutcome): (r: Option<seq<Insight>>)
    ensures r.None? <==> Truthy(apiKey) && ai.Replied? && !Truthy(ai.text)
    ensures !Truthy(apiKey) || ai.Raised? ==> r == Some(FallbackInsights())
    ensures Truthy(apiKey) && ai.Replied? && Truthy(ai.text) ==> r == Some(ParseAIInsights(ai.text.value))
  {
    if Truthy(apiKey) then
      match ai
      case Raised => Some(FallbackInsights())
      case Replied(text) => if Truthy(text) then Some(ParseAIInsights(text.value)) else None
    else Some(FallbackInsights())
  }
}
