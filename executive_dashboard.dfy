// The executive dashboard: the headline productivity figure, the reading
// of an AI summary, the tool selections behind two charts, the choice
// between AI and template summaries and the exported report
// (archive/js/executive-dashboard.js).

module ExecutiveDashboard {
  import opened Common

  // ---------------------------------------------------------------------
  // Average productivity gain

  /** `Math.round` of the mean of the three velocity improvements. */
  function AverageProductivityGain(storiesIncrease: real, bugFixReduction: real, reviewReduction: real): (r: int)
    ensures var mean := (storiesIncrease + bugFixReduction + reviewReduction) / 3.0;
      r as real - 0.5 <= mean < r as real + 0.5
  {
    JsRound((storiesIncrease + bugFixReduction + reviewReduction) / 3.0)
  }

  /** With whole-number inputs the rounded mean stays between the smallest
      and the largest of them. */
  lemma AverageProductivityGainBounds(a: int, b: int, c: int, lo: int, hi: int)
    requires lo <= a <= hi && lo <= b <= hi && lo <= c <= hi
    ensures lo <= AverageProductivityGain(a as real, b as real, c as real) <= hi
  {
    var r := AverageProductivityGain(a as real, b as real, c as real);
    var mean := (a as real + b as real + c as real) / 3.0;
    assert lo as real <= mean <= hi as real;
  }

  lemma AverageProductivityGainExample()
    ensures AverageProductivityGain(40.0, 30.0, 20.0) == 30
    ensures AverageProductivityGain(35.0, 30.0, 20.0) == 28
  {
  }

  // ---------------------------------------------------------------------
  // Reading the AI summary

  const KeyWinDefault := "Cursor pilot completed with 8.5/10 success rate, demonstrating 35% productivity improvement for complex tasks"
  const NewOpportunityDefault := "AWS Strands Agents SDK offers enterprise-grade AI development platform with production-ready capabilities"
  const ResourceNeedDefault := "$150K budget request for Cursor enterprise licenses and advanced training program expansion"

  const WinWords: seq<string> := ["Win", "achievement"]
  const OpportunityWords: seq<string> := ["Opportunity", "trend"]
  const ResourceWords: seq<string> := ["Resource", "budget", "investment"]

  /** The line contains one of the words, letter case included. */
  predicate MentionsAny(line: string, words: seq<string>)
  {
    exists k :: 0 <= k < |words| && Contains(line, words[k])
  }

  function Mentions(words: seq<string>): string -> bool
  {
    (l: string) => MentionsAny(l, words)
  }

  /** `lines.find(line => …) || dflt`. */
  function FirstMentioning(lines: seq<string>, words: seq<string>, dflt: string): (r: string)
    ensures dflt != "" ==> r != ""
  {
    match FindFirst(lines, Mentions(words))
    case Some(j) => if lines[j] != "" then lines[j] else dflt
    case None => dflt
  }

  /** `text` is the first line that mentions one of the words, or `dflt`
      when none does. */
  predicate ReadsFirst(lines: seq<string>, words: seq<string>, dflt: string, text: string)
  {
    ((forall i :: 0 <= i < |lines| ==> !MentionsAny(lines[i], words)) ==> text == dflt)
    && (forall j :: (0 <= j < |lines| && MentionsAny(lines[j], words)
                     && forall i :: 0 <= i < j ==> !MentionsAny(lines[i], words)) ==> text == lines[j])
  }

  lemma FirstMentioningReads(lines: seq<string>, words: seq<string>, dflt: string)
    requires forall i :: 0 <= i < |lines| ==> lines[i] != ""
    ensures ReadsFirst(lines, words, dflt, FirstMentioning(lines, words, dflt))
  {
    forall j | 0 <= j < |lines| && MentionsAny(lines[j], words)
              && (forall i :: 0 <= i < j ==> !MentionsAny(lines[i], words))
      ensures FirstMentioning(lines, words, dflt) == lines[j]
    {
      assert FindFirst(lines, Mentions(words)).Some?;
    }
  }

  datatype Summary = Summary(keyWin: string, newOpportunity: string, resourceNeed: string)

  function ParseAIResponse(response: string): (r: Summary)
    ensures r.keyWin != "" && r.newOpportunity != "" && r.resourceNeed != ""
  {
    var lines := NonBlankLines(response);
    Summary(FirstMentioning(lines, WinWords, KeyWinDefault),
            FirstMentioning(lines, OpportunityWords, NewOpportunityDefault),
            FirstMentioning(lines, ResourceWords, ResourceNeedDefault))
  }

  /** All three fields are always filled: each by the first non-blank reply
      line holding one of its words, or else by its fixed sentence. */
  lemma ParseAIResponseReads(response: string)
    ensures var lines, r := NonBlankLines(response), ParseAIResponse(response);
      && ReadsFirst(lines, WinWords, KeyWinDefault, r.keyWin)
      && ReadsFirst(lines, OpportunityWords, NewOpportunityDefault, r.newOpportunity)
      && ReadsFirst(lines, ResourceWords, ResourceNeedDefault, r.resourceNeed)
  {
    var lines := NonBlankLines(response);
    FirstMentioningReads(lines, WinWords, KeyWinDefault);
    FirstMentioningReads(lines, OpportunityWords, NewOpportunityDefault);
    FirstMentioningReads(lines, ResourceWords, ResourceNeedDefault);
  }

  /** The words are matched with their letter case: a line that says "win"
      only in lower case does not count as a key win. */
  lemma KeywordsAreCaseSensitive()
    ensures !MentionsAny("big win", WinWords)
  {
    assert !Contains("big win", "Win") by {
      assert "big win"[1..] == "ig win" && "ig win"[1..] == "g win" && "g win"[1..] == " win";
      assert " win"[1..] == "win" && "win"[1..] == "in";
      FirstLetterDiffers("big win", "Win");
      FirstLetterDiffers("ig win", "Win");
      FirstLetterDiffers("g win", "Win");
      FirstLetterDiffers(" win", "Win");
      FirstLetterDiffers("win", "Win");
      BoundedContains("in", "Win");
    }
    BoundedContains("big win", "achievement");
  }

  lemma FirstLetterDiffers(s: string, p: string)
    requires s != [] && p != [] && s[0] != p[0]
    ensures !StartsWith(s, p)
  {
    if |p| <= |s| {
      assert s[..|p|][0] == s[0];
    }
  }

  /** Text shorter than the pattern cannot contain it. */
  lemma {:induction false} BoundedContains(s: string, sub: string)
    requires |s| < |sub|
    ensures !Contains(s, sub)
  {
    if s != [] {
      BoundedContains(s[1..], sub);
    }
  }

  // ---------------------------------------------------------------------
  // The executive summary

  /** `generateExecutiveSummary`: the AI reading is used only when a key is
      stored and the AI request produced a reply; a missing key, a failed
      request and an empty reply all leave the template insights. */
  function ExecutiveSummary(apiKey: Option<string>, ai: AiOutcome, fallback: Summary): (r: Summary)
    ensures Truthy(apiKey) && ai.Replied? && Truthy(ai.text) ==> r == ParseAIResponse(ai.text.value)
    ensures !Truthy(apiKey) || ai.Raised? || (ai.Replied? && !Truthy(ai.text)) ==> r == fallback
  {
    if Truthy(apiKey) && ai.Replied? && Truthy(ai.text) then ParseAIResponse(ai.text.value)
    else fallback
  }

  // ---------------------------------------------------------------------
  // Charts

  datatype Roi = Roi(productivityGainPercent: real, monthlyCost: real, monthlySavings: real)

  datatype DashTool = DashTool(name: string, status: string, roi: Option<Roi>, scoreText: string)

  predicate InUse(t: DashTool)
  {
    t.status == "DEPLOYED" || t.status == "PILOT_COMPLETE"
  }

  /** The productivity gain shown for a tool; 0 without an ROI calculation. */
  function Gain(t: DashTool): real
  {
    if t.roi.Some? then t.roi.value.productivityGainPercent else 0.0
  }

  /** The bars of the productivity chart: tool name and gain. */
  function ProductivityBars(tools: seq<DashTool>): (r: seq<(string, real)>)
    ensures |r| == |Filter(tools, InUse)|
  {
    BarsOf(Filter(tools, InUse))
  }

  /** The bar of each tool shown, in order. */
  function BarsOf(shown: seq<DashTool>): (r: seq<(string, real)>)
    ensures |r| == |shown|
    ensures forall i :: 0 <= i < |shown| ==> r[i] == (shown[i].name, Gain(shown[i]))
  {
    seq(|shown|, i requires 0 <= i < |shown| => (shown[i].name, Gain(shown[i])))
  }

  lemma BarsOfConcat(x: seq<DashTool>, y: seq<DashTool>)
    ensures BarsOf(x + y) == BarsOf(x) + BarsOf(y)
  {
    var l, r := BarsOf(x + y), BarsOf(x) + BarsOf(y);
    forall i | 0 <= i < |l|
      ensures l[i] == r[i]
    {
      if i < |x| {
        assert (x + y)[i] == x[i];
      } else {
        assert (x + y)[i] == y[i - |x|];
      }
    }
  }

  /** One bar per deployed or piloted tool, in input order, 0 for a tool
      without ROI data; the other tools contribute nothing. */
  lemma {:induction false} ProductivityBarsOrder(a: seq<DashTool>, b: seq<DashTool>)
    ensures ProductivityBars(a + b) == ProductivityBars(a) + ProductivityBars(b)
  {
    FilterConcat(a, b, InUse);
    BarsOfConcat(Filter(a, InUse), Filter(b, InUse));
  }

  lemma ProductivityBarsSingle(t: DashTool)
    ensures ProductivityBars([t]) == if InUse(t) then [(t.name, Gain(t))] else []
    ensures InUse(t) && t.roi.None? ==> ProductivityBars([t]) == [(t.name, 0.0)]
  {
    assert [t][1..] == [];
  }

  predicate Plotted(t: DashTool)
  {
    t.roi.Some? && InUse(t)
  }

  datatype Point = Point(x: real, y: real, name: string)

  function CostBenefitPoints(tools: seq<DashTool>): (r: seq<Point>)
    ensures |r| == |Filter(tools, Plotted)|
  {
    PointsOf(Filter(tools, Plotted))
  }

  /** The point of each tool plotted, in order. */
  function PointsOf(shown: seq<DashTool>): (r: seq<Point>)
    requires forall i :: 0 <= i < |shown| ==> shown[i].roi.Some?
    ensures |r| == |shown|
    ensures forall i :: 0 <= i < |shown| ==>
      r[i] == Point(shown[i].roi.value.monthlyCost, shown[i].roi.value.monthlySavings, shown[i].name)
  {
    seq(|shown|, i requires 0 <= i < |shown| =>
      Point(shown[i].roi.value.monthlyCost, shown[i].roi.value.monthlySavings, shown[i].name))
  }

  lemma PointsOfConcat(x: seq<DashTool>, y: seq<DashTool>)
    requires forall i :: 0 <= i < |x| ==> x[i].roi.Some?
    requires forall i :: 0 <= i < |y| ==> y[i].roi.Some?
    ensures forall i :: 0 <= i < |x + y| ==> (x + y)[i].roi.Some?
    ensures PointsOf(x + y) == PointsOf(x) + PointsOf(y)
  {
    forall i | 0 <= i < |x + y|
      ensures (x + y)[i].roi.Some?
    {
      if i < |x| {
        assert (x + y)[i] == x[i];
      } else {
        assert (x + y)[i] == y[i - |x|];
      }
    }
    var l, r := PointsOf(x + y), PointsOf(x) + PointsOf(y);
    forall i | 0 <= i < |l|
      ensures l[i] == r[i]
    {
      if i < |x| {
        assert (x + y)[i] == x[i];
      } else {
        assert (x + y)[i] == y[i - |x|];
      }
    }
  }

  /** One point per deployed or piloted tool with ROI data, in input order,
      placed at (monthly cost, monthly savings). */
  lemma {:induction false} CostBenefitPointsOrder(a: seq<DashTool>, b: seq<DashTool>)
    ensures CostBenefitPoints(a + b) == CostBenefitPoints(a) + CostBenefitPoints(b)
  {
    FilterConcat(a, b, Plotted);
    PointsOfConcat(Filter(a, Plotted), Filter(b, Plotted));
  }

  lemma CostBenefitPointsSingle(t: DashTool)
    ensures CostBenefitPoints([t]) ==
      if Plotted(t) then [Point(t.roi.value.monthlyCost, t.roi.value.monthlySavings, t.name)] else []
  {
    assert [t][1..] == [];
  }

  /** Every plotted tool also has a bar. */
  lemma PlottedHaveBars(tools: seq<DashTool>)
    ensures |CostBenefitPoints(tools)| <= |ProductivityBars(tools)|
  {
    var both := (t: DashTool) => InUse(t) && t.roi.Some?;
    FilterFilter(tools, InUse, (t: DashTool) => t.roi.Some?, both);
    FilterCongruent(tools, both, Plotted);
  }

  // ---------------------------------------------------------------------
  // The report

  datatype Alert = Alert(title: string, description: string)

  datatype ReportData = ReportData(insights: Summary, tools: seq<DashTool>, alerts: seq<Alert>)

  const FallbackOpportunity := "Context engineering adoption shows potential for additional 25% productivity gains based on pilot data"

  /** `generateFallbackInsights`: the key win and the resource need quote
      the adoption rate and the monthly ROI through `toFixed`, so they
      arrive as the formatted sentences; the opportunity is fixed. */
  function FallbackInsights(keyWin: string, resourceNeed: string): (r: Summary)
    ensures r.keyWin == keyWin && r.resourceNeed == resourceNeed
    ensures r.newOpportunity == FallbackOpportunity
  {
    Summary(keyWin, FallbackOpportunity, resourceNeed)
  }

  /** `generateReportData` (the date and headline figures left out): the
      report always carries the template insights, never the AI reading. */
  function GenerateReportData(keyWin: string, resourceNeed: string, tools: seq<DashTool>,
                              alerts: Option<seq<Alert>>): (r: ReportData)
    ensures r.insights == FallbackInsights(keyWin, resourceNeed)
    ensures forall i :: 0 <= i < |r.tools| ==> InUse(r.tools[i]) && r.tools[i] in tools
    ensures forall i :: 0 <= i < |tools| && InUse(tools[i]) ==> tools[i] in r.tools
    ensures alerts.None? ==> r.alerts == []
    ensures alerts.Some? ==> r.alerts == alerts.value
  {
    ReportData(FallbackInsights(keyWin, resourceNeed), Filter(tools, InUse), if alerts.Some? then alerts.value else [])
  }

  function AlertBullet(a: Alert): string
  {
    "- **" + a.title + "**: " + a.description
  }

  function ToolBullet(t: DashTool): string
  {
    "- **" + t.name + "**: " + t.status + " (Score: " + t.scoreText + "/10)"
  }

  function RiskSection(alerts: seq<Alert>): string
  {
    Join(seq(|alerts|, i requires 0 <= i < |alerts| => AlertBullet(alerts[i])), "\n")
  }

  function PortfolioSection(tools: seq<DashTool>): string
  {
    Join(seq(|tools|, i requires 0 <= i < |tools| => ToolBullet(tools[i])), "\n")
  }

  predicate OneLine(s: string) { '\n' !in s }

  /** The risk section of the exported report has one line per alert, that
      alert's bullet, when no alert text spans lines. */
  lemma RiskSectionLines(alerts: seq<Alert>)
    requires |alerts| >= 1
    requires forall i :: 0 <= i < |alerts| ==> OneLine(alerts[i].title) && OneLine(alerts[i].description)
    ensures |Split(RiskSection(alerts), '\n')| == |alerts|
    ensures forall i :: 0 <= i < |alerts| ==> Split(RiskSection(alerts), '\n')[i] == AlertBullet(alerts[i])
  {
    var xs := seq(|alerts|, i requires 0 <= i < |alerts| => AlertBullet(alerts[i]));
    forall k | 0 <= k < |xs|
      ensures '\n' !in xs[k]
    {
      assert xs[k] == "- **" + alerts[k].title + "**: " + alerts[k].description;
    }
    SplitJoinLines(xs);
  }

  /** The portfolio section has one line per reported tool. */
  lemma PortfolioSectionLines(tools: seq<DashTool>)
    requires |tools| >= 1
    requires forall i :: 0 <= i < |tools| ==>
      OneLine(tools[i].name) && OneLine(tools[i].status) && OneLine(tools[i].scoreText)
    ensures |Split(PortfolioSection(tools), '\n')| == |tools|
    ensures forall i :: 0 <= i < |tools| ==> Split(PortfolioSection(tools), '\n')[i] == ToolBullet(tools[i])
  {
    var xs := seq(|tools|, i requires 0 <= i < |tools| => ToolBullet(tools[i]));
    forall k | 0 <= k < |xs|
      ensures '\n' !in xs[k]
    {
      assert xs[k] == "- **" + tools[k].name + "**: " + tools[k].status + " (Score: " + tools[k].scoreText + "/10)";
    }
    SplitJoinLines(xs);
  }
}
