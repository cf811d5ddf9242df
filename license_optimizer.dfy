// The licence-optimiser agent
// (enterprise-ai-strategy/agents/operational/license_optimizer_agent.py):
// the usage analysis of one tool, the timeframe table, the portfolio
// summary sent to the language model, and what `process_task` returns.

module LicenseOptimizer {
  import opened Common
  import opened BaseAgent

  const AgentName := "license_optimizer_agent"

  /** The usage figures of one tool as `analyze_license_usage` reads them
      with `.get(..., 0)`, so a missing figure is 0; the cost per user may
      be fractional. */
  datatype Usage = Usage(totalLicenses: int, activeUsers: int, costPerUser: real)

  /** An optimisation opportunity; `rate` is the utilisation its
      description quotes. */
  datatype Opportunity = Opportunity(kind: string, rate: real, savings: real, action: string)

  datatype LicenseAnalysis = LicenseAnalysis(toolName: string, totalLicenses: int, activeUsers: int,
                                             utilizationRate: real, costPerUser: real, totalCost: real,
                                             opportunities: seq<Opportunity>, recommendations: seq<string>,
                                             potentialSavings: real)

  /** Utilisation under 70% is worth acting on. */
  const UnderutilizedBelow := 0.7

  const ReassignAction := "Remove unused licenses or reassign to active users"

  /** `analyze_license_usage`: the record starts with zero rates, the
      utilisation and total cost are filled in when there are licences,
      and an under-used tool gets one opportunity whose savings are also
      added to the total. */
  method AnalyzeLicenseUsage(toolName: string, usage: Usage) returns (a: LicenseAnalysis)
    ensures a.toolName == toolName && a.totalLicenses == usage.totalLicenses && a.activeUsers == usage.activeUsers
    ensures usage.totalLicenses > 0 ==>
      a.utilizationRate == usage.activeUsers as real / usage.totalLicenses as real
      && a.totalCost == usage.totalLicenses as real * usage.costPerUser
    ensures usage.totalLicenses <= 0 ==> a.utilizationRate == 0.0 && a.totalCost == 0.0
    ensures |a.opportunities| <= 1
    ensures |a.opportunities| == 1 <==> a.utilizationRate < UnderutilizedBelow
    ensures a.potentialSavings ==
      if a.utilizationRate < UnderutilizedBelow
      then (usage.totalLicenses - usage.activeUsers) as real * usage.costPerUser else 0.0
    ensures |a.opportunities| == 1 ==>
      a.opportunities[0].kind == "underutilization" && a.opportunities[0].savings == a.potentialSavings
      && a.opportunities[0].rate == a.utilizationRate
    ensures usage.totalLicenses == 0 ==>
      |a.opportunities| == 1 && a.potentialSavings == -(usage.activeUsers as real) * usage.costPerUser
    ensures a.recommendations == [] && a.costPerUser == usage.costPerUser
    ensures |a.opportunities| == 1 ==> a.opportunities[0].action == ReassignAction
  {
    a := LicenseAnalysis(toolName, usage.totalLicenses, usage.activeUsers, 0.0, usage.costPerUser, 0.0, [], [], 0.0);
    if a.totalLicenses > 0 {
      a := a.(utilizationRate := a.activeUsers as real / a.totalLicenses as real);
      a := a.(totalCost := a.totalLicenses as real * a.costPerUser);
    }
    if a.utilizationRate < UnderutilizedBelow {
      var unused := a.totalLicenses - a.activeUsers;
      var savings := unused as real * a.costPerUser;
      a := a.(opportunities := a.opportunities + [Opportunity("underutilization", a.utilizationRate, savings,
                                                              ReassignAction)]);
      a := a.(potentialSavings := a.potentialSavings + savings);
    }
  }

  // ---------------------------------------------------------------------
  // Timeframes

  datatype Timeframe = Timeframe(span: string, effort: string, impact: string)

  const OptimizationCategories: map<string, Timeframe> := map[
    "immediate" := Timeframe("0-30 days", "Low", "High"),
    "short_term" := Timeframe("1-3 months", "Medium", "Medium-High"),
    "long_term" := Timeframe("3-12 months", "High", "Very High")
  ]

  /** The timeframe the prompt describes: the requested one, or the short
      term for a name the table does not have. */
  function TimeframeInfo(timeframe: string): (r: Timeframe)
    ensures timeframe in OptimizationCategories ==> r == OptimizationCategories[timeframe]
    ensures timeframe !in OptimizationCategories ==> r == Timeframe("1-3 months", "Medium", "Medium-High")
  {
    if timeframe in OptimizationCategories then OptimizationCategories[timeframe] else OptimizationCategories["short_term"]
  }

  // ---------------------------------------------------------------------
  // The portfolio summary

  /** A figure of the portfolio as an f-string writes it: an int, or a
      float in fixed-point form, given by its sign, its whole part and the
      digits after the point. */
  datatype Figure = Whole(n: int) | Decimal(negative: bool, whole: nat, fraction: string)

  predicate IsDigits(s: string)
  {
    forall i :: 0 <= i < |s| ==> '0' <= s[i] <= '9'
  }

  /** A float's digits after the point are one or more decimal digits. */
  predicate WellFormed(f: Figure)
  {
    f.Decimal? ==> f.fraction != [] && IsDigits(f.fraction)
  }

  /** The figure's text: the int's digits with its sign, or the float's
      sign, whole part, point and fraction. */
  function FigureText(f: Figure): string
  {
    match f
      case Whole(n) => IntToString(n)
      case Decimal(negative, whole, fraction) =>
        (if negative then "-" else "") + NatToString(whole) + "." + fraction
  }

  /** A figure's text has no comma and no line break. */
  lemma FigureTextPlain(f: Figure)
    requires WellFormed(f)
    ensures ',' !in FigureText(f) && '\n' !in FigureText(f)
  {
    match f
      case Whole(n) =>
        NumberOnOneLine(n);
      case Decimal(negative, whole, fraction) =>
        var sign := if negative then "-" else "";
        var digits := NatToString(whole);
        NoPointInDigits(digits);
        NoPointInDigits(fraction);
        assert FigureText(f) == sign + digits + "." + fraction;
  }

  /** Reads a figure back from its text: an optional '-', digits, and
      optionally a point followed by digits. */
  function ReadFigure(s: string): Option<Figure>
  {
    if s != [] && s[0] == '-' then ReadMagnitude(true, s[1..]) else ReadMagnitude(false, s)
  }

  function ReadMagnitude(negative: bool, body: string): Option<Figure>
  {
    var parts := Split(body, '.');
    if |parts| == 1 && body != [] && IsDigits(body) then
      var m: int := DigitsValue(body);
      Some(Whole(if negative then -m else m))
    else if |parts| == 2 && parts[0] != [] && IsDigits(parts[0]) && parts[1] != [] && IsDigits(parts[1]) then
      Some(Decimal(negative, DigitsValue(parts[0]), parts[1]))
    else None
  }

  lemma MagnitudeWhole(negative: bool, m: nat)
    ensures ReadMagnitude(negative, NatToString(m)) == Some(Whole(if negative then -(m as int) else m))
  {
    var d := NatToString(m);
    NatToStringValue(m);
    NoPointInDigits(d);
  }

  lemma MagnitudeDecimal(negative: bool, whole: nat, fraction: string)
    requires fraction != [] && IsDigits(fraction)
    ensures ReadMagnitude(negative, NatToString(whole) + "." + fraction) == Some(Decimal(negative, whole, fraction))
  {
    var d := NatToString(whole);
    NatToStringValue(whole);
    NoPointInDigits(d);
    NoPointInDigits(fraction);
    SplitAtSeparator(d, fraction, '.');
    assert d + "." + fraction == d + ['.'] + fraction;
  }

  lemma SignedBody(negative: bool, body: string)
    requires body != [] && body[0] != '-'
    ensures ReadFigure((if negative then "-" else "") + body) == ReadMagnitude(negative, body)
  {
    if negative {
      assert ("-" + body)[1..] == body;
    } else {
      assert "" + body == body;
    }
  }

  /** Every well-formed figure reads back from its text. */
  lemma FigureReadsBack(f: Figure)
    requires WellFormed(f)
    ensures ReadFigure(FigureText(f)) == Some(f)
  {
    match f
      case Whole(n) => WholeReadsBack(n);
      case Decimal(negative, whole, fraction) => DecimalReadsBack(negative, whole, fraction);
  }

  lemma WholeReadsBack(n: int)
    ensures ReadFigure(IntToString(n)) == Some(Whole(n))
  {
    var m: nat := if n < 0 then -n else n;
    var body := NatToString(m);
    NoPointInDigits(body);
    MagnitudeWhole(n < 0, m);
    SignedBody(n < 0, body);
  }

  lemma DecimalReadsBack(negative: bool, whole: nat, fraction: string)
    requires fraction != [] && IsDigits(fraction)
    ensures ReadFigure(FigureText(Decimal(negative, whole, fraction))) == Some(Decimal(negative, whole, fraction))
  {
    var sign := if negative then "-" else "";
    var digits := NatToString(whole);
    var body := digits + "." + fraction;
    NoPointInDigits(digits);
    MagnitudeDecimal(negative, whole, fraction);
    assert body[0] == digits[0];
    SignedBody(negative, body);
    assert sign + digits + "." + fraction == sign + body;
  }

  lemma NoPointInDigits(s: string)
    requires IsDigits(s)
    ensures '.' !in s && '-' !in s && ',' !in s && '\n' !in s
    ensures s != [] ==> s[0] != '-'
    ensures Split(s, '.') == [s]
  {
    SplitNoSeparator(s, '.');
  }

  const LicensesWord := " licenses"
  const UsersWord := " active users"
  const CostMark := " $"

  /** The three comma-separated parts of a tool's figures. */
  function FigureWords(t: Figure, a: Figure, c: Figure): seq<string>
  {
    ["" + FigureText(t) + LicensesWord, " " + FigureText(a) + UsersWord, CostMark + FigureText(c) + ""]
  }

  /** The figures in the middle of a tool's line: "T licenses, A active
      users, $C". */
  function Figures(t: Figure, a: Figure, c: Figure): string
  {
    Join(FigureWords(t, a, c), ",")
  }

  /** The text between a leading `p` and a trailing `q`, when there is one. */
  function Between(s: string, p: string, q: string): (r: Option<string>)
    ensures r.Some? ==> s == p + r.value + q
  {
    if |s| >= |p| + |q| && s[..|p|] == p && s[|s| - |q|..] == q then
      assert s == s[..|p|] + s[|p|..|s| - |q|] + s[|s| - |q|..];
      Some(s[|p|..|s| - |q|])
    else None
  }

  lemma BetweenOf(p: string, x: string, q: string)
    ensures Between(p + x + q, p, q) == Some(x)
  {
    var s := p + x + q;
    assert s[..|p|] == p;
    assert s[|s| - |q|..] == q;
    assert s[|p|..|s| - |q|] == x;
  }

  /** Reads the three figures back from the middle of a tool's line. */
  function ReadFigures(mid: string): Option<(Figure, Figure, Figure)>
  {
    var ps := Split(mid, ',');
    if |ps| != 3 then None
    else
      var t, a, c := Between(ps[0], "", LicensesWord), Between(ps[1], " ", UsersWord), Between(ps[2], CostMark, "");
      if t.None? || a.None? || c.None? then None
      else
        var ft, fa, fc := ReadFigure(t.value), ReadFigure(a.value), ReadFigure(c.value);
        if ft.None? || fa.None? || fc.None? then None
        else Some((ft.value, fa.value, fc.value))
  }

  /** Cutting the figures at their commas and stripping their words gives
      back the three figures. */
  lemma FiguresReadBack(t: Figure, a: Figure, c: Figure)
    requires WellFormed(t) && WellFormed(a) && WellFormed(c)
    ensures ReadFigures(Figures(t, a, c)) == Some((t, a, c))
  {
    var x, y, z := FigureText(t), FigureText(a), FigureText(c);
    var ws := FigureWords(t, a, c);
    FigureTextPlain(t);
    FigureTextPlain(a);
    FigureTextPlain(c);
    assert ',' !in LicensesWord && ',' !in UsersWord && ',' !in CostMark;
    assert ',' !in ws[0] && ',' !in ws[1] && ',' !in ws[2];
    assert "," == [','];
    SplitJoinChar(ws, ',');
    BetweenOf("", x, LicensesWord);
    BetweenOf(" ", y, UsersWord);
    BetweenOf(CostMark, z, "");
    FigureReadsBack(t);
    FigureReadsBack(a);
    FigureReadsBack(c);
  }

  lemma FiguresOnOneLine(t: Figure, a: Figure, c: Figure)
    requires WellFormed(t) && WellFormed(a) && WellFormed(c)
    ensures '\n' !in Figures(t, a, c)
  {
    var x, y, z := FigureText(t), FigureText(a), FigureText(c);
    FigureTextPlain(t);
    FigureTextPlain(a);
    FigureTextPlain(c);
    assert '\n' !in LicensesWord && '\n' !in UsersWord && '\n' !in CostMark;
    var ws := FigureWords(t, a, c);
    assert '\n' !in ws[0] && '\n' !in ws[1] && '\n' !in ws[2];
    JoinWithout(ws, ",", '\n');
  }

  lemma {:induction false} JoinWithout(xs: seq<string>, sep: string, c: char)
    requires c !in sep && forall k :: 0 <= k < |xs| ==> c !in xs[k]
    ensures c !in Join(xs, sep)
  {
    if |xs| > 1 {
      JoinWithout(xs[1..], sep, c);
    }
  }

  const HeadMark := "- "
  const NameMark := ": "
  const LineTail := "/user/month"

  /** A tool's line: "- ", the name and ": ", then its licences, active
      users and cost per user, up to "/user/month". The three figures read
      back from the middle; the line is on one line when the name is. */
  function ToolLine(tool: string, t: Figure, a: Figure, c: Figure): (r: string)
    ensures |r| >= |tool| + 15 && r[..|tool| + 4] == HeadMark + tool + NameMark
    ensures r[|r| - 11..] == LineTail
    ensures WellFormed(t) && WellFormed(a) && WellFormed(c) ==>
      ReadFigures(r[|tool| + 4..|r| - 11]) == Some((t, a, c))
    ensures WellFormed(t) && WellFormed(a) && WellFormed(c) && '\n' !in tool ==> '\n' !in r
  {
    var head := HeadMark + tool + NameMark;
    var figures := Figures(t, a, c);
    assert |head| == |tool| + 4 && |LineTail| == 11;
    assert '\n' !in HeadMark && '\n' !in NameMark && '\n' !in LineTail;
    LineParts(head, figures, LineTail);
    if WellFormed(t) && WellFormed(a) && WellFormed(c) then
      FiguresReadBack(t, a, c);
      FiguresOnOneLine(t, a, c);
      head + figures + LineTail
    else head + figures + LineTail
  }

  lemma LineParts(head: string, mid: string, tail: string)
    ensures (head + mid + tail)[..|head|] == head
    ensures (head + mid + tail)[|head|..|head + mid + tail| - |tail|] == mid
    ensures (head + mid + tail)[|head + mid + tail| - |tail|..] == tail
    ensures '\n' !in head && '\n' !in mid && '\n' !in tail ==> '\n' !in head + mid + tail
  {
  }

  lemma NumberOnOneLine(n: int)
    ensures '\n' !in IntToString(n) && ',' !in IntToString(n) && '.' !in IntToString(n)
  {
    var d := NatToString(if n < 0 then -n else n);
    assert forall i :: 0 <= i < |d| ==> d[i] != '\n' && d[i] != ',' && d[i] != '.';
  }

  /** A portfolio entry: `data['total_licenses']`, `data['active_users']`
      and `data['cost_per_user']`, each possibly missing from the
      caller's dictionary. */
  datatype Entry = Entry(totalLicenses: Option<Figure>, activeUsers: Option<Figure>, costPerUser: Option<Figure>)

  /** The tools to describe, in the dictionary's order. */
  type Portfolio = seq<(string, Entry)>

  /** The key an entry's line looks up first and does not find. */
  function MissingKey(e: Entry): (r: Option<string>)
    ensures r.None? <==> e.totalLicenses.Some? && e.activeUsers.Some? && e.costPerUser.Some?
  {
    if e.totalLicenses.None? then Some("total_licenses")
    else if e.activeUsers.None? then Some("active_users")
    else if e.costPerUser.None? then Some("cost_per_user")
    else None
  }

  /** The missing key of the first tool that lacks a figure. */
  function FirstMissing(tools: Portfolio): (r: Option<string>)
    ensures r.None? <==> forall i :: 0 <= i < |tools| ==> MissingKey(tools[i].1).None?
    ensures r.Some? ==> exists i :: (0 <= i < |tools| && MissingKey(tools[i].1) == r
      && forall j :: 0 <= j < i ==> MissingKey(tools[j].1).None?)
  {
    if tools == [] then None
    else if MissingKey(tools[0].1).Some? then MissingKey(tools[0].1)
    else
      var r := FirstMissing(tools[1..]);
      if r.Some? then
        var i :| 0 <= i < |tools[1..]| && MissingKey(tools[1..][i].1) == r
          && forall j :: 0 <= j < i ==> MissingKey(tools[1..][j].1).None?;
        assert MissingKey(tools[i + 1].1) == r;
        r
      else r
  }

  predicate Complete(tools: Portfolio)
  {
    forall i :: 0 <= i < |tools| ==> MissingKey(tools[i].1).None?
  }

  function EntryLine(tool: string, e: Entry): string
    requires MissingKey(e).None?
  {
    ToolLine(tool, e.totalLicenses.value, e.activeUsers.value, e.costPerUser.value)
  }

  function ToolLines(tools: Portfolio): (r: seq<string>)
    requires Complete(tools)
    ensures |r| == |tools|
    ensures forall i :: 0 <= i < |tools| ==> r[i] == EntryLine(tools[i].0, tools[i].1)
  {
    if tools == [] then [] else [EntryLine(tools[0].0, tools[0].1)] + ToolLines(tools[1..])
  }

  /** The sample portfolio used when the caller gives no tools. */
  const SampleTools: Portfolio := [
    ("github_copilot", Entry(Some(Whole(800)), Some(Whole(734)), Some(Whole(20)))),
    ("amazon_codewhisperer", Entry(Some(Whole(500)), Some(Whole(445)), Some(Whole(0)))),
    ("tabnine", Entry(Some(Whole(300)), Some(Whole(234)), Some(Whole(20))))
  ]

  /** The tools the summary describes: the caller's, or the samples when
      there are none. */
  function SummarisedTools(tools: Portfolio): (r: Portfolio)
    ensures tools == [] ==> r == SampleTools
    ensures tools != [] ==> r == tools
  {
    if tools == [] then SampleTools else tools
  }

  /** Every name is on one line and every figure well formed. */
  predicate Printable(tools: Portfolio)
  {
    forall i :: 0 <= i < |tools| ==> PrintableTool(tools[i].0, tools[i].1)
  }

  predicate PrintableTool(name: string, e: Entry)
  {
    '\n' !in name
    && (e.totalLicenses.Some? ==> WellFormed(e.totalLicenses.value))
    && (e.activeUsers.Some? ==> WellFormed(e.activeUsers.value))
    && (e.costPerUser.Some? ==> WellFormed(e.costPerUser.value))
  }

  /** `tools_summary`: the first tool lacking a figure raises KeyError for
      that key; otherwise one line per tool, joined by newlines. */
  function ToolsSummary(tools: Portfolio): (r: PyResult<string>)
    ensures r.PyRaise? <==> FirstMissing(SummarisedTools(tools)).Some?
    ensures r.PyRaise? ==> r.error == KeyErrorMessage(FirstMissing(SummarisedTools(tools)).value)
  {
    var described := SummarisedTools(tools);
    var missing := FirstMissing(described);
    if missing.Some? then PyRaise(KeyErrorMessage(missing.value))
    else PyOk(Join(ToolLines(described), "\n"))
  }

  /** When the names and figures are printable, a summary splits back into
      exactly the tool lines: one per tool described, three without
      tools. */
  lemma ToolsSummaryLines(tools: Portfolio)
    requires ToolsSummary(tools).PyOk? && Printable(tools)
    ensures var described := SummarisedTools(tools);
      Complete(described) && Split(ToolsSummary(tools).value, '\n') == ToolLines(described)
    ensures |Split(ToolsSummary(tools).value, '\n')| == if tools == [] then 3 else |tools|
  {
    SamplesPrintable();
    PortfolioLines(SummarisedTools(tools));
  }

  lemma {:induction false} PortfolioLines(ts: Portfolio)
    requires ts != [] && Complete(ts)
    requires Printable(ts)
    ensures Split(Join(ToolLines(ts), "\n"), '\n') == ToolLines(ts)
  {
    var lines := ToolLines(ts);
    forall k | 0 <= k < |lines|
      ensures '\n' !in lines[k]
    {
      var e := ts[k].1;
      assert PrintableTool(ts[k].0, e);
      assert lines[k] == ToolLine(ts[k].0, e.totalLicenses.value, e.activeUsers.value, e.costPerUser.value);
    }
    SplitJoinLines(lines);
  }

  /** The samples are three complete, printable tools. */
  lemma SamplesPrintable()
    ensures |SampleTools| == 3
    ensures Complete(SampleTools) && Printable(SampleTools)
    ensures FirstMissing(SampleTools).None?
  {
  }

  /** An entry without its licence count stops the summary with
      KeyError('total_licenses'), whatever follows it. */
  lemma MissingLicencesRaise(name: string, rest: Portfolio)
    ensures ToolsSummary([(name, Entry(None, Some(Whole(1)), Some(Whole(1))))] + rest)
      == PyRaise(KeyErrorMessage("total_licenses"))
  {
    var tools := [(name, Entry(None, Some(Whole(1)), Some(Whole(1))))] + rest;
    assert MissingKey(tools[0].1) == Some("total_licenses");
  }

  // ---------------------------------------------------------------------
  // Processing a task

  /** The entries of the context the agent reads; None stands for a
      missing entry (or a missing context). */
  datatype OptimizationContext = OptimizationContext(optimizationType: Option<string>, timeframe: Option<string>,
                                                     toolsData: Option<Portfolio>, budgetTarget: Option<int>)

  const ErrorPrefix := "Error during license optimization: "

  function ErrorReply(task: string, message: string, now: int): (r: AgentResponse)
    ensures r.agentName == AgentName && r.task == task && r.timestamp == now
    ensures r.content == ErrorPrefix + message && r.status == "error" && r.confidence == 0.0
  {
    CreateResponse(AgentName, task, ErrorPrefix + message, None, Some("error"), Some(0.0), now)
  }

  /** The caller's tools; none when the context has no `tools_data`. */
  function ToolsOf(ctx: OptimizationContext): (r: Portfolio)
    ensures ctx.toolsData.Some? ==> r == ctx.toolsData.value
    ensures ctx.toolsData.None? ==> r == []
  {
    if ctx.toolsData.Some? then ctx.toolsData.value else []
  }

  /** `process_task`: comprehensive / short_term / no tools / 0 by
      default. The portfolio summary is built before the language model
      is called, so a tool lacking a figure gives the KeyError response
      whatever the call would have done; otherwise a raised call gives
      the error response. On success the metadata counts the caller's
      tools (the samples are not counted) and reports no savings. */
  function ProcessTask(task: string, ctx: OptimizationContext, generation: Generation, now: int): (r: AgentResponse)
    ensures r.agentName == AgentName && r.task == task && r.timestamp == now
    ensures var tools := ToolsOf(ctx);
      r.status == "error" <==> ToolsSummary(tools).PyRaise? || generation.GenerationRaised?
    ensures var tools := ToolsOf(ctx);
      var missing := FirstMissing(SummarisedTools(tools));
      missing.Some? ==>
        r.content == ErrorPrefix + KeyErrorMessage(missing.value) && r.confidence == 0.0
    ensures var tools := ToolsOf(ctx);
      FirstMissing(SummarisedTools(tools)).None? && generation.GenerationRaised? ==>
        r.content == ErrorPrefix + generation.error && r.confidence == 0.0
    ensures var tools := ToolsOf(ctx);
      FirstMissing(SummarisedTools(tools)).None? && generation.Generated? ==>
      r.status == "success" && r.content == generation.text && r.confidence == 0.85
      && r.metadata.Keys == {"optimization_type", "timeframe", "analysis_date", "tools_analyzed", "potential_savings"}
      && r.metadata["optimization_type"] == MText(if ctx.optimizationType.Some? then ctx.optimizationType.value else "comprehensive")
      && r.metadata["timeframe"] == MText(if ctx.timeframe.Some? then ctx.timeframe.value else "short_term")
      && r.metadata["tools_analyzed"] == MInt(|tools|)
      && r.metadata["analysis_date"] == MInt(now)
      && r.metadata["potential_savings"] == MInt(0)
  {
    var optimizationType := if ctx.optimizationType.Some? then ctx.optimizationType.value else "comprehensive";
    var timeframe := if ctx.timeframe.Some? then ctx.timeframe.value else "short_term";
    var tools := ToolsOf(ctx);
    match ToolsSummary(tools)
      case PyRaise(e) => ErrorReply(task, e, now)
      case PyOk(_) =>
        match generation
          case GenerationRaised(e) => ErrorReply(task, e, now)
          case Generated(text) =>
            var meta := map["optimization_type" := MText(optimizationType), "timeframe" := MText(timeframe),
                            "analysis_date" := MInt(now), "tools_analyzed" := MInt(|tools|),
                            "potential_savings" := MInt(0)];
            CreateResponse(AgentName, task, text, Some(meta), None, Some(0.85), now)
  }

  /** The default request has the sample portfolio, which is complete, so
      only the call can fail. */
  lemma DefaultsReachTheModel(task: string, generation: Generation, now: int)
    ensures var r := ProcessTask(task, OptimizationContext(None, None, None, None), generation, now);
      r.status == "error" <==> generation.GenerationRaised?
  {
    SamplesPrintable();
  }
}
