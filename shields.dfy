// Dynamic shields.io badges for the strategy site: the status, budget,
// risk and compliance classifiers, the badge helpers, the badge URL and
// the badge sets filled from the dashboard data with their defaults
// (enterprise-ai-strategy/hugo-site/static/js/shields-integration.js).

module Shields {
  import opened Common
  import opened UriEncoding

  // ---------------------------------------------------------------------
  // Classifiers

  function OverallStatus(successRate: real): (r: string)
  {
    if successRate >= 90.0 then "Excellent"
    else if successRate >= 80.0 then "Good"
    else if successRate >= 70.0 then "Fair"
    else "Needs Attention"
  }

  function StatusColor(successRate: real): (r: string)
  {
    if successRate >= 90.0 then "brightgreen"
    else if successRate >= 80.0 then "green"
    else if successRate >= 70.0 then "yellow"
    else "red"
  }

  /** The status word and the status colour come from the same bands. */
  lemma StatusBandsAgree(successRate: real)
    ensures OverallStatus(successRate) == "Excellent" <==> StatusColor(successRate) == "brightgreen"
    ensures OverallStatus(successRate) == "Good" <==> StatusColor(successRate) == "green"
    ensures OverallStatus(successRate) == "Fair" <==> StatusColor(successRate) == "yellow"
    ensures OverallStatus(successRate) == "Needs Attention" <==> StatusColor(successRate) == "red"
  {
  }

  function StatusRank(status: string): nat
  {
    match status
    case "Excellent" => 3
    case "Good" => 2
    case "Fair" => 1
    case _ => 0
  }

  /** A higher success rate never gives a worse status. */
  lemma OverallStatusMonotone(a: real, b: real)
    requires a <= b
    ensures StatusRank(OverallStatus(a)) <= StatusRank(OverallStatus(b))
  {
  }

  function BudgetColor(utilized: real): (r: string)
  {
    if utilized <= 85.0 then "green" else if utilized <= 95.0 then "yellow" else "red"
  }

  function RiskLevel(score: real): (r: string)
  {
    if score <= 3.0 then "Low" else if score <= 6.0 then "Medium" else if score <= 8.0 then "High" else "Critical"
  }

  function RiskColor(score: real): (r: string)
  {
    if score <= 3.0 then "brightgreen" else if score <= 6.0 then "yellow" else if score <= 8.0 then "orange" else "red"
  }

  function RiskRank(level: string): nat
  {
    match level
    case "Low" => 0
    case "Medium" => 1
    case "High" => 2
    case _ => 3
  }

  /** The risk level and the risk colour come from the same bands. */
  lemma RiskBandsAgree(score: real)
    ensures RiskLevel(score) == "Low" <==> RiskColor(score) == "brightgreen"
    ensures RiskLevel(score) == "Medium" <==> RiskColor(score) == "yellow"
    ensures RiskLevel(score) == "High" <==> RiskColor(score) == "orange"
    ensures RiskLevel(score) == "Critical" <==> RiskColor(score) == "red"
  {
  }

  /** A higher risk score never gives a lower risk level. */
  lemma RiskLevelMonotone(a: real, b: real)
    requires a <= b
    ensures RiskRank(RiskLevel(a)) <= RiskRank(RiskLevel(b))
  {
  }

  function ColorRank(color: string): nat
  {
    match color
    case "brightgreen" => 0
    case "green" => 1
    case "yellow" => 2
    case "orange" => 3
    case _ => 4
  }

  /** More of the budget used never gives a calmer colour. */
  lemma BudgetColorMonotone(a: real, b: real)
    requires a <= b
    ensures ColorRank(BudgetColor(a)) <= ColorRank(BudgetColor(b))
  {
  }

  function ComplianceColor(score: real): (r: string)
  {
    if score >= 95.0 then "brightgreen" else if score >= 90.0 then "green" else if score >= 80.0 then "yellow" else "red"
  }

  /** A higher compliance score never gives a more alarming colour. */
  lemma ComplianceColorMonotone(a: real, b: real)
    requires a <= b
    ensures ColorRank(ComplianceColor(b)) <= ColorRank(ComplianceColor(a))
  {
  }

  // ---------------------------------------------------------------------
  // The badge URL

  const BaseUrl := "https://img.shields.io/badge/"

  /** Badge options; `None` is an option that was not passed. */
  datatype ShieldOptions = ShieldOptions(style: Option<string>, logo: Option<string>, logoColor: Option<string>, labelColor: Option<string>)

  const NoOptions := ShieldOptions(None, None, None, None)

  /** The options every dashboard badge is drawn with. */
  const ForTheBadge := ShieldOptions(Some("for-the-badge"), None, None, None)

  function StyleOf(options: ShieldOptions): string
  {
    if options.style.Some? then options.style.value else "flat-square"
  }

  /** The part the badge service reads as caption, message and colour. */
  function BadgePath(caption: string, message: string, color: string): string
  {
    Encode(caption) + "-" + Encode(message) + "-" + Encode(color)
  }

  function Param(name: string, value: Option<string>): string
  {
    if Truthy(value) then "&" + name + "=" + value.value else ""
  }

  /** The query: the style, then logo, logo colour and label colour, each
      only when given and in that order. */
  function Query(options: ShieldOptions): string
  {
    "style=" + StyleOf(options)
    + Param("logo", options.logo) + Param("logoColor", options.logoColor) + Param("labelColor", options.labelColor)
  }

  /** The URL: the base, the three encoded texts joined by '-', then the
      style and each given option, in the order `generateShield` writes them. */
  function ShieldUrl(caption: string, message: string, color: string, options: ShieldOptions): string
  {
    BaseUrl + Encode(caption) + "-" + Encode(message) + "-" + Encode(color) + "?style=" + StyleOf(options)
    + Param("logo", options.logo) + Param("logoColor", options.logoColor) + Param("labelColor", options.labelColor)
  }

  /** `if (name) url += '&name=...'`. */
  method AppendParam(url: string, name: string, value: Option<string>) returns (r: string)
    ensures r == url + Param(name, value)
  {
    r := url;
    if Truthy(value) {
      r := r + "&" + name + "=" + value.value;
    }
  }

  /** `generateShield`, building the URL by successive appends. */
  method GenerateShield(caption: string, message: string, color: string, options: ShieldOptions) returns (url: string)
    ensures url == ShieldUrl(caption, message, color, options)
  {
    var style := StyleOf(options);
    var encodedCaption := Encode(caption);
    var encodedMessage := Encode(message);
    var encodedColor := Encode(color);
    url := BaseUrl + encodedCaption + "-" + encodedMessage + "-" + encodedColor + "?style=" + style;
    url := AppendParam(url, "logo", options.logo);
    url := AppendParam(url, "logoColor", options.logoColor);
    url := AppendParam(url, "labelColor", options.labelColor);
  }

  lemma Regroup(b: string, x: string, y: string, z: string, s: string, p1: string, p2: string, p3: string)
    ensures b + x + "-" + y + "-" + z + "?style=" + s + p1 + p2 + p3
         == b + ((x + "-" + y + "-" + z) + ['?'] + ("style=" + s + p1 + p2 + p3))
  {
  }

  /** The URL is the base, the badge path, '?' and the query. */
  lemma ShieldUrlParts(caption: string, message: string, color: string, options: ShieldOptions)
    ensures ShieldUrl(caption, message, color, options) == BaseUrl + (BadgePath(caption, message, color) + ['?'] + Query(options))
  {
    Regroup(BaseUrl, Encode(caption), Encode(message), Encode(color), StyleOf(options),
            Param("logo", options.logo), Param("logoColor", options.logoColor), Param("labelColor", options.labelColor));
  }

  lemma NoDashInEncoding(s: string)
    requires '-' !in s
    ensures '-' !in Encode(s)
  {
    EncodeAlphabet(s);
  }

  /** No '?' in an encoded badge path. */
  lemma {:induction false} BadgePathAlphabet(caption: string, message: string, color: string)
    ensures forall i :: 0 <= i < |BadgePath(caption, message, color)| ==> InUriAlphabet(BadgePath(caption, message, color)[i])
  {
    var el, em, ec := Encode(caption), Encode(message), Encode(color);
    EncodeAlphabet(caption);
    EncodeAlphabet(message);
    EncodeAlphabet(color);
    var path := BadgePath(caption, message, color);
    assert path == el + "-" + em + "-" + ec;
    forall i | 0 <= i < |path| ensures InUriAlphabet(path[i]) {
      if i < |el| {
        assert path[i] == el[i];
      } else if i == |el| {
      } else if i < |el| + 1 + |em| {
        assert path[i] == em[i - |el| - 1];
      } else if i == |el| + 1 + |em| {
      } else {
        assert path[i] == ec[i - |el| - 2 - |em|];
      }
    }
  }

  /** The badge path splits at '-' into three parts that decode to the
      caption, the message and the colour. */
  lemma {:induction false} BadgePathReadsBack(caption: string, message: string, color: string)
    requires '-' !in caption && '-' !in message && '-' !in color
    ensures var parts := Split(BadgePath(caption, message, color), '-');
      && |parts| == 3
      && Decode(parts[0]) == Some(caption) && Decode(parts[1]) == Some(message) && Decode(parts[2]) == Some(color)
  {
    var el, em, ec := Encode(caption), Encode(message), Encode(color);
    NoDashInEncoding(caption);
    NoDashInEncoding(message);
    NoDashInEncoding(color);
    DashedParts(el, em, ec);
    DecodeEncode(caption);
    DecodeEncode(message);
    DecodeEncode(color);
  }

  /** Three dash-free texts joined by dashes split back into themselves. */
  lemma DashedParts(a: string, b: string, c: string)
    requires '-' !in a && '-' !in b && '-' !in c
    ensures Split(a + "-" + b + "-" + c, '-') == [a, b, c]
  {
    assert a + "-" + b + "-" + c == a + ['-'] + (b + ['-'] + c);
    SplitAtSeparator(a, b + ['-'] + c, '-');
    SplitAtSeparator(b, c, '-');
    SplitNoSeparator(c, '-');
  }

  /** The badge service gets back what was asked for: after the base, the
      URL splits at the first '?' into the badge path, whose parts decode to
      the caption, the message and the colour, and the query. */
  lemma {:induction false} ShieldUrlReadsBack(caption: string, message: string, color: string, options: ShieldOptions)
    requires '-' !in caption && '-' !in message && '-' !in color
    ensures var url := ShieldUrl(caption, message, color, options);
      && url[..|BaseUrl|] == BaseUrl
      && Split(url[|BaseUrl|..], '?') == [BadgePath(caption, message, color)] + Split(Query(options), '?')
      && var parts := Split(BadgePath(caption, message, color), '-');
      && |parts| == 3
      && Decode(parts[0]) == Some(caption) && Decode(parts[1]) == Some(message) && Decode(parts[2]) == Some(color)
  {
    var path := BadgePath(caption, message, color);
    ShieldUrlParts(caption, message, color, options);
    BadgePathAlphabet(caption, message, color);
    assert '?' !in path;
    SplitAtSeparator(path, Query(options), '?');
    BadgePathReadsBack(caption, message, color);
  }

  // ---------------------------------------------------------------------
  // Badge helpers

  datatype Badge = Badge(caption: string, message: string, color: string)

  /** `ShieldsHelper.status`. */
  function StatusBadge(caption: string, status: string): (r: Badge)
    ensures r.caption == caption && r.message == status
    ensures status == "online" ==> r.color == "brightgreen"
    ensures status == "offline" ==> r.color == "red"
    ensures status == "maintenance" ==> r.color == "yellow"
    ensures status == "unknown" ==> r.color == "lightgray"
    ensures status !in {"online", "offline", "maintenance", "unknown"} ==> r.color == "blue"
  {
    var color := match status
      case "online" => "brightgreen"
      case "offline" => "red"
      case "maintenance" => "yellow"
      case "unknown" => "lightgray"
      case _ => "blue";
    Badge(caption, status, color)
  }

  /** Trend arrow and colour; a zero or absent trend changes nothing. */
  function MetricBadge(caption: string, value: string, trend: Option<real>): (r: Badge)
    ensures trend.Some? && trend.value > 0.0 ==> r == Badge(caption, value + " ↗", "brightgreen")
    ensures trend.Some? && trend.value < 0.0 ==> r == Badge(caption, value + " ↘", "red")
    ensures trend.None? || trend.value == 0.0 ==> r == Badge(caption, value, "blue")
  {
    if trend.Some? && trend.value != 0.0 then
      var arrow := if trend.value > 0.0 then "↗" else "↘";
      Badge(caption, value + " " + arrow, if trend.value > 0.0 then "brightgreen" else "red")
    else Badge(caption, value, "blue")
  }

  function PercentageColor(percent: int): string
  {
    if percent >= 90 then "brightgreen"
    else if percent >= 80 then "green"
    else if percent >= 70 then "yellow"
    else if percent >= 50 then "orange"
    else "red"
  }

  /** `ShieldsHelper.percentage`: the message is the number and '%'. */
  function PercentageBadge(caption: string, percent: int): (r: Badge)
    ensures r.message == IntToString(percent) + "%"
    ensures r.color == PercentageColor(percent)
  {
    Badge(caption, IntToString(percent) + "%", PercentageColor(percent))
  }

  /** A higher percentage never gives a more alarming colour. */
  lemma PercentageColorMonotone(a: int, b: int)
    requires a <= b
    ensures ColorRank(PercentageColor(b)) <= ColorRank(PercentageColor(a))
  {
  }

  function RatioColor(ratio: real): string
  {
    if ratio >= 0.9 then "brightgreen" else if ratio >= 0.7 then "green" else if ratio >= 0.5 then "yellow" else "red"
  }

  function CountColor(count: int): string
  {
    if count == 0 then "brightgreen" else if count <= 5 then "yellow" else "red"
  }

  /** `ShieldsHelper.count`. A maximum of 0 is treated like none. */
  function CountBadge(caption: string, count: int, maxCount: Option<int>): (r: Badge)
    ensures maxCount.Some? && maxCount.value != 0 ==>
      r.message == IntToString(count) + "/" + IntToString(maxCount.value)
      && r.color == RatioColor(count as real / maxCount.value as real)
    ensures maxCount.None? || maxCount.value == 0 ==>
      r.message == IntToString(count) && r.color == CountColor(count)
  {
    if maxCount.Some? && maxCount.value != 0 then
      Badge(caption, IntToString(count) + "/" + IntToString(maxCount.value), RatioColor(count as real / maxCount.value as real))
    else Badge(caption, IntToString(count), CountColor(count))
  }

  /** Without a maximum, a count of 0 is the only bright-green count and
      more than five is red. */
  lemma CountColorBands(count: int)
    ensures CountColor(count) == "brightgreen" <==> count == 0
    ensures count > 5 ==> CountColor(count) == "red"
  {
  }

  /** With a maximum, reaching it is bright green. */
  lemma CountAtMaximum(caption: string, n: int)
    requires n > 0
    ensures CountBadge(caption, n, Some(n)).color == "brightgreen"
  {
    var x := n as real;
    assert x / x == 1.0;
  }

  // ---------------------------------------------------------------------
  // Badge sets filled from the dashboard data

  /** The dashboard figures; `None` is a field missing from the reply. */
  datatype Metrics = Metrics(
    successRate: Option<real>, budgetUtilized: Option<real>, riskScore: Option<real>,
    portfolioRoi: Option<int>, securityIncidents: Option<int>, complianceScore: Option<int>,
    highRiskTools: Option<int>, toolsEvaluated: Option<int>, toolsApproved: Option<int>,
    toolsPilot: Option<int>, toolsReview: Option<int>, paybackMonths: Option<int>)

  const NoMetrics := Metrics(None, None, None, None, None, None, None, None, None, None, None, None)

  /** `x || dflt` for a number: a missing or zero figure takes the default. */
  function RealOr(x: Option<real>, dflt: real): (r: real)
    ensures x.Some? && x.value != 0.0 ==> r == x.value
    ensures x.None? || x.value == 0.0 ==> r == dflt
  {
    if x.Some? && x.value != 0.0 then x.value else dflt
  }

  function IntOr(x: Option<int>, dflt: int): (r: int)
    ensures x.Some? && x.value != 0 ==> r == x.value
    ensures x.None? || x.value == 0 ==> r == dflt
  {
    if x.Some? && x.value != 0 then x.value else dflt
  }

  function ExecutiveBadges(m: Metrics): (r: seq<Badge>)
    ensures |r| == 4
    ensures r[0].message == OverallStatus(RealOr(m.successRate, 0.0)) && r[0].color == StatusColor(RealOr(m.successRate, 0.0))
    ensures r[1].message == IntToString(JsRound(RealOr(m.budgetUtilized, 87.0))) + "% Utilized"
      && r[1].color == BudgetColor(RealOr(m.budgetUtilized, 87.0))
    ensures r[2].message == RiskLevel(RealOr(m.riskScore, 2.1)) && r[2].color == RiskColor(RealOr(m.riskScore, 2.1))
    ensures r[3].message == IntToString(IntOr(m.portfolioRoi, 240)) + "%" && r[3].color == "brightgreen"
    ensures r[0].caption == "AI Strategy" && r[1].caption == "Budget"
      && r[2].caption == "Risk Level" && r[3].caption == "Portfolio ROI"
  {
    var rate := RealOr(m.successRate, 0.0);
    var budget := RealOr(m.budgetUtilized, 87.0);
    var risk := RealOr(m.riskScore, 2.1);
    [ Badge("AI Strategy", OverallStatus(rate), StatusColor(rate)),
      Badge("Budget", IntToString(JsRound(budget)) + "% Utilized", BudgetColor(budget)),
      Badge("Risk Level", RiskLevel(risk), RiskColor(risk)),
      Badge("Portfolio ROI", IntToString(IntOr(m.portfolioRoi, 240)) + "%", "brightgreen") ]
  }

  /** With no data at all the executive badges show their defaults: a status
      of "Needs Attention" in red, 87% of budget in yellow, low risk in bright
      green and a 240% return. */
  lemma ExecutiveBadgeDefaults()
    ensures ExecutiveBadges(NoMetrics)[0] == Badge("AI Strategy", "Needs Attention", "red")
    ensures ExecutiveBadges(NoMetrics)[1] == Badge("Budget", "87% Utilized", "yellow")
    ensures ExecutiveBadges(NoMetrics)[2] == Badge("Risk Level", "Low", "brightgreen")
    ensures ExecutiveBadges(NoMetrics)[3] == Badge("Portfolio ROI", "240%", "brightgreen")
  {
    var b := ExecutiveBadges(NoMetrics);
    assert b == [ Badge("AI Strategy", OverallStatus(0.0), StatusColor(0.0)),
                  Badge("Budget", IntToString(JsRound(87.0)) + "% Utilized", BudgetColor(87.0)),
                  Badge("Risk Level", RiskLevel(2.1), RiskColor(2.1)),
                  Badge("Portfolio ROI", IntToString(240) + "%", "brightgreen") ];
    DefaultNumbers();
  }

  lemma DefaultNumbers()
    ensures IntToString(JsRound(87.0)) + "% Utilized" == "87% Utilized"
    ensures IntToString(240) + "%" == "240%"
  {
    assert JsRound(87.0) == 87;
    assert IntToString(87) == "87" by {
      assert NatToString(8) == "8";
    }
    assert IntToString(240) == "240" by {
      assert NatToString(24) == "24" by {
        assert NatToString(2) == "2";
      }
    }
  }

  lemma RegistryNumbers()
    ensures IntToString(173) == "173" && IntToString(42) == "42"
    ensures IntToString(12) == "12" && IntToString(28) == "28"
  {
    assert NatToString(17) == "17" by {
      assert NatToString(1) == "1";
    }
    assert NatToString(4) == "4" && NatToString(1) == "1" && NatToString(2) == "2";
  }

  /** The incidents badge as written: a missing count shows '0' but in red;
      only a count that is explicitly 0 is bright green. */
  function IncidentsBadge(incidents: Option<int>): (r: Badge)
    ensures r.color == "brightgreen" <==> incidents == Some(0)
    ensures incidents.None? ==> r.message == "0" && r.color == "red"
    ensures incidents.Some? ==> r.message == IntToString(incidents.value)
  {
    Badge("Incidents (90d)",
          if incidents.Some? && incidents.value != 0 then IntToString(incidents.value) else "0",
          if incidents == Some(0) then "brightgreen" else "red")
  }

  /** The high-risk-tools badge as written: the count falls back to '1'
      when it is falsy, so an explicit 0 is shown as '1'; the colour tests
      for an explicit 0. */
  function HighRiskToolsBadgeAsWritten(highRisk: Option<int>): (r: Badge)
    ensures highRisk.Some? && highRisk.value != 0 ==> r.message == IntToString(highRisk.value)
    ensures highRisk.None? || highRisk.value == 0 ==> r.message == "1"
    ensures r.color == "brightgreen" <==> highRisk == Some(0)
  {
    Badge("High Risk Tools",
          if highRisk.Some? && highRisk.value != 0 then IntToString(highRisk.value) else "1",
          if highRisk == Some(0) then "brightgreen" else "red")
  }

  /** With no high-risk tools the written badge reads "1" in bright green. */
  lemma HighRiskToolsZeroShownAsOne()
    ensures HighRiskToolsBadgeAsWritten(Some(0)) == Badge("High Risk Tools", "1", "brightgreen")
  {
  }

  /** The high-risk-tools badge showing the count it colours: the default
      '1' only when the figure is missing. */
  function HighRiskToolsBadge(highRisk: Option<int>): (r: Badge)
    ensures highRisk.Some? ==> r.message == IntToString(highRisk.value)
    ensures highRisk.None? ==> r.message == "1"
  {
    Badge("High Risk Tools",
          if highRisk.Some? then IntToString(highRisk.value) else "1",
          if highRisk == Some(0) then "brightgreen" else "red")
  }

  /** The message and the colour agree: bright green exactly when the badge
      reads "0". */
  lemma HighRiskToolsBadgeConsistent(highRisk: Option<int>)
    ensures HighRiskToolsBadge(highRisk).color == "brightgreen" <==> HighRiskToolsBadge(highRisk).message == "0"
  {
    if highRisk.Some? && highRisk.value != 0 {
      var s := IntToString(highRisk.value);
      if highRisk.value > 0 {
        NatToStringValue(highRisk.value);
        assert s != "0";
      }
    }
  }

  function RiskBadges(m: Metrics): (r: seq<Badge>)
    ensures |r| == 4
    ensures r[0].message == RiskLevel(RealOr(m.riskScore, 2.1)) && r[0].color == RiskColor(RealOr(m.riskScore, 2.1))
    ensures r[1] == IncidentsBadge(m.securityIncidents)
    ensures r[2].message == IntToString(IntOr(m.complianceScore, 98)) + "%"
      && r[2].color == ComplianceColor(IntOr(m.complianceScore, 98) as real)
    ensures r[3] == HighRiskToolsBadgeAsWritten(m.highRiskTools)
    ensures r[0].caption == "Overall Risk" && r[2].caption == "Compliance"
  {
    var risk := RealOr(m.riskScore, 2.1);
    var compliance := IntOr(m.complianceScore, 98);
    [ Badge("Overall Risk", RiskLevel(risk), RiskColor(risk)),
      IncidentsBadge(m.securityIncidents),
      Badge("Compliance", IntToString(compliance) + "%", ComplianceColor(compliance as real)),
      HighRiskToolsBadgeAsWritten(m.highRiskTools) ]
  }

  /** The tool registry counts; a missing or zero count shows its default. */
  function ToolRegistryBadges(m: Metrics): (r: seq<Badge>)
    ensures |r| == 4
    ensures forall i :: 0 <= i < 4 ==> r[i].message != "0"
    ensures r[0] == Badge("Total Evaluated", IntToString(IntOr(m.toolsEvaluated, 173)), "blue")
    ensures r[1] == Badge("Approved", IntToString(IntOr(m.toolsApproved, 42)), "brightgreen")
    ensures r[2] == Badge("In Pilot", IntToString(IntOr(m.toolsPilot, 12)), "yellow")
    ensures r[3] == Badge("Under Review", IntToString(IntOr(m.toolsReview, 28)), "orange")
  {
    [ Badge("Total Evaluated", IntToString(IntOr(m.toolsEvaluated, 173)), "blue"),
      Badge("Approved", IntToString(IntOr(m.toolsApproved, 42)), "brightgreen"),
      Badge("In Pilot", IntToString(IntOr(m.toolsPilot, 12)), "yellow"),
      Badge("Under Review", IntToString(IntOr(m.toolsReview, 28)), "orange") ]
  }

  /** A registry count that is given and not zero is shown as it is; with
      no data the four badges show 173, 42, 12 and 28. */
  lemma ToolRegistryBadgeCounts(m: Metrics)
    ensures m.toolsEvaluated.Some? && m.toolsEvaluated.value != 0 ==> ToolRegistryBadges(m)[0].message == IntToString(m.toolsEvaluated.value)
    ensures m.toolsApproved.Some? && m.toolsApproved.value != 0 ==> ToolRegistryBadges(m)[1].message == IntToString(m.toolsApproved.value)
    ensures m.toolsPilot.Some? && m.toolsPilot.value != 0 ==> ToolRegistryBadges(m)[2].message == IntToString(m.toolsPilot.value)
    ensures m.toolsReview.Some? && m.toolsReview.value != 0 ==> ToolRegistryBadges(m)[3].message == IntToString(m.toolsReview.value)
  {
  }

  lemma ToolRegistryBadgeDefaults()
    ensures ToolRegistryBadges(NoMetrics)[0].message == "173"
    ensures ToolRegistryBadges(NoMetrics)[1].message == "42"
    ensures ToolRegistryBadges(NoMetrics)[2].message == "12"
    ensures ToolRegistryBadges(NoMetrics)[3].message == "28"
  {
    RegistryNumbers();
  }

  /** The payback badge of the return-on-investment set. */
  function PaybackBadge(m: Metrics): (r: Badge)
    ensures r.message == IntToString(IntOr(m.paybackMonths, 14)) + " Months"
  {
    Badge("Payback Period", IntToString(IntOr(m.paybackMonths, 14)) + " Months", "blue")
  }

  /** `updateBadgeElements`: every filled badge is drawn in the
      'for-the-badge' style. */
  function BadgeUrl(b: Badge): (r: string)
  {
    ShieldUrl(b.caption, b.message, b.color, ForTheBadge)
  }

  /** A drawn badge ends in the 'for-the-badge' style and nothing else, and
      its path decodes back to the badge when no part holds a '-'. */
  lemma BadgeUrlReadsBack(b: Badge)
    requires '-' !in b.caption && '-' !in b.message && '-' !in b.color
    ensures BadgeUrl(b) == BaseUrl + (BadgePath(b.caption, b.message, b.color) + ['?'] + Query(ForTheBadge))
    ensures Query(ForTheBadge) == "style=for-the-badge"
    ensures var parts := Split(BadgePath(b.caption, b.message, b.color), '-');
      |parts| == 3 && Decode(parts[0]) == Some(b.caption) && Decode(parts[1]) == Some(b.message)
      && Decode(parts[2]) == Some(b.color)
  {
    ShieldUrlParts(b.caption, b.message, b.color, ForTheBadge);
    ForTheBadgeQuery();
    BadgePathReadsBack(b.caption, b.message, b.color);
  }

  lemma ForTheBadgeQuery()
    ensures Query(ForTheBadge) == "style=for-the-badge"
  {
    assert StyleOf(ForTheBadge) == "for-the-badge";
    assert Param("logo", None) == "" && Param("logoColor", None) == "" && Param("labelColor", None) == "";
  }

  /** A badge whose texts are all unreserved characters keeps them as
      they are in its URL. */
  lemma PlainShieldUrl(caption: string, message: string, color: string)
    requires forall i :: 0 <= i < |caption| ==> Unreserved(caption[i])
    requires forall i :: 0 <= i < |message| ==> Unreserved(message[i])
    requires forall i :: 0 <= i < |color| ==> Unreserved(color[i])
    ensures ShieldUrl(caption, message, color, NoOptions)
         == BaseUrl + caption + "-" + message + "-" + color + "?style=flat-square"
  {
    EncodeUnreservedIdentity(caption);
    EncodeUnreservedIdentity(message);
    EncodeUnreservedIdentity(color);
  }

  /** The badge shown for every offline placeholder. */
  lemma OfflineBadge()
    ensures ShieldUrl("Status", "Offline", "lightgray", NoOptions)
         == BaseUrl + "Status" + "-" + "Offline" + "-" + "lightgray" + "?style=flat-square"
  {
    PlainShieldUrl("Status", "Offline", "lightgray");
  }
}
