// The executive-briefing agent
// (enterprise-ai-strategy/agents/operational/executive_briefing_agent.py):
// the briefing outline, the supporting-data summary quoted to the language
// model, the urgency badge colour, and what `process_task` returns.

module ExecutiveBriefing {
  import opened Common
  import opened BaseAgent

  const AgentName := "executive_briefing_agent"

  datatype BriefingTemplate = BriefingTemplate(description: string, frequency: string, sections: seq<string>,
                                               length: string, audience: string)

  /** `briefing_types`. */
  const BriefingTypes: map<string, BriefingTemplate> := map[
    "strategic_update" := BriefingTemplate("Regular strategic progress and status update", "Monthly",
      ["Executive Summary", "Key Achievements", "Strategic Metrics", "Issues and Risks", "Resource Requirements",
       "Next Actions"], "2 pages", "C-Suite, VPs, Directors"),
    "tool_position" := BriefingTemplate("Position paper on specific AI tool evaluation", "As needed",
      ["Tool Overview", "Strategic Fit", "Business Case", "Risk Assessment", "Implementation Plan", "Recommendation"],
      "3-4 pages", "Technology leaders, Procurement, Finance"),
    "market_intelligence" := BriefingTemplate("AI tool market landscape and competitive analysis", "Quarterly",
      ["Market Overview", "Key Trends", "Competitive Positioning", "Opportunities", "Threats",
       "Strategic Implications"], "4-5 pages", "Strategic planning, Technology leadership"),
    "investment_review" := BriefingTemplate("Investment performance and optimization analysis", "Quarterly",
      ["Investment Summary", "ROI Analysis", "Performance Metrics", "Cost Optimization", "Future Investment Plans"],
      "3 pages", "Finance, Budget committee, C-Suite"),
    "risk_alert" := BriefingTemplate("Critical risk identification and mitigation", "As needed",
      ["Risk Summary", "Impact Assessment", "Mitigation Strategies", "Resource Requirements", "Timeline",
       "Escalation Plan"], "2 pages", "Risk committee, C-Suite, Legal")
  ]

  const DefaultType := "strategic_update"

  // ---------------------------------------------------------------------
  // The outline

  datatype BriefingOutline = BriefingOutline(briefingType: string, topic: string, template: BriefingTemplate,
                                             sections: seq<string>, targetLength: string, targetAudience: string,
                                             keyMessages: seq<string>, supportingData: seq<string>,
                                             recommendations: seq<string>)

  /** The type a briefing is written as: the requested one when the table
      has it, strategic_update otherwise. */
  function EffectiveType(briefingType: string): (r: string)
    ensures r in BriefingTypes
    ensures briefingType in BriefingTypes ==> r == briefingType
    ensures briefingType !in BriefingTypes ==> r == DefaultType
  {
    if briefingType in BriefingTypes then briefingType else DefaultType
  }

  /** `create_briefing_outline`: the effective type's template with its
      sections, length and audience, and nothing written yet. */
  function CreateBriefingOutline(briefingType: string, topic: string): (r: BriefingOutline)
    ensures r.briefingType in BriefingTypes
    ensures r.briefingType == (if briefingType in BriefingTypes then briefingType else DefaultType)
    ensures r.topic == topic && r.template == BriefingTypes[r.briefingType]
    ensures r.sections == r.template.sections && r.targetLength == r.template.length
    ensures r.targetAudience == r.template.audience
    ensures r.keyMessages == [] && r.supportingData == [] && r.recommendations == []
  {
    var t := EffectiveType(briefingType);
    var template := BriefingTypes[t];
    BriefingOutline(t, topic, template, template.sections, template.length, template.audience, [], [], [])
  }

  /** Falling back is idempotent: outlining with the type an outline ended
      up with gives the same outline. */
  lemma OutlineFallbackIdempotent(briefingType: string, topic: string)
    ensures CreateBriefingOutline(CreateBriefingOutline(briefingType, topic).briefingType, topic)
            == CreateBriefingOutline(briefingType, topic)
    ensures briefingType !in BriefingTypes ==>
      CreateBriefingOutline(briefingType, topic) == CreateBriefingOutline(DefaultType, topic)
  {
  }

  // ---------------------------------------------------------------------
  // The supporting-data summary

  /** A value of the supporting data: an integer, a boolean (which Python
      counts as an integer), a float, or any other value as its `str()`.
      A float is given by its shortest fixed-point repr: the sign, the
      whole part and the digits after the point. */
  datatype DataValue = DInt(n: int) | DFlag(flag: bool)
                     | DFloat(negative: bool, whole: nat, fraction: string) | DText(text: string)

  /** The supporting data in the dictionary's order. */
  type SupportingData = seq<(string, DataValue)>

  /** `f"{n:,}"` for any integer. */
  function GroupedInt(n: int): (r: string)
    ensures |r| >= 1
    ensures n < 0 <==> r[0] == '-'
    ensures Filter(r, NotComma) == IntToString(n)
  {
    var m := if n < 0 then -n else n;
    GroupThousandsDigits(m);
    SignedNumber(SignText(n < 0), GroupThousands(m), NatToString(m));
    assert IntToString(n) == SignText(n < 0) + NatToString(m);
    SignText(n < 0) + GroupThousands(m)
  }

  function SignText(negative: bool): (r: string)
    ensures NoComma(r) && |r| <= 1 && (negative <==> r == "-")
  {
    if negative then "-" else ""
  }

  predicate NoComma(s: string)
  {
    forall i :: 0 <= i < |s| ==> s[i] != ','
  }

  lemma SignedNumber(sign: string, grouped: string, digits: string)
    requires NoComma(sign) && Filter(grouped, NotComma) == digits
    ensures Filter(sign + grouped, NotComma) == sign + digits
  {
    FilterConcat(sign, grouped, NotComma);
    FilterAll(sign, NotComma);
  }

  /** Dropping the commas of a sign, a grouped number and a comma-free
      tail keeps the sign and the tail. */
  lemma SignedDigits(sign: string, grouped: string, digits: string, tail: string)
    requires NoComma(sign) && NoComma(tail) && Filter(grouped, NotComma) == digits
    ensures Filter(sign + grouped + tail, NotComma) == sign + digits + tail
  {
    FilterConcat(sign, grouped, NotComma);
    FilterConcat(sign + grouped, tail, NotComma);
    FilterAll(sign, NotComma);
    FilterAll(tail, NotComma);
  }

  /** `f"{x:,}"` for a float in fixed-point notation: the whole part is
      grouped by thousands and the digits after the point are kept. */
  function GroupedFloat(negative: bool, whole: nat, fraction: string): (r: string)
    ensures |r| > |SignText(negative)| && r[..|SignText(negative)|] == SignText(negative)
    ensures NoComma(fraction) ==>
      Filter(r, NotComma) == SignText(negative) + NatToString(whole) + ("." + fraction)
  {
    var sign, grouped, tail := SignText(negative), GroupThousands(whole), "." + fraction;
    if NoComma(fraction) then
      GroupThousandsDigits(whole);
      PointNoComma(fraction);
      SignedDigits(sign, grouped, NatToString(whole), tail);
      sign + grouped + tail
    else sign + grouped + tail
  }

  lemma PointNoComma(fraction: string)
    requires NoComma(fraction)
    ensures NoComma("." + fraction)
  {
    assert forall k :: 1 <= k < |"." + fraction| ==> ("." + fraction)[k] == fraction[k - 1];
  }

  /** The value as the entry shows it: numbers grouped by thousands (the
      digits are the number's own), a boolean as the integer it is, any
      other value as it is. */
  function ValueText(v: DataValue): (r: string)
    ensures v.DInt? ==> Filter(r, NotComma) == IntToString(v.n)
    ensures v.DFlag? ==> r == if v.flag then "1" else "0"
    ensures v.DFloat? && NoComma(v.fraction) ==>
      Filter(r, NotComma) == SignText(v.negative) + NatToString(v.whole) + ("." + v.fraction)
    ensures v.DText? ==> r == v.text
  {
    match v
      case DInt(n) => GroupedInt(n)
      case DFlag(b) => if b then "1" else "0"
      case DFloat(negative, whole, fraction) => GroupedFloat(negative, whole, fraction)
      case DText(t) => t
  }

  /** One `key: value` entry: the key, ": " and the value's text. */
  function DataPoint(key: string, v: DataValue): (r: string)
    ensures |r| == |key| + 2 + |ValueText(v)|
    ensures forall i :: 0 <= i < |key| ==> r[i] == key[i]
    ensures r[|key|] == ':' && r[|key| + 1] == ' '
    ensures forall i :: 0 <= i < |ValueText(v)| ==> r[|key| + 2 + i] == ValueText(v)[i]
  {
    key + ": " + ValueText(v)
  }

  function DataPoints(data: SupportingData): (r: seq<string>)
    ensures |r| == |data|
    ensures forall i :: 0 <= i < |data| ==> r[i] == DataPoint(data[i].0, data[i].1)
  {
    if data == [] then [] else [DataPoint(data[0].0, data[0].1)] + DataPoints(data[1..])
  }

  const NoData := "No specific data provided"

  /** The supporting-data summary: the fixed notice for no data, every
      entry's point in order otherwise, separated by ", ". */
  method SummarizeSupportingData(data: SupportingData) returns (summary: string)
    ensures data == [] ==> summary == NoData
    ensures data != [] ==> summary == Join(DataPoints(data), ", ")
    ensures summary == Summary(data)
  {
    summary := NoData;
    if data != [] {
      var points: seq<string> := [];
      var i := 0;
      while i < |data|
        invariant 0 <= i <= |data|
        invariant points == DataPoints(data[..i])
      {
        PointsStep(data, i);
        points := points + [DataPoint(data[i].0, data[i].1)];
        i := i + 1;
      }
      assert data[..|data|] == data;
      summary := Join(points, ", ");
    }
  }

  lemma PointsStep(data: SupportingData, i: nat)
    requires i < |data|
    ensures DataPoints(data[..i + 1]) == DataPoints(data[..i]) + [DataPoint(data[i].0, data[i].1)]
  {
    assert data[..i + 1] == data[..i] + [data[i]];
    DataPointsAppend(data[..i], data[i]);
  }

  lemma {:induction false} DataPointsAppend(data: SupportingData, x: (string, DataValue))
    ensures DataPoints(data + [x]) == DataPoints(data) + [DataPoint(x.0, x.1)]
  {
    if data != [] {
      assert (data + [x])[1..] == data[1..] + [x];
      DataPointsAppend(data[1..], x);
    } else {
      assert data + [x] == [x];
    }
  }

  /** The supporting-data summary: the fixed notice exactly when there is
      no data (every point has a ':', the notice none), and otherwise a
      text that opens with the first entry's point. */
  function Summary(data: SupportingData): (r: string)
    ensures r == NoData <==> data == []
    ensures data != [] ==>
      |r| >= |DataPoint(data[0].0, data[0].1)|
      && r[..|DataPoint(data[0].0, data[0].1)|] == DataPoint(data[0].0, data[0].1)
  {
    if data == [] then NoData
    else
      var points := DataPoints(data);
      JoinPrefix(points, ", ");
      NoticeHasNoColon(Join(points, ", "), points[0], |data[0].0|);
      Join(points, ", ")
  }

  lemma NoticeHasNoColon(r: string, first: string, k: nat)
    requires |r| >= |first| && r[..|first|] == first && k < |first| && first[k] == ':'
    ensures r != NoData
  {
    assert r[k] == ':';
    assert forall i :: 0 <= i < |NoData| ==> NoData[i] != ':';
  }

  lemma JoinPrefix(xs: seq<string>, sep: string)
    requires xs != []
    ensures |Join(xs, sep)| >= |xs[0]| && Join(xs, sep)[..|xs[0]|] == xs[0]
  {
    if |xs| > 1 {
      assert Join(xs, sep) == xs[0] + (sep + Join(xs[1..], sep));
    }
  }

  /** The summary of two non-empty parts is their summaries joined by ", ";
      one entry is summarised as its own point. */
  lemma {:induction false} SummaryAppend(a: SupportingData, b: SupportingData)
    requires a != [] && b != []
    ensures Summary(a + b) == Summary(a) + ", " + Summary(b)
  {
    DataPointsConcat(a, b);
    JoinAppend(DataPoints(a), DataPoints(b), ", ");
  }

  lemma {:induction false} DataPointsConcat(a: SupportingData, b: SupportingData)
    ensures DataPoints(a + b) == DataPoints(a) + DataPoints(b)
  {
    if a == [] {
      assert a + b == b;
    } else {
      assert (a + b)[1..] == a[1..] + b;
      DataPointsConcat(a[1..], b);
    }
  }

  /** A boolean is shown as 1 or 0, a thousand as "1,000" and 1234.5 as
      "1,234.5". */
  lemma NumberFormatting()
    ensures ValueText(DFlag(true)) == "1"
    ensures ValueText(DInt(1000)) == "1,000"
    ensures ValueText(DFloat(false, 1234, "5")) == "1,234.5"
  {
    Thousand();
    GroupedExample();
  }

  lemma Thousand()
    ensures GroupedInt(1000) == "1,000"
  {
    assert GroupThousands(1000) == GroupThousands(1) + "," + Pad3(0);
    assert GroupThousands(1) == "1";
    assert Pad3(0) == "000";
  }

  lemma GroupedExample()
    ensures GroupedFloat(false, 1234, "5") == "1,234.5"
  {
    GroupedThousandsExample();
    FloatText(false, 1234, "5");
  }

  lemma GroupedThousandsExample()
    ensures GroupThousands(1234) == "1,234"
  {
    assert GroupThousands(1234) == GroupThousands(1) + "," + Pad3(234);
    assert GroupThousands(1) == "1";
    Pad3Example();
  }

  lemma Pad3Example()
    ensures Pad3(234) == "234"
  {
    assert DigitChar(2) == '2' && DigitChar(3) == '3' && DigitChar(4) == '4';
  }

  lemma FloatText(negative: bool, whole: nat, fraction: string)
    ensures GroupedFloat(negative, whole, fraction) == SignText(negative) + GroupThousands(whole) + ("." + fraction)
  {
  }

  // ---------------------------------------------------------------------
  // The urgency badge

  /** `urgency_colors.get(urgency, "blue")`. */
  function UrgencyColor(urgency: string): (r: string)
    ensures urgency == "critical" ==> r == "red"
    ensures urgency == "high" ==> r == "orange"
    ensures urgency == "low" ==> r == "green"
    ensures urgency != "critical" && urgency != "high" && urgency != "low" ==> r == "blue"
  {
    if urgency == "critical" then "red"
    else if urgency == "high" then "orange"
    else if urgency == "normal" then "blue"
    else if urgency == "low" then "green"
    else "blue"
  }

  /** The four named urgencies get four different colours, and an unknown
      urgency looks like a normal one. */
  lemma UrgencyColorsDistinct(u: string, v: string)
    requires u in {"critical", "high", "normal", "low"} && v in {"critical", "high", "normal", "low"}
    ensures UrgencyColor(u) == UrgencyColor(v) <==> u == v
    ensures UrgencyColor(u) == "blue" <==> u == "normal"
  {
  }

  // ---------------------------------------------------------------------
  // Processing a task

  /** The entries of the context the agent reads; None stands for a
      missing entry (or a missing context). */
  datatype BriefingContext = BriefingContext(briefingType: Option<string>, topic: Option<string>,
                                             urgency: Option<string>, audience: Option<string>,
                                             supportingData: Option<SupportingData>)

  function ErrorReply(task: string, message: string, now: int): AgentResponse
  {
    CreateResponse(AgentName, task, "Error during briefing creation: " + message, None, Some("error"), Some(0.0), now)
  }

  /** `process_task`: strategic_update / AI Strategy Update / normal /
      executive_team by default; the metadata keeps the requested type (not
      the fallback) and counts the generated briefing's words. */
  function ProcessTask(task: string, ctx: BriefingContext, generation: Generation, now: int): (r: AgentResponse)
    ensures r.agentName == AgentName && r.task == task && r.timestamp == now
    ensures r.status == "error" <==> generation.GenerationRaised?
    ensures generation.GenerationRaised? ==>
      r.content == "Error during briefing creation: " + generation.error && r.confidence == 0.0
    ensures generation.Generated? ==>
      r.status == "success" && r.content == generation.text && r.confidence == 0.91
      && r.metadata.Keys == {"briefing_type", "topic", "urgency", "audience", "creation_date", "word_count"}
      && r.metadata["briefing_type"] == MText(OrDefault(ctx.briefingType, DefaultType))
      && r.metadata["topic"] == MText(OrDefault(ctx.topic, "AI Strategy Update"))
      && r.metadata["urgency"] == MText(OrDefault(ctx.urgency, "normal"))
      && r.metadata["audience"] == MText(OrDefault(ctx.audience, "executive_team"))
      && r.metadata["word_count"] == MInt(WordCount(generation.text))
  {
    match generation
      case GenerationRaised(e) => ErrorReply(task, e, now)
      case Generated(text) =>
        var meta := map["briefing_type" := MText(OrDefault(ctx.briefingType, DefaultType)),
                        "topic" := MText(OrDefault(ctx.topic, "AI Strategy Update")),
                        "urgency" := MText(OrDefault(ctx.urgency, "normal")),
                        "audience" := MText(OrDefault(ctx.audience, "executive_team")),
                        "creation_date" := MInt(now), "word_count" := MInt(WordCount(text))];
        CreateResponse(AgentName, task, text, Some(meta), None, Some(0.91), now)
  }
}
