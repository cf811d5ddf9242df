// The community-pulse agent
// (enterprise-ai-strategy/agents/operational/community_pulse_agent.py): the
// sentiment analysis of a set of satisfaction scores and what
// `process_task` returns.

module CommunityPulse {
  import opened Common
  import opened BaseAgent

  const AgentName := "community_pulse_agent"

  const LowSatisfaction := "Low overall satisfaction requires immediate attention"
  const HighSatisfaction := "High satisfaction indicates successful adoption"

  datatype SentimentAnalysis = SentimentAnalysis(overallSentiment: real, sentimentTrends: map<string, real>,
                                                 keyInsights: seq<string>, actionItems: seq<string>,
                                                 riskAreas: seq<string>)

  /** Python `sum` over the scores, added left to right. */
  function Sum(s: seq<real>): real
  {
    if s == [] then 0.0 else Sum(s[..|s| - 1]) + s[|s| - 1]
  }

  /** The mean score, 0 for no scores: as many means as scores make the
      total. */
  function Mean(s: seq<real>): (r: real)
    ensures s == [] ==> r == 0.0
    ensures s != [] ==> r * |s| as real == Sum(s)
  {
    if s == [] then 0.0 else Sum(s) / |s| as real
  }

  lemma {:induction false} SumBounds(s: seq<real>, lo: real, hi: real)
    requires forall i :: 0 <= i < |s| ==> lo <= s[i] <= hi
    ensures |s| as real * lo <= Sum(s) <= |s| as real * hi
  {
    if s != [] {
      SumBounds(s[..|s| - 1], lo, hi);
    }
  }

  /** The mean of scores on a scale stays on that scale. */
  lemma MeanBounds(s: seq<real>, lo: real, hi: real)
    requires s != []
    requires forall i :: 0 <= i < |s| ==> lo <= s[i] <= hi
    ensures lo <= Mean(s) <= hi
  {
    SumBounds(s, lo, hi);
    var n := |s| as real;
    assert Mean(s) == Sum(s) / n;
    MeanWithin(Sum(s), n, lo, hi);
  }

  /** `analyze_sentiment_data`: the overall score is the mean of the
      satisfaction scores (0 when there are none); below 3 it adds the
      low-satisfaction risk area, above 4 the high-satisfaction insight. */
  method AnalyzeSentimentData(scores: seq<real>) returns (a: SentimentAnalysis)
    ensures a.overallSentiment == Mean(scores)
    ensures a.riskAreas == (if Mean(scores) < 3.0 then [LowSatisfaction] else [])
    ensures a.keyInsights == (if Mean(scores) > 4.0 then [HighSatisfaction] else [])
    ensures a.actionItems == [] && a.sentimentTrends == map[]
  {
    a := SentimentAnalysis(0.0, map[], [], [], []);
    if scores != [] {
      var total := 0.0;
      var i := 0;
      while i < |scores|
        invariant 0 <= i <= |scores|
        invariant total == Sum(scores[..i])
      {
        assert scores[..i + 1][..i] == scores[..i];
        total := total + scores[i];
        i := i + 1;
      }
      assert scores[..i] == scores;
      a := a.(overallSentiment := total / |scores| as real);
    }
    if a.overallSentiment < 3.0 {
      a := a.(riskAreas := a.riskAreas + [LowSatisfaction]);
    } else if a.overallSentiment > 4.0 {
      a := a.(keyInsights := a.keyInsights + [HighSatisfaction]);
    }
  }

  /** The classification the analysis makes: never both a risk and an
      insight, neither between 3 and 4, and no scores count as low. */
  lemma SentimentBands(scores: seq<real>)
    ensures !(Mean(scores) < 3.0 && Mean(scores) > 4.0)
    ensures scores == [] ==> Mean(scores) < 3.0
    ensures (forall i :: 0 <= i < |scores| ==> scores[i] > 4.0) && scores != [] ==> Mean(scores) > 4.0
    ensures (forall i :: 0 <= i < |scores| ==> scores[i] < 3.0) && scores != [] ==> Mean(scores) < 3.0
  {
    if scores != [] {
      var n, m := |scores| as real, Mean(scores);
      var allHigh := forall i :: 0 <= i < |scores| ==> scores[i] > 4.0;
      var allLow := forall i :: 0 <= i < |scores| ==> scores[i] < 3.0;
      if allHigh {
        StrictSumBounds(scores, 4.0, true);
        ScaledCompare(m, n, Sum(scores), 4.0);
        assert m > 4.0;
      }
      if allLow {
        StrictSumBounds(scores, 3.0, false);
        ScaledCompare(m, n, Sum(scores), 3.0);
        assert m < 3.0;
      }
    }
  }

  /** Comparing a mean with a bound is comparing the total with the bound
      scaled by the count. */
  lemma ScaledCompare(m: real, n: real, total: real, b: real)
    requires n > 0.0 && m * n == total
    ensures total > n * b ==> m > b
    ensures total < n * b ==> m < b
  {
    if m <= b {
      assert (b - m) * n >= 0.0;
    }
    if m >= b {
      assert (m - b) * n >= 0.0;
    }
  }

  /** Every score strictly above (or below) `b` puts the sum strictly above
      (or below) `|s| * b`. */
  lemma {:induction false} StrictSumBounds(s: seq<real>, b: real, above: bool)
    requires s != []
    requires above ==> forall i :: 0 <= i < |s| ==> s[i] > b
    requires !above ==> forall i :: 0 <= i < |s| ==> s[i] < b
    ensures above ==> Sum(s) > |s| as real * b
    ensures !above ==> Sum(s) < |s| as real * b
  {
    if |s| > 1 {
      StrictSumBounds(s[..|s| - 1], b, above);
    }
  }

  // ---------------------------------------------------------------------
  // Processing a task

  /** The entries of the context the agent reads; None stands for a
      missing entry (or a missing context). */
  datatype PulseContext = PulseContext(analysisType: Option<string>, timePeriod: Option<string>,
                                       focusAreas: Option<seq<string>>)

  function ErrorReply(task: string, message: string, now: int): AgentResponse
  {
    CreateResponse(AgentName, task, "Error during community pulse analysis: " + message, None, Some("error"),
                   Some(0.0), now)
  }

  /** `process_task`: comprehensive / last_30_days / satisfaction and
      engagement by default, confidence 0.83, a population of 1000. */
  function ProcessTask(task: string, ctx: PulseContext, generation: Generation, now: int): (r: AgentResponse)
    ensures r.agentName == AgentName && r.task == task && r.timestamp == now
    ensures r.status == "error" <==> generation.GenerationRaised?
    ensures generation.GenerationRaised? ==>
      r.content == "Error during community pulse analysis: " + generation.error && r.confidence == 0.0
    ensures generation.Generated? ==>
      r.status == "success" && r.content == generation.text && r.confidence == 0.83
      && r.metadata.Keys == {"analysis_type", "time_period", "focus_areas", "analysis_date", "developer_population"}
      && r.metadata["analysis_type"] == MText(if ctx.analysisType.Some? then ctx.analysisType.value else "comprehensive")
      && r.metadata["time_period"] == MText(if ctx.timePeriod.Some? then ctx.timePeriod.value else "last_30_days")
      && r.metadata["focus_areas"] == MItems(if ctx.focusAreas.Some? then ctx.focusAreas.value else ["satisfaction", "engagement"])
      && r.metadata["developer_population"] == MInt(1000)
  {
    var analysisType := if ctx.analysisType.Some? then ctx.analysisType.value else "comprehensive";
    var timePeriod := if ctx.timePeriod.Some? then ctx.timePeriod.value else "last_30_days";
    var focusAreas := if ctx.focusAreas.Some? then ctx.focusAreas.value else ["satisfaction", "engagement"];
    match generation
      case GenerationRaised(e) => ErrorReply(task, e, now)
      case Generated(text) =>
        var meta := map["analysis_type" := MText(analysisType), "time_period" := MText(timePeriod),
                        "focus_areas" := MItems(focusAreas), "analysis_date" := MInt(now),
                        "developer_population" := MInt(1000)];
        CreateResponse(AgentName, task, text, Some(meta), None, Some(0.83), now)
  }
}
