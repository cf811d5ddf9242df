// The risk-assessment agent
// (enterprise-ai-strategy/agents/market_intelligence/risk_assessment_agent.py):
// the security and compliance pre-assessments of a tool and what
// `process_task` returns.

module RiskAssessment {
  import opened Common
  import opened BaseAgent

  const AgentName := "risk_assessment_agent"

  /** `risk_categories`' keys, in the dictionary's order. */
  const RiskCategories := ["security", "compliance", "operational", "financial", "legal"]

  /** What the assessment reads of the tool's GitHub data; None stands for
      a missing entry. */
  datatype GithubData = GithubData(openIssues: Option<int>, license: Option<string>)

  datatype SecurityAssessment = SecurityAssessment(overallRisk: string, riskFactors: seq<string>,
                                                   mitigationStrategies: seq<string>,
                                                   monitoringRequirements: seq<string>)

  const ManyOpenIssues := "High number of open issues may indicate security vulnerabilities"
  const NoLicense := "No clear license may create legal and security risks"
  const NotUpdated := "Tool not updated in over 90 days - potential security risk"

  /** More than 50 open issues (a missing count is 0). */
  predicate ManyIssues(g: GithubData)
  {
    g.openIssues.Some? && g.openIssues.value > 50
  }

  /** `assess_security_risks`: the risk factors are appended in rule
      order. `stale` says whether `updated_at` parsed and lies more than 90
      days back (the clock is not modelled). */
  method AssessSecurityRisks(g: GithubData, stale: bool) returns (a: SecurityAssessment)
    ensures a.overallRisk == "Medium"
    ensures a.riskFactors == (if ManyIssues(g) then [ManyOpenIssues] else [])
                             + (if !Truthy(g.license) then [NoLicense] else [])
                             + (if stale then [NotUpdated] else [])
    ensures ManyOpenIssues in a.riskFactors <==> ManyIssues(g)
    ensures NoLicense in a.riskFactors <==> !Truthy(g.license)
    ensures a.mitigationStrategies == [] && a.monitoringRequirements == []
  {
    a := SecurityAssessment("Medium", [], [], []);
    if ManyIssues(g) {
      a := a.(riskFactors := a.riskFactors + [ManyOpenIssues]);
    }
    if !Truthy(g.license) {
      a := a.(riskFactors := a.riskFactors + [NoLicense]);
    }
    if stale {
      a := a.(riskFactors := a.riskFactors + [NotUpdated]);
    }
  }

  datatype ComplianceAssessment = ComplianceAssessment(gdprRisk: string, soc2Status: string, hipaaStatus: string,
                                                       complianceGaps: seq<string>, requiredAssessments: seq<string>)

  const ComplianceGaps: seq<string> :=
    ["SOC 2 Type II certification status unknown",
     "GDPR compliance documentation not verified",
     "Data processing agreements not reviewed",
     "Insurance industry regulatory compliance not assessed"]
  const RequiredAssessments: seq<string> :=
    ["Conduct SOC 2 audit review",
     "Request GDPR compliance documentation",
     "Review data processing and storage practices",
     "Assess insurance industry regulatory alignment"]

  /** `assess_compliance_risks`: the same unknown statuses, four gaps and
      four required assessments for every tool. */
  function AssessComplianceRisks(g: GithubData): (r: ComplianceAssessment)
    ensures r.gdprRisk == "Unknown" && r.soc2Status == "Unknown" && r.hipaaStatus == "Unknown"
    ensures |r.complianceGaps| == 4 && |r.requiredAssessments| == 4
    ensures r.complianceGaps == ComplianceGaps && r.requiredAssessments == RequiredAssessments
  {
    ComplianceAssessment("Unknown", "Unknown", "Unknown", ComplianceGaps, RequiredAssessments)
  }

  lemma ComplianceIgnoresTool(g: GithubData, h: GithubData)
    ensures AssessComplianceRisks(g) == AssessComplianceRisks(h)
  {
  }

  // ---------------------------------------------------------------------
  // Processing a task

  /** The entries of the context the agent reads; a missing context
      reads as `RiskContext("", None)`. */
  datatype RiskContext = RiskContext(toolName: string, riskCategories: Option<seq<string>>)

  const MissingToolName := "Tool name is required for risk assessment"

  function ErrorReply(task: string, message: string, now: int): AgentResponse
  {
    CreateResponse(AgentName, task, "Error during risk assessment: " + message, None, Some("error"), Some(0.0), now)
  }

  /** The categories assessed: the caller's, or all five. */
  function CategoriesOf(ctx: RiskContext): (r: seq<string>)
    ensures ctx.riskCategories.None? ==> r == RiskCategories
    ensures ctx.riskCategories.Some? ==> r == ctx.riskCategories.value
  {
    if ctx.riskCategories.Some? then ctx.riskCategories.value else RiskCategories
  }

  /** `process_task` as written: after the assessment call, the metadata
      asks the returned text for `overall_risk_level`, which raises, so
      the agent only ever returns error responses. */
  function ProcessTaskAsWritten(task: string, ctx: RiskContext, generation: Generation, now: int): (r: AgentResponse)
    ensures r.agentName == AgentName && r.task == task
  {
    if ctx.toolName == "" then ErrorReply(task, MissingToolName, now)
    else match generation
      case GenerationRaised(e) => ErrorReply(task, e, now)
      case Generated(_) => ErrorReply(task, StrHasNoGet, now)
  }

  lemma AssessmentAlwaysFails(task: string, ctx: RiskContext, generation: Generation, now: int)
    ensures ProcessTaskAsWritten(task, ctx, generation, now).status == "error"
    ensures ProcessTaskAsWritten(task, ctx, generation, now).confidence == 0.0
    ensures ctx.toolName != "" && generation.Generated? ==>
      ProcessTaskAsWritten(task, ctx, generation, now).content == "Error during risk assessment: " + StrHasNoGet
  {
  }

  /** `process_task` as intended: an empty tool name is refused, a failed
      call is reported, and otherwise the page is returned with confidence
      0.85 and the default risk level Medium. */
  function ProcessTask(task: string, ctx: RiskContext, generation: Generation, now: int): (r: AgentResponse)
    ensures r.agentName == AgentName && r.task == task && r.timestamp == now
    ensures r.status == "error" <==> ctx.toolName == "" || generation.GenerationRaised?
    ensures r.status == "error" ==> r.confidence == 0.0 && r.metadata == map[]
    ensures ctx.toolName == "" ==> r.content == "Error during risk assessment: " + MissingToolName
    ensures r.status != "error" ==>
      r.status == "success" && r.content == generation.text && r.confidence == 0.85
      && r.metadata.Keys == {"tool_name", "assessment_date", "risk_categories", "overall_risk_level"}
      && r.metadata["tool_name"] == MText(ctx.toolName)
      && r.metadata["risk_categories"] == MItems(CategoriesOf(ctx))
      && r.metadata["overall_risk_level"] == MText("Medium")
  {
    if ctx.toolName == "" then ErrorReply(task, MissingToolName, now)
    else match generation
      case GenerationRaised(e) => ErrorReply(task, e, now)
      case Generated(text) =>
        var meta := map["tool_name" := MText(ctx.toolName), "assessment_date" := MInt(now),
                        "risk_categories" := MItems(CategoriesOf(ctx)), "overall_risk_level" := MText("Medium")];
        CreateResponse(AgentName, task, text, Some(meta), None, Some(0.85), now)
  }

  /** The two agree whenever the request fails before the metadata is
      read, and differ on every call that succeeds. */
  lemma CorrectedAgreesOnFailure(task: string, ctx: RiskContext, generation: Generation, now: int)
    ensures ctx.toolName == "" || generation.GenerationRaised? ==>
      ProcessTask(task, ctx, generation, now) == ProcessTaskAsWritten(task, ctx, generation, now)
    ensures ctx.toolName != "" && generation.Generated? ==>
      ProcessTask(task, ctx, generation, now).status != ProcessTaskAsWritten(task, ctx, generation, now).status
  {
  }
}
