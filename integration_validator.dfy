// The integration-validator agent
// (enterprise-ai-strategy/agents/operational/integration_validator_agent.py):
// which integration test categories a tool type gets, the test plan built
// from them, and what `process_task` returns.

module IntegrationValidator {
  import opened Common
  import opened BaseAgent

  const AgentName := "integration_validator_agent"

  datatype TestInfo = TestInfo(description: string, criteria: seq<string>)

  /** `integration_tests`. */
  const IntegrationTests: map<string, TestInfo> := map[
    "authentication" := TestInfo("Single Sign-On and identity integration",
      ["SSO compatibility with Active Directory/Okta", "Multi-factor authentication support",
       "User provisioning and deprovisioning", "Role-based access control integration"]),
    "development_workflow" := TestInfo("Integration with existing development tools",
      ["IDE plugin compatibility", "Git workflow integration", "CI/CD pipeline integration",
       "Code review process compatibility"]),
    "enterprise_security" := TestInfo("Security and compliance integration",
      ["Corporate firewall and proxy compatibility", "Data loss prevention (DLP) compliance",
       "Audit logging and monitoring", "Secrets management integration"]),
    "data_integration" := TestInfo("Data platform and ETL integration",
      ["Database connectivity and drivers", "ETL tool plugin compatibility", "Data pipeline integration",
       "Analytics platform connectivity"]),
    "infrastructure" := TestInfo("Container and orchestration integration",
      ["Container image compatibility", "Kubernetes deployment support", "Helm chart availability",
       "Service mesh integration"]),
    "monitoring" := TestInfo("Observability and monitoring integration",
      ["Metrics export and monitoring", "Log format and shipping", "Distributed tracing support",
       "Health check endpoints"])
  ]

  /** The table's keys in the dictionary's order. */
  const CategoryOrder := ["authentication", "development_workflow", "enterprise_security",
                          "data_integration", "infrastructure", "monitoring"]

  /** The tool types of each narrowed selection. */
  predicate EditorType(t: string) { t == "ide" || t == "editor" || t == "coding_assistant" }
  predicate DataType(t: string) { t == "data_tool" || t == "analytics" }
  predicate InfrastructureType(t: string) { t == "infrastructure" || t == "deployment" }

  /** The categories a tool type is tested in: authentication, one
      type-specific category, security and monitoring for the three known
      families, every category in table order for any other type. */
  function SelectCategories(toolType: string): (r: seq<string>)
    ensures |r| == 4 || |r| == 6
    ensures r[0] == "authentication" && r[2] == "enterprise_security" && r[|r| - 1] == "monitoring"
    ensures forall i :: 0 <= i < |r| ==> r[i] in IntegrationTests
    ensures EditorType(toolType) ==> |r| == 4 && r[1] == "development_workflow"
    ensures !EditorType(toolType) && DataType(toolType) ==> |r| == 4 && r[1] == "data_integration"
    ensures !EditorType(toolType) && !DataType(toolType) && InfrastructureType(toolType) ==>
      |r| == 4 && r[1] == "infrastructure"
    ensures !EditorType(toolType) && !DataType(toolType) && !InfrastructureType(toolType) ==> r == CategoryOrder
  {
    if EditorType(toolType) then ["authentication", "development_workflow", "enterprise_security", "monitoring"]
    else if DataType(toolType) then ["authentication", "data_integration", "enterprise_security", "monitoring"]
    else if InfrastructureType(toolType) then ["authentication", "infrastructure", "enterprise_security", "monitoring"]
    else CategoryOrder
  }

  /** The number of categories the table holds. */
  const CategoryCount := 6

  /** The order list holds exactly the table's six categories. */
  lemma CategoryOrderIsTable()
    ensures IntegrationTests.Keys == {"authentication", "development_workflow", "enterprise_security",
                                      "data_integration", "infrastructure", "monitoring"}
    ensures |IntegrationTests| == CategoryCount
    ensures forall i :: 0 <= i < |CategoryOrder| ==> CategoryOrder[i] in IntegrationTests
  {
    var keys := {"authentication", "development_workflow", "enterprise_security",
                 "data_integration", "infrastructure", "monitoring"};
    assert IntegrationTests.Keys == keys;
    SixDistinct("authentication", "development_workflow", "enterprise_security",
                "data_integration", "infrastructure", "monitoring");
  }

  lemma SixDistinct(a: string, b: string, c: string, d: string, e: string, f: string)
    requires a != b && a != c && a != d && a != e && a != f
    requires b != c && b != d && b != e && b != f
    requires c != d && c != e && c != f
    requires d != e && d != f && e != f
    ensures |{a, b, c, d, e, f}| == 6
  {
    var k5 := {a, b, c, d, e, f} - {f};
    var k4 := k5 - {e};
    var k3 := k4 - {d};
    var k2 := k3 - {c};
    var k1 := k2 - {b};
    assert k5 == {a, b, c, d, e};
    assert k4 == {a, b, c, d};
    assert k3 == {a, b, c};
    assert k2 == {a, b};
    assert k1 == {a};
  }

  datatype TestPhase = TestPhase(category: string, description: string, criteria: seq<string>,
                                 duration: string, dependencies: seq<string>)

  datatype TestPlan = TestPlan(toolName: string, toolType: string, testPhases: seq<TestPhase>,
                               successCriteria: map<string, string>, riskAreas: seq<string>, timeline: string)

  /** The phase that tests one category: named after it, with its
      description and criteria, three to five days and no dependencies. */
  function PhaseFor(category: string): (r: TestPhase)
    requires category in IntegrationTests
    ensures r.category == category && r.duration == "3-5 days" && r.dependencies == []
    ensures r.description == IntegrationTests[category].description
      && r.criteria == IntegrationTests[category].criteria
  {
    TestPhase(category, IntegrationTests[category].description, IntegrationTests[category].criteria, "3-5 days", [])
  }

  /** `design_integration_test_plan`: one phase per selected category,
      appended in selection order. */
  method DesignIntegrationTestPlan(toolName: string, toolType: string) returns (plan: TestPlan)
    ensures plan.toolName == toolName && plan.toolType == toolType && plan.timeline == "2-4 weeks"
    ensures plan.successCriteria == map[] && plan.riskAreas == []
    ensures |plan.testPhases| == |SelectCategories(toolType)|
    ensures forall i :: 0 <= i < |plan.testPhases| ==>
      var c := SelectCategories(toolType)[i];
      plan.testPhases[i] == TestPhase(c, IntegrationTests[c].description, IntegrationTests[c].criteria, "3-5 days", [])
    ensures plan.testPhases[0].category == "authentication"
    ensures plan.testPhases[2].category == "enterprise_security"
    ensures plan.testPhases[|plan.testPhases| - 1].category == "monitoring"
  {
    plan := TestPlan(toolName, toolType, [], map[], [], "2-4 weeks");
    var relevant := SelectCategories(toolType);
    var i := 0;
    while i < |relevant|
      invariant 0 <= i <= |relevant|
      invariant plan.toolName == toolName && plan.toolType == toolType && plan.timeline == "2-4 weeks"
      invariant plan.successCriteria == map[] && plan.riskAreas == []
      invariant |plan.testPhases| == i
      invariant forall j :: 0 <= j < i ==> plan.testPhases[j] == PhaseFor(relevant[j])
    {
      var info := IntegrationTests[relevant[i]];
      plan := plan.(testPhases := plan.testPhases + [TestPhase(relevant[i], info.description, info.criteria, "3-5 days", [])]);
      i := i + 1;
    }
  }

  // ---------------------------------------------------------------------
  // Processing a task

  /** The entries of the context the agent reads; None stands for a
      missing entry (or a missing context). */
  datatype ValidationContext = ValidationContext(toolName: Option<string>, toolType: Option<string>,
                                                 integrationScope: Option<string>, validationType: Option<string>)

  function ErrorReply(task: string, message: string, now: int): AgentResponse
  {
    CreateResponse(AgentName, task, "Error during integration validation: " + message, None, Some("error"),
                   Some(0.0), now)
  }

  /** `process_task`: AI Development Tool / coding_assistant /
      comprehensive / full_test by default, confidence 0.88; the metadata
      reports all six categories whatever the tool type selects. */
  function ProcessTask(task: string, ctx: ValidationContext, generation: Generation, now: int): (r: AgentResponse)
    ensures r.agentName == AgentName && r.task == task && r.timestamp == now
    ensures r.status == "error" <==> generation.GenerationRaised?
    ensures generation.GenerationRaised? ==>
      r.content == "Error during integration validation: " + generation.error && r.confidence == 0.0
    ensures generation.Generated? ==>
      r.status == "success" && r.content == generation.text && r.confidence == 0.88
      && r.metadata.Keys == {"tool_name", "tool_type", "integration_scope", "validation_type", "validation_date", "test_categories"}
      && r.metadata["tool_name"] == MText(OrDefault(ctx.toolName, "AI Development Tool"))
      && r.metadata["tool_type"] == MText(OrDefault(ctx.toolType, "coding_assistant"))
      && r.metadata["integration_scope"] == MText(OrDefault(ctx.integrationScope, "comprehensive"))
      && r.metadata["validation_type"] == MText(OrDefault(ctx.validationType, "full_test"))
      && r.metadata["test_categories"] == MInt(CategoryCount)
  {
    match generation
      case GenerationRaised(e) => ErrorReply(task, e, now)
      case Generated(text) =>
        var meta := map["tool_name" := MText(OrDefault(ctx.toolName, "AI Development Tool")),
                        "tool_type" := MText(OrDefault(ctx.toolType, "coding_assistant")),
                        "integration_scope" := MText(OrDefault(ctx.integrationScope, "comprehensive")),
                        "validation_type" := MText(OrDefault(ctx.validationType, "full_test")),
                        "validation_date" := MInt(now),
                        "test_categories" := MInt(CategoryCount)];
        CreateResponse(AgentName, task, text, Some(meta), None, Some(0.88), now)
  }
}
