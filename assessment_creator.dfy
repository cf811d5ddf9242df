// The assessment-creator agent
// (enterprise-ai-strategy/agents/training_content/assessment_creator_agent.py):
// the assessment plan for a skill level, the assessment specification the
// prompt uses, the progression links of the published page, and what
// `process_task` returns.

module AssessmentCreator {
  import opened Common
  import opened BaseAgent

  const AgentName := "assessment_creator_agent"

  /** An entry of `assessment_types`; only the two practical kinds and the
      project name a deliverable. */
  datatype AssessmentSpec = AssessmentSpec(description: string, format: string, duration: string,
                                           deliverable: Option<string>)

  const AssessmentTypes: map<string, AssessmentSpec> := map[
    "competency_test" := AssessmentSpec("Knowledge-based assessment to validate understanding",
      "Multiple choice, short answer, scenario-based questions", "30-45 minutes", None),
    "practical_exercise" := AssessmentSpec("Hands-on coding/configuration exercise",
      "Step-by-step implementation task with validation", "60-90 minutes",
      Some("Working implementation with documentation")),
    "capstone_project" := AssessmentSpec("Comprehensive project demonstrating full competency",
      "Multi-phase project with real business scenario", "2-4 weeks", Some("Complete solution with presentation")),
    "peer_review" := AssessmentSpec("Collaborative assessment with team members",
      "Code review, knowledge sharing session", "45-60 minutes", Some("Feedback and improvement recommendations"))
  ]

  datatype Competency = Competency(knowledgeAreas: seq<string>, practicalSkills: seq<string>,
                                   assessmentCriteria: seq<string>)

  /** `competency_levels`. */
  const CompetencyLevels: map<string, Competency> := map[
    "beginner" := Competency(
      ["AI tool basic functionality", "Integration with development workflow", "Basic prompt engineering",
       "Safety and security awareness"],
      ["Complete basic AI-assisted coding task", "Configure AI tool in development environment",
       "Follow enterprise security guidelines", "Collaborate effectively with AI tools"],
      ["Demonstrates understanding of AI tool capabilities", "Can complete guided exercises successfully",
       "Follows security and compliance guidelines", "Shows readiness for intermediate training"]),
    "intermediate" := Competency(
      ["Advanced AI tool features and configuration", "Optimization techniques and best practices",
       "Integration patterns with enterprise tools", "Team collaboration and knowledge sharing"],
      ["Optimize AI tool performance for specific workflows", "Integrate AI tools with CI/CD pipelines",
       "Mentor junior developers in AI tool usage", "Troubleshoot common integration issues"],
      ["Demonstrates mastery of core AI tool features", "Can solve complex real-world problems",
       "Effectively integrates tools with existing workflows", "Ready to lead AI tool adoption initiatives"]),
    "advanced" := Competency(
      ["AI tool architecture and extensibility", "Custom integrations and tool development",
       "Enterprise governance and compliance", "Strategic AI tool selection and evaluation"],
      ["Design custom AI tool integrations", "Lead enterprise AI tool evaluation projects",
       "Develop training materials and best practices", "Architect AI-enhanced development workflows"],
      ["Can design and implement complex AI solutions", "Demonstrates thought leadership in AI development",
       "Successfully leads organizational change initiatives", "Contributes to enterprise AI strategy"])
  ]

  // ---------------------------------------------------------------------
  // The plan

  datatype AssessmentPlan = AssessmentPlan(skillLevel: string, persona: string, toolFocus: Option<string>,
                                           knowledgeAreas: seq<string>, practicalSkills: seq<string>,
                                           assessmentCriteria: seq<string>, assessments: seq<string>,
                                           rubrics: map<string, string>, prerequisites: seq<string>,
                                           successCriteria: map<string, string>)

  /** `design_assessment_plan`: an unknown level raises ValueError; a known
      one gets the level's competencies, the persona and tool focus echoed,
      and empty assessments, rubrics, prerequisites and success criteria. */
  function DesignAssessmentPlan(skillLevel: string, persona: string, toolFocus: Option<string>): (r: PyResult<AssessmentPlan>)
    ensures r.PyRaise? <==> skillLevel !in CompetencyLevels
    ensures r.PyRaise? ==> r.error == "Unknown skill level: " + skillLevel
    ensures r.PyOk? ==>
      var c := CompetencyLevels[skillLevel];
      r.value.skillLevel == skillLevel && r.value.persona == persona && r.value.toolFocus == toolFocus
      && r.value.knowledgeAreas == c.knowledgeAreas && r.value.practicalSkills == c.practicalSkills
      && r.value.assessmentCriteria == c.assessmentCriteria
      && r.value.assessments == [] && r.value.rubrics == map[] && r.value.prerequisites == []
      && r.value.successCriteria == map[]
  {
    if skillLevel !in CompetencyLevels then PyRaise("Unknown skill level: " + skillLevel)
    else
      var c := CompetencyLevels[skillLevel];
      PyOk(AssessmentPlan(skillLevel, persona, toolFocus, c.knowledgeAreas, c.practicalSkills, c.assessmentCriteria,
                          [], map[], [], map[]))
  }

  lemma KnownLevels()
    ensures CompetencyLevels.Keys == {"beginner", "intermediate", "advanced"}
  {
  }

  // ---------------------------------------------------------------------
  // The specification the prompt describes

  /** The specification generation uses: the requested type's, or the
      competency test's for a type the table does not have. */
  function SpecFor(assessmentType: string): (r: AssessmentSpec)
    ensures assessmentType in AssessmentTypes ==> r == AssessmentTypes[assessmentType]
    ensures assessmentType !in AssessmentTypes ==> r == AssessmentTypes["competency_test"]
  {
    if assessmentType in AssessmentTypes then AssessmentTypes[assessmentType] else AssessmentTypes["competency_test"]
  }

  /** The deliverable the prompt names, "Completed assessment" when the
      specification has none. */
  function DeliverableOf(spec: AssessmentSpec): (r: string)
    ensures spec.deliverable.Some? ==> r == spec.deliverable.value
    ensures spec.deliverable.None? ==> r == "Completed assessment"
  {
    if spec.deliverable.Some? then spec.deliverable.value else "Completed assessment"
  }

  lemma UnknownTypeIsCompetencyTest(assessmentType: string)
    requires assessmentType !in AssessmentTypes
    ensures SpecFor(assessmentType).duration == "30-45 minutes"
    ensures DeliverableOf(SpecFor(assessmentType)) == "Completed assessment"
  {
  }

  // ---------------------------------------------------------------------
  // Progression links

  /** The two progression lines of the page: a link back to Beginner for
      every other level, then the next level up. */
  function ProgressionLinks(skillLevel: string): (r: (string, string))
    ensures r.0 != "" <==> skillLevel != "beginner"
    ensures skillLevel == "beginner" ==> r.1 == "- [Intermediate Assessment](../../intermediate/)"
    ensures skillLevel == "intermediate" ==> r.1 == "- [Advanced Assessment](../../advanced/)"
    ensures skillLevel != "beginner" && skillLevel != "intermediate" ==> r.1 == ""
  {
    (if skillLevel != "beginner" then "- [Beginner Assessment](../../beginner/)" else "",
     if skillLevel == "beginner" then "- [Intermediate Assessment](../../intermediate/)"
     else if skillLevel == "intermediate" then "- [Advanced Assessment](../../advanced/)" else "")
  }

  /** Along the ladder each level links one step up, and the top level
      links nowhere up. */
  lemma ProgressionLadder()
    ensures ProgressionLinks("beginner") == ("", "- [Intermediate Assessment](../../intermediate/)")
    ensures ProgressionLinks("intermediate") == ("- [Beginner Assessment](../../beginner/)", "- [Advanced Assessment](../../advanced/)")
    ensures ProgressionLinks("advanced") == ("- [Beginner Assessment](../../beginner/)", "")
  {
  }

  // ---------------------------------------------------------------------
  // Processing a task

  /** The entries of the context the agent reads; None stands for a
      missing entry (or a missing context). */
  datatype AssessmentContext = AssessmentContext(assessmentType: Option<string>, skillLevel: Option<string>,
                                                 persona: Option<string>, toolFocus: Option<string>)

  datatype AssessmentRequest = AssessmentRequest(assessmentType: string, skillLevel: string, persona: string,
                                                 toolFocus: string)

  /** competency_test / intermediate / full_stack / AI Development Tools
      by default. */
  function ReadContext(ctx: AssessmentContext): (r: AssessmentRequest)
    ensures ctx.assessmentType.None? ==> r.assessmentType == "competency_test"
    ensures ctx.skillLevel.None? ==> r.skillLevel == "intermediate"
    ensures ctx.persona.None? ==> r.persona == "full_stack"
    ensures ctx.toolFocus.None? ==> r.toolFocus == "AI Development Tools"
    ensures ctx.assessmentType.Some? ==> r.assessmentType == ctx.assessmentType.value
    ensures ctx.skillLevel.Some? ==> r.skillLevel == ctx.skillLevel.value
    ensures ctx.persona.Some? ==> r.persona == ctx.persona.value
    ensures ctx.toolFocus.Some? ==> r.toolFocus == ctx.toolFocus.value
  {
    AssessmentRequest(OrDefault(ctx.assessmentType, "competency_test"), OrDefault(ctx.skillLevel, "intermediate"),
                      OrDefault(ctx.persona, "full_stack"), OrDefault(ctx.toolFocus, "AI Development Tools"))
  }

  function ErrorReply(task: string, message: string, now: int): AgentResponse
  {
    CreateResponse(AgentName, task, "Error during assessment creation: " + message, None, Some("error"), Some(0.0), now)
  }

  /** `process_task`. The prompt looks the level up before the call, so
      an unknown level fails first with a KeyError; the metadata looks the
      type up after it, so an unknown type fails with a KeyError after a
      successful call, although generation itself fell back to the
      competency test. */
  function ProcessTask(task: string, ctx: AssessmentContext, generation: Generation, now: int): (r: AgentResponse)
    ensures r.agentName == AgentName && r.task == task && r.timestamp == now
    ensures var req := ReadContext(ctx);
      r.status == "error" <==>
        req.skillLevel !in CompetencyLevels || generation.GenerationRaised? || req.assessmentType !in AssessmentTypes
    ensures r.status == "error" ==> r.confidence == 0.0
    ensures var req := ReadContext(ctx);
      req.skillLevel !in CompetencyLevels ==>
        r.content == "Error during assessment creation: " + KeyErrorMessage(req.skillLevel)
    ensures var req := ReadContext(ctx);
      (req.skillLevel in CompetencyLevels && generation.Generated? && req.assessmentType !in AssessmentTypes ==>
         r.content == "Error during assessment creation: " + KeyErrorMessage(req.assessmentType))
    ensures var req := ReadContext(ctx);
      (r.status != "error" ==>
         r.status == "success" && r.confidence == 0.88 && r.content == generation.text
         && r.metadata.Keys == {"assessment_type", "skill_level", "persona", "tool_focus", "creation_date", "estimated_duration"}
         && r.metadata["estimated_duration"] == MText(AssessmentTypes[req.assessmentType].duration)
         && r.metadata["assessment_type"] == MText(req.assessmentType)
         && r.metadata["skill_level"] == MText(req.skillLevel)
         && r.metadata["persona"] == MText(req.persona)
         && r.metadata["tool_focus"] == MText(req.toolFocus) && r.metadata["creation_date"] == MInt(now))
  {
    var req := ReadContext(ctx);
    if req.skillLevel !in CompetencyLevels then ErrorReply(task, KeyErrorMessage(req.skillLevel), now)
    else match generation
      case GenerationRaised(e) => ErrorReply(task, e, now)
      case Generated(text) =>
        if req.assessmentType !in AssessmentTypes then ErrorReply(task, KeyErrorMessage(req.assessmentType), now)
        else
          var meta := map["assessment_type" := MText(req.assessmentType), "skill_level" := MText(req.skillLevel),
                          "persona" := MText(req.persona), "tool_focus" := MText(req.toolFocus),
                          "creation_date" := MInt(now),
                          "estimated_duration" := MText(AssessmentTypes[req.assessmentType].duration)];
          CreateResponse(AgentName, task, text, Some(meta), None, Some(0.88), now)
  }

  /** The default request succeeds whenever the call does, with the
      competency test's 30-45 minutes. */
  lemma DefaultsSucceed(task: string, text: string, now: int)
    ensures var r := ProcessTask(task, AssessmentContext(None, None, None, None), Generated(text), now);
      r.status == "success" && r.metadata["estimated_duration"] == MText("30-45 minutes")
  {
  }
}
