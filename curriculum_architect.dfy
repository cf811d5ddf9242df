// The curriculum-architect agent
// (enterprise-ai-strategy/agents/training_content/curriculum_architect_agent.py):
// the learning path for a persona and skill level, the page weight and
// level links of the published curriculum, and what `process_task`
// returns.

module CurriculumArchitect {
  import opened Common
  import opened BaseAgent

  const AgentName := "curriculum_architect_agent"

  datatype PersonaInfo = PersonaInfo(title: string, description: string, techStack: seq<string>,
                                     aiUseCases: seq<string>, learningPreferences: string, timeConstraints: string)

  /** `developer_personas`. */
  const DeveloperPersonas: map<string, PersonaInfo> := map[
    "full_stack" := PersonaInfo("Full-Stack Developers",
      "Frontend and backend developers working with React/Angular and Node.js/Java",
      ["React", "Angular", "Node.js", "Java", "Spring", "TypeScript", "JavaScript"],
      ["Component generation", "API development assistance", "Frontend debugging", "Database query optimization",
       "Code review automation"],
      "Hands-on examples with immediate application", "Limited time, prefer 15-30 minute modules"),
    "sre_devops" := PersonaInfo("SRE/DevOps Engineers",
      "Infrastructure and operations specialists managing CI/CD and deployment",
      ["Kubernetes", "Helm", "Harness", "Docker", "Terraform", "AWS", "Jenkins"],
      ["Infrastructure as code generation", "Monitoring script creation", "Incident response automation",
       "Log analysis and troubleshooting", "Deployment pipeline optimization"],
      "Problem-solving scenarios with real infrastructure challenges",
      "Flexible, willing to invest time in deep learning"),
    "etl_data" := PersonaInfo("ETL/Data Engineers", "Data pipeline specialists working with Informatica and Talend",
      ["Informatica", "Talend", "SQL", "Python", "Spark", "Airflow", "Snowflake"],
      ["Data transformation logic generation", "SQL query optimization", "Pipeline troubleshooting",
       "Data quality validation", "Schema mapping assistance"],
      "Data-driven examples with measurable outcomes", "Moderate time availability, prefer structured learning"),
    "java_spring" := PersonaInfo("Java/Spring Developers", "Backend Java developers using Spring ecosystem",
      ["Java", "Spring Boot", "Spring Cloud", "Maven", "Gradle", "JUnit", "Microservices"],
      ["Microservice development", "Test case generation", "Code refactoring", "Configuration management",
       "API documentation generation"],
      "Best practices and enterprise patterns", "Structured learning with clear progression"),
    "k8s_helm" := PersonaInfo("K8s/Helm/Harness Engineers", "Container orchestration and deployment specialists",
      ["Kubernetes", "Helm", "Harness", "ArgoCD", "Istio", "Prometheus", "Grafana"],
      ["Helm chart generation", "Kubernetes manifest creation", "Deployment strategy optimization",
       "Resource configuration", "Troubleshooting assistance"],
      "Hands-on labs with real cluster environments", "Learning during maintenance windows and project gaps")
  ]

  datatype LevelTemplate = LevelTemplate(duration: string, timeCommitment: string, prerequisites: string,
                                         objectives: seq<string>)

  /** `learning_path_template`. */
  const LearningPathTemplate: map<string, LevelTemplate> := map[
    "beginner" := LevelTemplate("2-4 weeks", "2-3 hours/week", "Basic development experience",
      ["Understand AI tool capabilities", "Complete first AI-assisted task", "Integrate AI tools into daily workflow"]),
    "intermediate" := LevelTemplate("4-8 weeks", "3-5 hours/week", "Comfortable with AI tool basics",
      ["Master advanced AI tool features", "Optimize workflow efficiency", "Contribute to team AI practices"]),
    "advanced" := LevelTemplate("8-12 weeks", "5-8 hours/week", "Proficient with multiple AI tools",
      ["Lead AI tool adoption initiatives", "Customize and extend AI tools", "Train and mentor other developers"])
  ]

  // ---------------------------------------------------------------------
  // The learning path

  datatype LearningPath = LearningPath(persona: string, skillLevel: string, title: string, description: string,
                                       duration: string, timeCommitment: string, prerequisites: string,
                                       objectives: seq<string>, targetAudience: string, techStackFocus: seq<string>,
                                       primaryUseCases: seq<string>, learningStyle: string, modules: seq<string>,
                                       assessments: seq<string>, resources: seq<string>,
                                       certification: Option<string>)

  /** `design_learning_path`: the persona is checked first, then the
      level; a known pair takes the schedule from the level and the
      audience from the persona, and starts with no modules, assessments,
      resources or certification. */
  function DesignLearningPath(persona: string, skillLevel: string): (r: PyResult<LearningPath>)
    ensures persona !in DeveloperPersonas ==> r == PyRaise("Unknown persona: " + persona)
    ensures persona in DeveloperPersonas && skillLevel !in LearningPathTemplate ==>
      r == PyRaise("Unknown skill level: " + skillLevel)
    ensures r.PyOk? <==> persona in DeveloperPersonas && skillLevel in LearningPathTemplate
    ensures r.PyOk? ==>
      var p, t := DeveloperPersonas[persona], LearningPathTemplate[skillLevel];
      r.value.persona == persona && r.value.skillLevel == skillLevel
      && r.value.title == p.title + " - " + TitleCase(skillLevel) + " AI Development"
      && r.value.description == "Comprehensive " + skillLevel + " level training for " + p.description
      && r.value.duration == t.duration && r.value.timeCommitment == t.timeCommitment
      && r.value.prerequisites == t.prerequisites && r.value.objectives == t.objectives
      && r.value.targetAudience == p.description && r.value.techStackFocus == p.techStack
      && r.value.primaryUseCases == p.aiUseCases && r.value.learningStyle == p.learningPreferences
      && r.value.modules == [] && r.value.assessments == [] && r.value.resources == []
      && r.value.certification.None?
  {
    if persona !in DeveloperPersonas then PyRaise("Unknown persona: " + persona)
    else if skillLevel !in LearningPathTemplate then PyRaise("Unknown skill level: " + skillLevel)
    else
      var p, t := DeveloperPersonas[persona], LearningPathTemplate[skillLevel];
      PyOk(LearningPath(persona, skillLevel, p.title + " - " + TitleCase(skillLevel) + " AI Development",
                        "Comprehensive " + skillLevel + " level training for " + p.description,
                        t.duration, t.timeCommitment, t.prerequisites, t.objectives, p.description, p.techStack,
                        p.aiUseCases, p.learningPreferences, [], [], [], None))
  }

  lemma LevelTitles()
    ensures TitleCase("beginner") == "Beginner"
    ensures TitleCase("intermediate") == "Intermediate"
    ensures TitleCase("advanced") == "Advanced"
  {
    TitleOfLowerWord("beginner");
    TitleOfLowerWord("intermediate");
    TitleOfLowerWord("advanced");
  }

  // ---------------------------------------------------------------------
  // The published page

  /** The page weight: 10 for beginners, 20 for intermediate, 30 for any
      other level. */
  function HugoWeight(skillLevel: string): (r: nat)
    ensures r in {10, 20, 30}
    ensures r == 10 <==> skillLevel == "beginner"
    ensures r == 20 <==> skillLevel == "intermediate"
  {
    if skillLevel == "beginner" then 10 else if skillLevel == "intermediate" then 20 else 30
  }

  /** The previous-level line. */
  function PreviousLink(skillLevel: string): (r: string)
    ensures skillLevel == "intermediate" ==> r == "← [Beginner Level](../beginner/)"
    ensures skillLevel == "advanced" ==> r == "← [Intermediate Level](../intermediate/)"
    ensures skillLevel != "intermediate" && skillLevel != "advanced" ==> r == "← This is the entry level"
  {
    if skillLevel == "intermediate" then "← [Beginner Level](../beginner/)"
    else if skillLevel == "advanced" then "← [Intermediate Level](../intermediate/)"
    else "← This is the entry level"
  }

  /** The next-level line. */
  function NextLink(skillLevel: string): (r: string)
    ensures skillLevel == "beginner" ==> r == "→ [Intermediate Level](../intermediate/)"
    ensures skillLevel == "intermediate" ==> r == "→ [Advanced Level](../advanced/)"
    ensures skillLevel != "beginner" && skillLevel != "intermediate" ==> r == "→ You've reached the highest level!"
  {
    if skillLevel == "beginner" then "→ [Intermediate Level](../intermediate/)"
    else if skillLevel == "intermediate" then "→ [Advanced Level](../advanced/)"
    else "→ You've reached the highest level!"
  }

  /** The position of a level on the beginner, intermediate, advanced
      ladder. */
  function Rung(skillLevel: string): int
  {
    if skillLevel == "beginner" then 0 else if skillLevel == "intermediate" then 1
    else if skillLevel == "advanced" then 2 else -1
  }

  function LevelAt(rung: int): string
  {
    if rung == 0 then "beginner" else if rung == 1 then "intermediate" else "advanced"
  }

  /** Along the ladder the weight rises by ten per rung. */
  lemma WeightFollowsLadder(rung: int)
    requires 0 <= rung <= 2
    ensures Rung(LevelAt(rung)) == rung
    ensures HugoWeight(LevelAt(rung)) == 10 * (rung + 1)
  {
  }

  /** The links bound the ladder: only a level with a rung above it gets
      a next link, only one with a rung below it a previous link; every
      other name is both the entry level and the highest. */
  lemma LinksBoundLadder(skillLevel: string)
    ensures NextLink(skillLevel) == "→ You've reached the highest level!" <==> !(0 <= Rung(skillLevel) < 2)
    ensures PreviousLink(skillLevel) == "← This is the entry level" <==> !(0 < Rung(skillLevel) <= 2)
  {
    var top := "→ You've reached the highest level!";
    var entry := "← This is the entry level";
    assert "→ [Intermediate Level](../intermediate/)" != top by {
      assert "→ [Intermediate Level](../intermediate/)"[2] != top[2];
    }
    assert "→ [Advanced Level](../advanced/)" != top by {
      assert "→ [Advanced Level](../advanced/)"[2] != top[2];
    }
    assert "← [Beginner Level](../beginner/)" != entry by {
      assert "← [Beginner Level](../beginner/)"[2] != entry[2];
    }
    assert "← [Intermediate Level](../intermediate/)" != entry by {
      assert "← [Intermediate Level](../intermediate/)"[2] != entry[2];
    }
  }

  // ---------------------------------------------------------------------
  // Processing a task

  /** The entries of the context the agent reads; None stands for a
      missing entry (or a missing context). */
  datatype CurriculumContext = CurriculumContext(persona: Option<string>, skillLevel: Option<string>,
                                                 toolFocus: Option<string>, curriculumType: Option<string>)

  function ErrorReply(task: string, message: string, now: int): AgentResponse
  {
    CreateResponse(AgentName, task, "Error during curriculum design: " + message, None, Some("error"), Some(0.0), now)
  }

  /** `process_task`: full_stack / beginner by default. The prompt looks
      up the persona and then the level before the call, so either unknown
      name fails with its KeyError; success carries confidence 0.9 and the
      level's duration. */
  function ProcessTask(task: string, ctx: CurriculumContext, generation: Generation, now: int): (r: AgentResponse)
    ensures r.agentName == AgentName && r.task == task && r.timestamp == now
    ensures var persona, level := OrDefault(ctx.persona, "full_stack"), OrDefault(ctx.skillLevel, "beginner");
      r.status == "error" <==>
        persona !in DeveloperPersonas || level !in LearningPathTemplate || generation.GenerationRaised?
    ensures var persona := OrDefault(ctx.persona, "full_stack");
      persona !in DeveloperPersonas ==> r.content == "Error during curriculum design: " + KeyErrorMessage(persona)
    ensures var persona, level := OrDefault(ctx.persona, "full_stack"), OrDefault(ctx.skillLevel, "beginner");
      (persona in DeveloperPersonas && level !in LearningPathTemplate ==>
         r.content == "Error during curriculum design: " + KeyErrorMessage(level))
    ensures r.status == "error" ==> r.confidence == 0.0
    ensures var persona, level := OrDefault(ctx.persona, "full_stack"), OrDefault(ctx.skillLevel, "beginner");
      (r.status != "error" ==>
         r.status == "success" && r.confidence == 0.9 && r.content == generation.text
         && r.metadata.Keys == {"persona", "skill_level", "tool_focus", "curriculum_type", "creation_date", "estimated_duration"}
         && r.metadata["persona"] == MText(persona) && r.metadata["skill_level"] == MText(level)
         && r.metadata["curriculum_type"] == MText(OrDefault(ctx.curriculumType, "comprehensive"))
         && r.metadata["creation_date"] == MInt(now)
         && r.metadata["tool_focus"] == (if ctx.toolFocus.Some? then MText(ctx.toolFocus.value) else MNone)
         && r.metadata["estimated_duration"] == MText(LearningPathTemplate[level].duration))
  {
    var persona, level := OrDefault(ctx.persona, "full_stack"), OrDefault(ctx.skillLevel, "beginner");
    if persona !in DeveloperPersonas then ErrorReply(task, KeyErrorMessage(persona), now)
    else if level !in LearningPathTemplate then ErrorReply(task, KeyErrorMessage(level), now)
    else match generation
      case GenerationRaised(e) => ErrorReply(task, e, now)
      case Generated(text) =>
        var meta := map["persona" := MText(persona), "skill_level" := MText(level),
                        "tool_focus" := if ctx.toolFocus.Some? then MText(ctx.toolFocus.value) else MNone,
                        "curriculum_type" := MText(OrDefault(ctx.curriculumType, "comprehensive")),
                        "creation_date" := MInt(now),
                        "estimated_duration" := MText(LearningPathTemplate[level].duration)];
        CreateResponse(AgentName, task, text, Some(meta), None, Some(0.9), now)
  }

  /** `process_task` fails exactly when `design_learning_path` would
      refuse the pair or the call fails. */
  lemma TaskAgreesWithPath(task: string, ctx: CurriculumContext, generation: Generation, now: int)
    ensures var persona, level := OrDefault(ctx.persona, "full_stack"), OrDefault(ctx.skillLevel, "beginner");
      ProcessTask(task, ctx, generation, now).status == "error" <==>
        DesignLearningPath(persona, level).PyRaise? || generation.GenerationRaised?
  {
  }
}
