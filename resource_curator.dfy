// The resource-curator agent
// (enterprise-ai-strategy/agents/training_content/resource_curator_agent.py):
// the sample resource lookup, the quality evaluation of one resource, the
// resource-type description sent to the language model, and what
// `process_task` returns.

module ResourceCurator {
  import opened Common
  import opened BaseAgent

  const AgentName := "resource_curator_agent"

  /** `resource_types`: each type's description. */
  const ResourceTypeDescriptions: map<string, string> := map[
    "documentation" := "Official documentation and API references",
    "tutorials" := "Step-by-step learning guides and walkthroughs",
    "videos" := "Video tutorials, conferences, and demonstrations",
    "courses" := "Structured online courses and certification programs",
    "books" := "Technical books and comprehensive guides",
    "articles" := "Blog posts, whitepapers, and technical articles",
    "tools" := "Practice environments, sandboxes, and development tools"
  ]

  // ---------------------------------------------------------------------
  // Sample resources

  datatype SampleResource = SampleResource(title: string, kind: string, url: string, description: string,
                                           qualityScore: real, enterpriseApproved: bool, skillLevel: string)

  const SampleResources: map<string, seq<SampleResource>> := map[
    "github_copilot" := [
      SampleResource("GitHub Copilot Documentation", "documentation", "https://docs.github.com/en/copilot",
                     "Official GitHub Copilot documentation with setup and usage guides", 9.5, true, "beginner"),
      SampleResource("GitHub Copilot for Enterprise Guide", "documentation",
                     "https://docs.github.com/en/copilot/github-copilot-for-business",
                     "Enterprise-specific features and administration guide", 9.0, true, "intermediate")
    ],
    "claude_code" := [
      SampleResource("Claude Code Documentation", "documentation", "https://docs.anthropic.com/en/docs/claude-code",
                     "Official Claude Code documentation and best practices", 9.2, true, "beginner")
    ]
  ]

  /** The sample table's key for a topic: lower-cased, spaces as '_'. */
  function TopicKey(topic: string): (r: string)
    ensures |r| == |topic| && ' ' !in r
    ensures forall i :: 0 <= i < |topic| ==> r[i] == if topic[i] == ' ' then '_' else LowerChar(topic[i])
  {
    ReplaceChar(Lower(topic), ' ', '_')
  }

  /** `search_resources`: the sample list under the topic's key, [] for a
      topic the table does not have; the type and level are not used. */
  function SearchResources(topic: string, resourceType: string, skillLevel: string): (r: seq<SampleResource>)
    ensures TopicKey(topic) !in SampleResources ==> r == []
    ensures TopicKey(topic) in SampleResources ==> r == SampleResources[TopicKey(topic)]
  {
    if TopicKey(topic) in SampleResources then SampleResources[TopicKey(topic)] else []
  }

  /** Two searches on topics with the same key find the same resources,
      whatever type and level they ask for. */
  lemma SearchIgnoresFilters(topic: string, other: string, t1: string, l1: string, t2: string, l2: string)
    requires TopicKey(topic) == TopicKey(other)
    ensures SearchResources(topic, t1, l1) == SearchResources(other, t2, l2)
  {
  }

  /** Only the two sample topics find anything. */
  lemma SearchedTopics(topic: string, t: string, l: string)
    ensures SearchResources(topic, t, l) != [] <==> TopicKey(topic) == "github_copilot" || TopicKey(topic) == "claude_code"
  {
    assert SampleResources.Keys == {"github_copilot", "claude_code"};
  }

  // ---------------------------------------------------------------------
  // Quality evaluation

  /** The fields of a resource the evaluation reads; a missing one is "". */
  datatype Resource = Resource(url: string, title: string, description: string)

  datatype Evaluation = Evaluation(overall: real, security: real, compliance: real, quality: real,
                                   relevance: real, approved: bool, recommendations: seq<string>,
                                   concerns: seq<string>)

  predicate TrustedDomain(url: string)
  {
    Contains(url, "github.com") || Contains(url, "docs.microsoft.com")
    || Contains(url, "aws.amazon.com") || Contains(url, "anthropic.com")
  }

  predicate OfficialTitle(title: string)
  {
    Contains(Lower(title), "official") || Contains(Lower(title), "documentation")
  }

  /** `evaluate_resource_quality`: the scores start at 0 and are raised
      rule by rule; the overall score is their mean and approval needs 7. */
  method EvaluateResourceQuality(resource: Resource) returns (e: Evaluation)
    ensures e.security == (if StartsWith(resource.url, "https://") then 2.0 else 0.0)
                          + (if TrustedDomain(resource.url) then 3.0 else 0.0)
    ensures e.quality == (if OfficialTitle(resource.title) then 3.0 else 0.0)
                         + (if |resource.description| > 50 then 2.0 else 0.0)
    ensures e.security in {0.0, 2.0, 3.0, 5.0} && e.quality in {0.0, 2.0, 3.0, 5.0}
    ensures e.compliance == 0.0 && e.relevance == 0.0
    ensures e.overall == (e.security + e.quality) / 4.0 && 0.0 <= e.overall <= 2.5
    ensures !e.approved
    ensures e.recommendations == [] && e.concerns == []
  {
    e := Evaluation(0.0, 0.0, 0.0, 0.0, 0.0, false, [], []);
    if StartsWith(resource.url, "https://") {
      e := e.(security := e.security + 2.0);
    }
    if TrustedDomain(resource.url) {
      e := e.(security := e.security + 3.0);
    }
    if OfficialTitle(resource.title) {
      e := e.(quality := e.quality + 3.0);
    }
    if |resource.description| > 50 {
      e := e.(quality := e.quality + 2.0);
    }
    e := e.(overall := (e.security + e.compliance + e.quality + e.relevance) / 4.0);
    e := e.(approved := e.overall >= 7.0);
  }

  // ---------------------------------------------------------------------
  // The prompt's list of resource types

  predicate KnownType(rt: string)
  {
    rt in ResourceTypeDescriptions
  }

  function Describe(rt: string): string
    requires KnownType(rt)
  {
    rt + " (" + ResourceTypeDescriptions[rt] + ")"
  }

  function DescribeAll(types: seq<string>): (r: seq<string>)
    requires forall i :: 0 <= i < |types| ==> KnownType(types[i])
    ensures |r| == |types| && forall i :: 0 <= i < |types| ==> r[i] == Describe(types[i])
  {
    if types == [] then [] else [Describe(types[0])] + DescribeAll(types[1..])
  }

  /** The types part of the prompt: each known type with its description,
      in the caller's order, joined by ", "; unknown types are dropped. */
  function TypesDescription(types: seq<string>): string
  {
    Join(DescribeAll(Filter(types, KnownType)), ", ")
  }

  /** Unknown types leave no trace: the description is the same as for the
      known types alone, and a list of unknown types describes nothing. */
  lemma UnknownTypesDropped(types: seq<string>)
    ensures TypesDescription(types) == TypesDescription(Filter(types, KnownType))
    ensures (forall i :: 0 <= i < |types| ==> !KnownType(types[i])) ==> TypesDescription(types) == ""
  {
    FilterFilter(types, KnownType, KnownType, KnownType);
    if forall i :: 0 <= i < |types| ==> !KnownType(types[i]) {
      FilterNone(types, KnownType);
    }
  }

  // ---------------------------------------------------------------------
  // Processing a task

  /** The entries of the context the agent reads; None stands for a
      missing entry (or a missing context). */
  datatype CurationContext = CurationContext(topic: Option<string>, resourceTypes: Option<seq<string>>,
                                             skillLevel: Option<string>, persona: Option<string>,
                                             maxResources: Option<int>)

  datatype CurationRequest = CurationRequest(topic: string, resourceTypes: seq<string>, skillLevel: string,
                                             persona: string, maxResources: int)

  /** The defaults: AI Development Tools, documentation and tutorials, all
      levels, developers, 20 resources. */
  function ReadContext(ctx: CurationContext): (r: CurationRequest)
    ensures ctx.topic.None? ==> r.topic == "AI Development Tools"
    ensures ctx.resourceTypes.None? ==> r.resourceTypes == ["documentation", "tutorials"]
    ensures ctx.skillLevel.None? ==> r.skillLevel == "all"
    ensures ctx.persona.None? ==> r.persona == "developers"
    ensures ctx.maxResources.None? ==> r.maxResources == 20
    ensures ctx.topic.Some? ==> r.topic == ctx.topic.value
    ensures ctx.resourceTypes.Some? ==> r.resourceTypes == ctx.resourceTypes.value
    ensures ctx.skillLevel.Some? ==> r.skillLevel == ctx.skillLevel.value
    ensures ctx.persona.Some? ==> r.persona == ctx.persona.value
    ensures ctx.maxResources.Some? ==> r.maxResources == ctx.maxResources.value
  {
    CurationRequest(if ctx.topic.Some? then ctx.topic.value else "AI Development Tools",
                    if ctx.resourceTypes.Some? then ctx.resourceTypes.value else ["documentation", "tutorials"],
                    if ctx.skillLevel.Some? then ctx.skillLevel.value else "all",
                    if ctx.persona.Some? then ctx.persona.value else "developers",
                    if ctx.maxResources.Some? then ctx.maxResources.value else 20)
  }

  function ErrorReply(task: string, message: string, now: int): AgentResponse
  {
    CreateResponse(AgentName, task, "Error during resource curation: " + message, None, Some("error"), Some(0.0), now)
  }

  /** `process_task` as written: the collection the language model returns
      is text, and reading `resources` from it raises, so even a successful
      call ends in the error response. */
  function ProcessTaskAsWritten(task: string, ctx: CurationContext, generation: Generation, now: int): (r: AgentResponse)
    ensures r.agentName == AgentName && r.task == task
  {
    match generation
      case GenerationRaised(e) => ErrorReply(task, e, now)
      case Generated(_) => ErrorReply(task, StrHasNoGet, now)
  }

  /** Whatever the model replies, the curation as written fails. */
  lemma CurationAlwaysFails(task: string, ctx: CurationContext, generation: Generation, now: int)
    ensures ProcessTaskAsWritten(task, ctx, generation, now).status == "error"
    ensures ProcessTaskAsWritten(task, ctx, generation, now).confidence == 0.0
    ensures generation.Generated? ==>
      ProcessTaskAsWritten(task, ctx, generation, now).content == "Error during resource curation: " + StrHasNoGet
  {
  }

  /** `process_task` as intended: a successful call is returned as the
      collection page with confidence 0.87, and the metadata records the
      request and the number of resources the collection lists
      (`resourceCount`, read from the reply). */
  function ProcessTask(task: string, ctx: CurationContext, generation: Generation, resourceCount: nat, now: int): (r: AgentResponse)
    ensures r.agentName == AgentName && r.task == task && r.timestamp == now
    ensures r.status == "error" <==> generation.GenerationRaised?
    ensures generation.GenerationRaised? ==>
      r.content == "Error during resource curation: " + generation.error && r.confidence == 0.0
    ensures generation.Generated? ==>
      r.status == "success" && r.content == generation.text && r.confidence == 0.87
      && r.metadata.Keys == {"topic", "resource_types", "skill_level", "persona", "total_resources", "curation_date"}
      && r.metadata["topic"] == MText(ReadContext(ctx).topic)
      && r.metadata["resource_types"] == MItems(ReadContext(ctx).resourceTypes)
      && r.metadata["skill_level"] == MText(ReadContext(ctx).skillLevel)
      && r.metadata["persona"] == MText(ReadContext(ctx).persona)
      && r.metadata["total_resources"] == MInt(resourceCount)
      && r.metadata["curation_date"] == MInt(now)
  {
    var req := ReadContext(ctx);
    match generation
      case GenerationRaised(e) => ErrorReply(task, e, now)
      case Generated(text) =>
        var meta := map["topic" := MText(req.topic), "resource_types" := MItems(req.resourceTypes),
                        "skill_level" := MText(req.skillLevel), "persona" := MText(req.persona),
                        "total_resources" := MInt(resourceCount), "curation_date" := MInt(now)];
        CreateResponse(AgentName, task, text, Some(meta), None, Some(0.87), now)
  }

  /** The two agree on every failed call, and differ on every successful one. */
  lemma CorrectedAgreesOnFailure(task: string, ctx: CurationContext, generation: Generation, n: nat, now: int)
    ensures generation.GenerationRaised? ==> ProcessTask(task, ctx, generation, n, now) == ProcessTaskAsWritten(task, ctx, generation, now)
    ensures generation.Generated? ==> ProcessTask(task, ctx, generation, n, now).status != ProcessTaskAsWritten(task, ctx, generation, now).status
  {
  }
}
