// The technical-writer agent
// (enterprise-ai-strategy/agents/training_content/technical_writer_agent.py):
// the content outline, the tags and reading time of the published page,
// and what `process_task` returns.

module TechnicalWriter {
  import opened Common
  import opened BaseAgent

  const AgentName := "technical_writer_agent"

  datatype ContentTemplate = ContentTemplate(structure: seq<string>, depth: string, length: string)

  /** `content_types`. */
  const ContentTypes: map<string, ContentTemplate> := map[
    "guide" := ContentTemplate(["Overview", "Prerequisites", "Step-by-Step Instructions", "Examples",
                                "Troubleshooting", "Best Practices"],
                               "Comprehensive with detailed explanations", "3000-5000 words"),
    "tutorial" := ContentTemplate(["Introduction", "Setup", "Hands-on Exercise", "Validation", "Next Steps"],
                                  "Practical with working examples", "2000-3000 words"),
    "reference" := ContentTemplate(["Quick Reference", "Detailed Parameters", "Usage Examples", "Common Patterns",
                                    "Troubleshooting"], "Complete technical reference", "1500-2500 words"),
    "case_study" := ContentTemplate(["Business Context", "Challenge", "Solution Approach", "Implementation",
                                     "Results", "Lessons Learned"], "Real-world application with metrics",
                                    "2000-3000 words")
  ]

  const DefaultType := "guide"

  // ---------------------------------------------------------------------
  // The outline

  datatype ContentOutline = ContentOutline(contentType: string, topic: string, audience: string,
                                           structure: seq<string>, targetDepth: string, targetLength: string,
                                           sections: seq<string>, examplesNeeded: seq<string>,
                                           codeSamples: seq<string>, enterpriseConsiderations: seq<string>)

  /** `generate_content_outline`: an unknown type is written as a guide;
      the outline copies the template and has nothing written yet. */
  function GenerateContentOutline(contentType: string, topic: string, audience: string): (r: ContentOutline)
    ensures r.contentType in ContentTypes
    ensures r.contentType == (if contentType in ContentTypes then contentType else DefaultType)
    ensures r.topic == topic && r.audience == audience
    ensures r.structure == ContentTypes[r.contentType].structure
    ensures r.targetDepth == ContentTypes[r.contentType].depth
    ensures r.targetLength == ContentTypes[r.contentType].length
    ensures r.sections == [] && r.examplesNeeded == [] && r.codeSamples == [] && r.enterpriseConsiderations == []
  {
    var t := if contentType in ContentTypes then contentType else DefaultType;
    var template := ContentTypes[t];
    ContentOutline(t, topic, audience, template.structure, template.depth, template.length, [], [], [], [])
  }

  /** Outlining again with the type an outline ended up with changes
      nothing, and every unknown type gives the guide's outline. */
  lemma OutlineFallbackIdempotent(contentType: string, topic: string, audience: string)
    ensures var o := GenerateContentOutline(contentType, topic, audience);
      GenerateContentOutline(o.contentType, topic, audience) == o
    ensures contentType !in ContentTypes ==>
      GenerateContentOutline(contentType, topic, audience) == GenerateContentOutline(DefaultType, topic, audience)
  {
  }

  // ---------------------------------------------------------------------
  // The page's tags and reading time

  /** A tool's tag: its name lower-cased with spaces as '-'. */
  function ToolTag(toolName: string): (r: string)
    ensures |r| == |toolName| && ' ' !in r
    ensures forall i :: 0 <= i < |toolName| ==> r[i] == if toolName[i] == ' ' then '-' else LowerChar(toolName[i])
  {
    ReplaceChar(Lower(toolName), ' ', '-')
  }

  /** The page's tags: the content type, "technical" and "training"; the
      tool's tag when a tool is named; the persona unless it is the generic
      "developers"; and last the skill level. */
  method BuildTags(contentType: string, toolName: string, persona: string, skillLevel: string)
    returns (tags: seq<string>)
    ensures |tags| == 4 + (if toolName != "" then 1 else 0) + (if persona != "developers" then 1 else 0)
    ensures 4 <= |tags| <= 6
    ensures tags[..3] == [contentType, "technical", "training"]
    ensures toolName != "" ==> tags[3] == ToolTag(toolName)
    ensures persona != "developers" ==> tags[|tags| - 2] == persona
    ensures tags[|tags| - 1] == skillLevel
  {
    tags := [contentType, "technical", "training"];
    if toolName != "" {
      tags := tags + [ToolTag(toolName)];
    }
    if persona != "developers" {
      tags := tags + [persona];
    }
    tags := tags + [skillLevel];
  }

  /** The estimated reading time in minutes: 200 words a minute, rounded
      down. */
  function ReadingMinutes(text: string): (r: nat)
    ensures r * 200 <= WordCount(text) < (r + 1) * 200
  {
    WordCount(text) / 200
  }

  /** Adding a word-separated passage never shortens the reading time, and
      a passage of 200 more words adds at least a minute. */
  lemma ReadingTimeGrows(a: string, b: string, c: char)
    requires IsPySpace(c)
    ensures ReadingMinutes(a) <= ReadingMinutes(a + [c] + b)
    ensures WordCount(b) >= 200 ==> ReadingMinutes(a) + 1 <= ReadingMinutes(a + [c] + b)
  {
    WordCountProperties(a, b, c);
  }

  // ---------------------------------------------------------------------
  // Processing a task

  /** The entries of the context the agent reads; None stands for a
      missing entry (or a missing context). */
  datatype WritingContext = WritingContext(contentType: Option<string>, topic: Option<string>,
                                           audience: Option<string>, toolName: Option<string>,
                                           persona: Option<string>, skillLevel: Option<string>)

  /** The persona the page's tags use: the page reads the context itself
      and defaults to "developers", not to `process_task`'s full_stack. */
  function PagePersona(ctx: WritingContext): string
  {
    OrDefault(ctx.persona, "developers")
  }

  function ErrorReply(task: string, message: string, now: int): AgentResponse
  {
    CreateResponse(AgentName, task, "Error during content generation: " + message, None, Some("error"), Some(0.0), now)
  }

  /** `process_task`: guide / AI Development Tools / developers / no tool /
      full_stack / intermediate by default, confidence 0.92, and the
      generated text's word count. */
  function ProcessTask(task: string, ctx: WritingContext, generation: Generation, now: int): (r: AgentResponse)
    ensures r.agentName == AgentName && r.task == task && r.timestamp == now
    ensures r.status == "error" <==> generation.GenerationRaised?
    ensures generation.GenerationRaised? ==>
      r.content == "Error during content generation: " + generation.error && r.confidence == 0.0
    ensures generation.Generated? ==>
      r.status == "success" && r.content == generation.text && r.confidence == 0.92
      && r.metadata.Keys == {"content_type", "topic", "audience", "tool_name", "persona", "skill_level",
                             "creation_date", "word_count"}
      && r.metadata["content_type"] == MText(OrDefault(ctx.contentType, DefaultType))
      && r.metadata["topic"] == MText(OrDefault(ctx.topic, "AI Development Tools"))
      && r.metadata["audience"] == MText(OrDefault(ctx.audience, "developers"))
      && r.metadata["tool_name"] == MText(OrDefault(ctx.toolName, ""))
      && r.metadata["persona"] == MText(OrDefault(ctx.persona, "full_stack"))
      && r.metadata["skill_level"] == MText(OrDefault(ctx.skillLevel, "intermediate"))
      && r.metadata["word_count"] == MInt(WordCount(generation.text))
  {
    match generation
      case GenerationRaised(e) => ErrorReply(task, e, now)
      case Generated(text) =>
        var meta := map["content_type" := MText(OrDefault(ctx.contentType, DefaultType)),
                        "topic" := MText(OrDefault(ctx.topic, "AI Development Tools")),
                        "audience" := MText(OrDefault(ctx.audience, "developers")),
                        "tool_name" := MText(OrDefault(ctx.toolName, "")),
                        "persona" := MText(OrDefault(ctx.persona, "full_stack")),
                        "skill_level" := MText(OrDefault(ctx.skillLevel, "intermediate")),
                        "creation_date" := MInt(now), "word_count" := MInt(WordCount(text))];
        CreateResponse(AgentName, task, text, Some(meta), None, Some(0.92), now)
  }

  /** Without a persona in the context the metadata reports full_stack
      while the page's tags carry no persona at all. */
  lemma DefaultPersonaUntagged(task: string, ctx: WritingContext, text: string, now: int)
    requires ctx.persona.None?
    ensures ProcessTask(task, ctx, Generated(text), now).metadata["persona"] == MText("full_stack")
    ensures PagePersona(ctx) == "developers"
  {
  }
}
