# A verified model of the enterprise AI strategy hub

This project models the rule-bearing core of the enterprise AI strategy hub in Dafny.

- **Browser controllers.** The strategy site's browser controllers: discovery, ranking and evaluation scoring in the strategy centre, recommendations and skill tracking in the developer hub, the executive dashboard, and the shared page controller with its settings store and AI-service guard.
- **Badge script.** The shields.io badge script.
- **Operations console.** The React pages of the operations console: jobs, users, approvals, settings and agents, plus the console shell. Also its session store and HTTP client.
- **Backend.** The FastAPI backend's job and approval lifecycle.
- **Agents.** The agent framework's standard response and orchestrator, and the deterministic parts of the ten content and intelligence agents.

## How the model is built

The project has one Dafny module per source file, and `Common` holds the shared vocabulary:
- optional values;
- order-preserving filtering;
- JavaScript and Python string primitives;
- decimal rendering;
- the stable descending sort that `Array.prototype.sort` and the service's listings rely on.

Percent-encoding follows section 19.2.6.5 of ECMA-262 and has its own module, `UriEncoding`, with a decoder as the partner of the round trip. The same module holds the application/x-www-form-urlencoded serializer of section 5.2 of the WHATWG URL Standard, which `URLSearchParams` uses for the job listing's query, with the parser of section 5.1 as its partner.

Code that computes a value is modelled as functions, each with lemmas about it. Code that changes state step by step is modelled as classes and methods, each proved against a specification function. These are:
- the settings store of the page controller and the browser storage of the session service;
- the skill assessment walk-through;
- the review, user and execute dialogs;
- the database of the backend;
- the orchestrator's registry and history.

Loops of the source are loops in the model, each with its invariants:
- the discovery pipeline and the skill update;
- the category loop of the competitor search;
- the test-plan and supporting-data builders;
- the sentiment mean;
- the orchestrator's team run.

What the model stands in for:
- **The language model.** Every call to it (Bedrock from the agents, the AI service from the browser) becomes a parameter saying whether the call raised or what text it returned.
- **Side effects.** HTTP replies, clocks, fresh identifiers and the JWT expiry become parameters.
- **Storage.** Browser storage is a map from keys to strings, with a parse that may fail.

Some properties proved along the way describe surprising behaviour of the application as written. They are not defects to correct:
- a console manager sees the Users entry but is refused by the backend;
- approving after a rejection keeps the stale rejection reason;
- a decided approval can be reviewed again;
- an agent's own error response is recorded with status "partial", because a zero-confidence response never passes the quality check;
- a testing tool is offered Test.ai twice as a competitor, and the default competitor list can name the tool itself;
- the resource evaluation can never approve anything, because the overall score is at most 2.5 against a bar of 7;
- zero licences give negative savings;
- a portfolio tool lacking one of its three figures makes the license optimiser answer with the KeyError message, before the language model is called;
- a technical-writer page without a persona carries no persona tag while its metadata says full_stack;
- a boolean in a briefing's supporting data shows as 1 or 0;
- closing the user form leaves it without permissions;
- the strategy centre returns null rather than its fallback when the AI service replies with nothing.

## Model

| member | source | states |
|---|---|---|
| StrategyCenter.EvaluationQueue | js/strategy-center.js:107-112 | the queue holds exactly the tools whose status is DISCOVERY, EVALUATION or PILOT_ACTIVE |
| StrategyCenter.EvaluationPhase | js/strategy-center.js:136-143 | the phase is "Unknown phase" exactly when the status is not one of the three queue statuses |
| StrategyCenter.EvaluationProgress | js/strategy-center.js:145-152 | progress is 0, 30, 70 or 90, and 0 exactly outside the queue statuses |
| StrategyCenter.PhaseAndProgressAgree | js/strategy-center.js:136-152 | a phase goes unnamed iff its progress is 0; progress rises from discovery to evaluation to pilot |
| StrategyCenter.RecentDiscoveries | js/strategy-center.js:186-190 | at most three tools, all in discovery and from the input; with fewer than three, every discovery tool is included |
| StrategyCenter.DiscoveryPriority | js/strategy-center.js:214-219 | High Priority iff the category is AI_FIRST_IDE or the vendor is Amazon, else Medium Priority |
| StrategyCenter.PriorityColor | js/strategy-center.js:221-228 | the table's class for High and Medium, the Low class for any other name |
| StrategyCenter.DiscoveryNeverLow | js/strategy-center.js:208-227 | a computed priority never shows the Low colour |
| StrategyCenter.AlertColor | js/strategy-center.js:538-545 | red for HIGH, yellow for MEDIUM, blue for LOW and any other severity |
| StrategyCenter.FirstWithName | js/strategy-center.js:767-769 | `findIndex`: the first index carrying the name, or none when no element carries it |
| StrategyCenter.KeptIndices | js/strategy-center.js:767-769 | ascending indices, each the first occurrence of its name, and every first occurrence is kept |
| StrategyCenter.DeduplicateProperties | js/strategy-center.js:765-769 | de-duplication leaves distinct names, keeps only first occurrences and loses no name |
| StrategyCenter.DeduplicateAndRank | js/strategy-center.js:765-772 | at most ten discoveries, sorted by score (absent as 0) from highest down |
| StrategyCenter.RankedDistinct | js/strategy-center.js:765-772 | ranked discoveries have distinct names and all come from the de-duplicated list |
| StrategyCenter.RankStable | js/strategy-center.js:771 | discoveries with equal scores keep their discovery order (the sort is stable) |
| StrategyCenter.CollectedConcat | js/strategy-center.js:750-760 | collecting from two runs of sources is collecting from each in turn |
| StrategyCenter.FailedSourceIgnored | js/strategy-center.js:753-759 | a source that throws adds nothing and does not stop the sources after it |
| StrategyCenter.RunDiscovery | js/strategy-center.js:750-763 | the loop pushes every non-failing source's results in order and returns them ranked |
| StrategyCenter.OverallScore | js/strategy-center.js:831-843 | the weighted sum is defined exactly when every criterion has a weight |
| StrategyCenter.WeightsSumToOne | js/strategy-center.js:832-838 | the five weights add up to 1 |
| StrategyCenter.ScoreEntries | js/strategy-center.js:816-822 | one score per criterion, in criterion order, with that criterion's draw |
| StrategyCenter.OverallScoreOfEvaluation | js/strategy-center.js:816-843 | an evaluation's score is defined; equal draws give that draw, and draws in [0,10] give a score in [0,10] |
| StrategyCenter.EvaluateTool | js/strategy-center.js:816-824 | the loop's result is the weighted score of the criterion draws, and it is defined |
| StrategyCenter.KeywordLineReads | js/strategy-center.js:479-493 | a find with a fallback: the first line mentioning the keyword (case-folded) or the default when none does |
| StrategyCenter.ParseAIInsights | js/strategy-center.js:471-495 | always three insights titled opportunity, risk and trend, in that order |
| StrategyCenter.ParseAIInsightsReads | js/strategy-center.js:473-493 | each insight's description is the first non-blank reply line with its keyword, or its default |
| StrategyCenter.FallbackInsights | js/strategy-center.js:497-515 | three insights titled Key Opportunity Identified, Risk Alert and Market Trend; the risk and trend sentences are the parser's defaults, and the opportunity's adds the training recommendation |
| StrategyCenter.FallbackLikeParsed | js/strategy-center.js:471-515 | the fallback cards carry the same icons and titles as the cards parsed from any reply |
| StrategyCenter.GenerateStrategicInsights | js/strategy-center.js:433-469 | null exactly when a key is stored and the AI call returns an empty reply; fallback without a key or when the call throws; parsed reply otherwise |
| DeveloperHub.ToolScore | js/developer-hub.js:311-325 | the score is the evaluation score (absent as 0) plus a whole bonus of 0 to 3 points: 2 exactly for a tool of interest and plus 1 exactly for an AI_FIRST_IDE tool of an advanced developer |
| DeveloperHub.ToolCandidates | js/developer-hub.js:303-306 | exactly the catalogue tools not in use whose status is PILOT_COMPLETE or EVALUATION |
| DeveloperHub.GenerateToolRecommendations | js/developer-hub.js:303-309 | at most three candidates, highest score first |
| DeveloperHub.ToolRecommendationsAreTop | js/developer-hub.js:307-308 | a candidate left out means three were recommended, each scoring at least as high as it |
| DeveloperHub.RelevantCurricula | js/developer-hub.js:216-225 | beginners see beginner courses, intermediates beginner and intermediate ones, in catalogue order, and every visible course is kept |
| DeveloperHub.AdvancedSeesEverything | js/developer-hub.js:224 | any other level sees the whole catalogue unchanged |
| DeveloperHub.BeginnerPathInsideIntermediate | js/developer-hub.js:221-225 | a beginner's path is the beginner part of an intermediate's path |
| DeveloperHub.FindCurrentCourse | js/developer-hub.js:237-242 | the first course strictly between 0 and 100 percent complete, else the first course; nothing only for an empty list |
| DeveloperHub.BoostedProperties | js/developer-hub.js:458-470 | the same skills; unlisted or zero skills unchanged; listed positive skills raised by their boost but never past 100 |
| DeveloperHub.SkillProfile.UpdateSkillScores | js/developer-hub.js:466-470 | the loop leaves the skill table equal to the boosted table of the old one |
| DeveloperHub.OverallProgress | js/developer-hub.js:205 | the mean of the percentages, defined exactly when there is at least one skill (NaN otherwise) |
| DeveloperHub.OverallProgressBounds | js/developer-hub.js:205 | the mean lies between the lowest and highest bound of the percentages |
| DeveloperHub.OverallProgressOrderFree | js/developer-hub.js:205 | listing the same percentages in another order gives the same mean |
| DeveloperHub.UserStatsReadBack | js/developer-hub.js:148-154 | the shown level differs from the stored one only by an upper-case first letter; courses split on '/' into the two counts; points are the number's digits with separators; the rank is '#' and the rank |
| DeveloperHub.SkillAssessment.constructor | js/developer-hub.js:525-530 | no assessment under way, question 0, no answers |
| DeveloperHub.SkillAssessment.Start | js/developer-hub.js:532-537 | takes up the first assessment when there is one, otherwise changes nothing |
| DeveloperHub.SkillAssessment.SubmitAnswer | js/developer-hub.js:544-553 | records the answer and counts the question; completes exactly when the count reaches the assessment's questions |
| ExecutiveDashboard.AverageProductivityGain | archive/js/executive-dashboard.js:123-131 | `Math.round` of the mean: within half a point of the mean of the three improvements |
| ExecutiveDashboard.AverageProductivityGainBounds | archive/js/executive-dashboard.js:123-131 | with whole-number improvements the shown gain stays within their range |
| ExecutiveDashboard.AverageProductivityGainExample | archive/js/executive-dashboard.js:130 | 40, 30, 20 give 30; 35, 30, 20 give 28 |
| ExecutiveDashboard.FirstMentioning | archive/js/executive-dashboard.js:410-415 | a non-empty default gives a non-empty field |
| ExecutiveDashboard.FirstMentioningReads | archive/js/executive-dashboard.js:410-415 | a find with a fallback: the first line containing one of the words, or the default when no line does |
| ExecutiveDashboard.ParseAIResponse | archive/js/executive-dashboard.js:405-417 | all three summary fields are always filled |
| ExecutiveDashboard.ParseAIResponseReads | archive/js/executive-dashboard.js:407-415 | each field is the first non-blank reply line with one of its words, or its default |
| ExecutiveDashboard.KeywordsAreCaseSensitive | archive/js/executive-dashboard.js:410 | the words are matched with their letter case: "big win" is no key win |
| ExecutiveDashboard.ExecutiveSummary | archive/js/executive-dashboard.js:352-403 | the AI reading is shown only when a key is stored and the call returns a non-empty reply; the fallback otherwise |
| ExecutiveDashboard.ProductivityBars | archive/js/executive-dashboard.js:229-236 | one bar per deployed or pilot-complete tool |
| ExecutiveDashboard.ProductivityBarsOrder | archive/js/executive-dashboard.js:229-236 | bars follow the tools' order: the bars of two lists are the bars of each, concatenated |
| ExecutiveDashboard.ProductivityBarsSingle | archive/js/executive-dashboard.js:229-236 | a tool in use gets its name and gain, 0 without an ROI calculation; any other tool no bar |
| ExecutiveDashboard.CostBenefitPoints | archive/js/executive-dashboard.js:279-289 | one point per deployed or pilot-complete tool that has an ROI calculation |
| ExecutiveDashboard.CostBenefitPointsOrder | archive/js/executive-dashboard.js:279-289 | points follow the tools' order |
| ExecutiveDashboard.CostBenefitPointsSingle | archive/js/executive-dashboard.js:283-288 | a plotted tool's point is its monthly cost against its monthly savings |
| ExecutiveDashboard.PlottedHaveBars | archive/js/executive-dashboard.js:229-289 | there are never more cost points than productivity bars |
| ExecutiveDashboard.FallbackInsights | archive/js/executive-dashboard.js:419-427 | the template insights: the formatted key win and resource need, and the fixed context-engineering opportunity |
| ExecutiveDashboard.GenerateReportData | archive/js/executive-dashboard.js:492-511 | the report always carries the template insights, lists exactly the tools in use, and the alerts or none when they are missing |
| ExecutiveDashboard.RiskSectionLines | archive/js/executive-dashboard.js:546 | the risk section has one line per alert, each that alert's bullet |
| ExecutiveDashboard.PortfolioSectionLines | archive/js/executive-dashboard.js:550 | the portfolio section has one line per reported tool, each that tool's bullet |
| StrategyHub.StoredOr | js/main.js:17-19 | a stored entry with a fallback: the stored text when present and non-empty, else the default |
| StrategyHub.StoredKey | js/main.js:18 | no key exactly when the entry is absent or empty; otherwise the stored, non-empty key |
| StrategyHub.SavedKey | js/main.js:134 | no key exactly when the typed text is all whitespace; otherwise the trimmed, non-empty text |
| StrategyHub.Hub.constructor | js/main.js:12-20 | role, key and theme come from storage with the defaults developer, none and light |
| StrategyHub.Hub.SaveSettings | js/main.js:129-146 | a present key field sets the key to the trimmed text, a present theme field sets the theme, storage records both, the role is untouched |
| StrategyHub.Hub.ChangeRole | js/main.js:53-57 | the role becomes the selected one and is stored; key and theme unchanged |
| StrategyHub.SavedKeyStoredTrimmed | js/main.js:134-135 | whatever is typed, storage receives the trimmed text |
| StrategyHub.SavedKeySurvivesReload | js/main.js:16-146 | a reload reads back exactly the key that was saved, and no key after a blank one |
| StrategyHub.ReopenAndSaveKeepsKey | js/main.js:108-146 | opening the settings and saving them unchanged keeps the key |
| StrategyHub.CallAIAPI | js/main.js:215-247 | a request is made exactly when a key is held; a reply exactly when the call succeeds with non-empty candidate text, which it returns |
| StrategyHub.BlankKeyMakesNoRequest | js/main.js:129-219 | a key saved blank never reaches the AI service |
| StrategyHub.GenerateFallbackInsights | js/main.js:250-270 | three lines: the tools list, the training list, the general list for any other kind |
| StrategyHub.FallbackInsightsDistinct | js/main.js:250-270 | the three lists share no line, so kinds with different lists never show the same line |
| StrategyHub.NotificationColor | js/main.js:164-171 | one of the four classes, the info class for any unknown kind |
| StrategyHub.NotificationColorsDistinct | js/main.js:164-171 | distinct known kinds get distinct colours |
| StrategyHub.CreateDefaultOptions | js/main.js:326-346 | the title is shown exactly when it is truthy; legend at the bottom, y axis from zero, responsive without a fixed aspect ratio |
| StrategyHub.GenerateColors | js/main.js:348-355 | exactly `count` colours |
| StrategyHub.GenerateColorsCycle | js/main.js:348-355 | the i-th colour is palette entry i mod 12, colours repeat every twelve, and the first twelve are all different |
| StrategyHub.GenerateColorsPrefix | js/main.js:354 | asking for more colours extends the list for fewer |
| UriEncoding.Utf8RoundTrip | enterprise-ai-strategy/hugo-site/static/js/shields-integration.js:36-38 | the UTF-8 bytes `encodeURIComponent` escapes announce their own length in the lead byte and spell the character back |
| UriEncoding.ReadBytesOfEscapes | enterprise-ai-strategy/hugo-site/static/js/shields-integration.js:36-38 | `%XX` escapes of a byte run read back as exactly those bytes, whatever follows |
| UriEncoding.EncodeAlphabet | enterprise-ai-strategy/hugo-site/static/js/shields-integration.js:36-38 | an encoded badge part holds only unreserved characters and `%XX` escapes, and holds a '-' exactly when the input does |
| UriEncoding.DecodeEncode | enterprise-ai-strategy/hugo-site/static/js/shields-integration.js:36-38 | decoding the encoding gives the text back, for every text |
| UriEncoding.EncodeInjective | enterprise-ai-strategy/hugo-site/static/js/shields-integration.js:36-38 | different texts never encode to the same URL part |
| UriEncoding.EncodeUnreservedIdentity | enterprise-ai-strategy/hugo-site/static/js/shields-integration.js:36-38 | text made only of unreserved characters is left as it is |
| UriEncoding.EncodeConcat | enterprise-ai-strategy/hugo-site/static/js/shields-integration.js:36-38 | the encoding works character by character: encoding a concatenation concatenates the encodings |
| UriEncoding.EncodeExamples | enterprise-ai-strategy/hugo-site/static/js/shields-integration.js:36-38 | a space becomes %20 and a percent sign %25 |
| UriEncoding.FormDecodeEncode | enterprise-ai-strategy/operational-layer/web-ui/src/services/apiService.ts:178-184 | the form serialisation `URLSearchParams` writes (a space as '+', only A-Z a-z 0-9 * - . _ kept) reads back with the form parser as the text, for every text |
| UriEncoding.FormEncodeAlphabet | enterprise-ai-strategy/operational-layer/web-ui/src/services/apiService.ts:178-184 | a form-encoded name or value holds only those kept characters, '+' and `%XX` escapes, so never '&' or '=' |
| UriEncoding.FormEncodeConcat | enterprise-ai-strategy/operational-layer/web-ui/src/services/apiService.ts:178-184 | form encoding works character by character |
| UriEncoding.FormEncodeUnreservedIdentity | enterprise-ai-strategy/operational-layer/web-ui/src/services/apiService.ts:178-184 | text made only of the kept characters is left as it is |
| UriEncoding.FormEncodeExamples | enterprise-ai-strategy/operational-layer/web-ui/src/services/apiService.ts:178-184 | "a b" is written "a+b"; '(' is escaped as %28 in a query though a URI component keeps it |
| Shields.StatusBandsAgree | enterprise-ai-strategy/hugo-site/static/js/shields-integration.js:248-261 | the status word and the status colour change at the same thresholds (90, 80, 70), band for band |
| Shields.OverallStatusMonotone | enterprise-ai-strategy/hugo-site/static/js/shields-integration.js:248-254 | a higher success rate never gives a worse status |
| Shields.RiskBandsAgree | enterprise-ai-strategy/hugo-site/static/js/shields-integration.js:269-281 | the risk level and the risk colour change at the same thresholds (3, 6, 8), band for band |
| Shields.RiskLevelMonotone | enterprise-ai-strategy/hugo-site/static/js/shields-integration.js:269-274 | a higher risk score never gives a lower risk level |
| Shields.BudgetColorMonotone | enterprise-ai-strategy/hugo-site/static/js/shields-integration.js:263-267 | using more of the budget never gives a calmer colour |
| Shields.ComplianceColorMonotone | enterprise-ai-strategy/hugo-site/static/js/shields-integration.js:283-288 | a higher compliance score never gives a more alarming colour |
| Shields.AppendParam | enterprise-ai-strategy/hugo-site/static/js/shields-integration.js:43-45 | the parameter is appended exactly when its value is given and non-empty |
| Shields.GenerateShield | enterprise-ai-strategy/hugo-site/static/js/shields-integration.js:26-48 | the URL built by successive appends is the base, the three encoded texts joined by '-', the style and the given options in order |
| Shields.ShieldUrlParts | enterprise-ai-strategy/hugo-site/static/js/shields-integration.js:41-45 | the URL is the base, the badge path, '?' and the query |
| Shields.NoDashInEncoding | enterprise-ai-strategy/hugo-site/static/js/shields-integration.js:36-38 | a text without '-' encodes without '-', so the encoded parts cannot be confused with the separators |
| Shields.BadgePathAlphabet | enterprise-ai-strategy/hugo-site/static/js/shields-integration.js:36-41 | the badge path holds only unreserved characters and escapes, so no '?' |
| Shields.BadgePathReadsBack | enterprise-ai-strategy/hugo-site/static/js/shields-integration.js:36-41 | the badge path splits at '-' into exactly three parts, which decode to the caption, the message and the colour |
| Shields.ShieldUrlReadsBack | enterprise-ai-strategy/hugo-site/static/js/shields-integration.js:26-48 | after the base, the URL splits at its first '?' into the badge path and the query, and the badge service reads back the caption, message and colour asked for |
| Shields.StatusBadge | enterprise-ai-strategy/hugo-site/static/js/shields-integration.js:402-412 | the caption and the status as given; online is bright green, offline red, maintenance yellow, unknown light grey, and any other status blue |
| Shields.MetricBadge | enterprise-ai-strategy/hugo-site/static/js/shields-integration.js:417-429 | a rising trend adds ↗ in bright green, a falling one ↘ in red, and a zero or absent trend leaves a blue plain value |
| Shields.PercentageBadge | enterprise-ai-strategy/hugo-site/static/js/shields-integration.js:434-445 | the message is the number with '%', coloured by its band |
| Shields.PercentageColorMonotone | enterprise-ai-strategy/hugo-site/static/js/shields-integration.js:438-442 | a higher percentage never gives a more alarming colour |
| Shields.CountBadge | enterprise-ai-strategy/hugo-site/static/js/shields-integration.js:450-469 | with a non-zero maximum the message is count/max, coloured by the ratio; otherwise the plain count, coloured by its size |
| Shields.CountColorBands | enterprise-ai-strategy/hugo-site/static/js/shields-integration.js:462-466 | without a maximum, bright green exactly for 0, red above 5 |
| Shields.CountAtMaximum | enterprise-ai-strategy/hugo-site/static/js/shields-integration.js:455-461 | with a maximum, reaching it is bright green |
| Shields.RealOr | enterprise-ai-strategy/hugo-site/static/js/shields-integration.js:118 | a figure with a fallback: a missing or zero figure takes the default |
| Shields.IntOr | enterprise-ai-strategy/hugo-site/static/js/shields-integration.js:187 | a count with a fallback: a missing or zero count takes the default |
| Shields.ExecutiveBadges | enterprise-ai-strategy/hugo-site/static/js/shields-integration.js:113-138 | four badges, each with its caption, message and colour: the status word and colour from the success rate (0 when missing), the rounded budget use with its budget colour (87 when missing), the risk level and colour (2.1 when missing), and the portfolio ROI (240 when missing) in bright green |
| Shields.ExecutiveBadgeDefaults | enterprise-ai-strategy/hugo-site/static/js/shields-integration.js:113-138 | with no data: Needs Attention in red, 87% Utilized in yellow, Low risk, 240% ROI |
| Shields.IncidentsBadge | enterprise-ai-strategy/hugo-site/static/js/shields-integration.js:205-209 | bright green exactly when the reply says 0 incidents; a missing count shows 0 but in red |
| Shields.HighRiskToolsBadgeAsWritten | enterprise-ai-strategy/hugo-site/static/js/shields-integration.js:215-219 | a non-zero count is shown as it is, a missing or zero count as "1"; bright green exactly for an explicit 0 |
| Shields.HighRiskToolsZeroShownAsOne | enterprise-ai-strategy/hugo-site/static/js/shields-integration.js:215-219 | a reply of 0 high-risk tools is drawn as "1" in bright green |
| Shields.HighRiskToolsBadge | enterprise-ai-strategy/hugo-site/static/js/shields-integration.js:215-219 | the count shown is the count received; the default "1" only when it is missing |
| Shields.HighRiskToolsBadgeConsistent | enterprise-ai-strategy/hugo-site/static/js/shields-integration.js:215-219 | bright green exactly when the badge shows 0 |
| Shields.RiskBadges | enterprise-ai-strategy/hugo-site/static/js/shields-integration.js:198-223 | four badges: the risk level and colour, the incidents badge, the compliance score with a % sign and its colour (98 when missing), and the high-risk-tools badge as written, which shows "1" for a count of 0 |
| Shields.ToolRegistryBadges | enterprise-ai-strategy/hugo-site/static/js/shields-integration.js:143-168 | four badges, none showing 0: Total Evaluated in blue, Approved in bright green, In Pilot in yellow and Under Review in orange, each showing its count, or its default 173, 42, 12 or 28 when the count is missing or zero |
| Shields.ToolRegistryBadgeCounts | enterprise-ai-strategy/hugo-site/static/js/shields-integration.js:143-168 | a registry count that is given and not zero is shown as it is |
| Shields.ToolRegistryBadgeDefaults | enterprise-ai-strategy/hugo-site/static/js/shields-integration.js:147-162 | with no data the four badges show 173, 42, 12 and 28 |
| Shields.PaybackBadge | enterprise-ai-strategy/hugo-site/static/js/shields-integration.js:185-189 | the payback figure, 14 when missing, followed by " Months" |
| Shields.BadgeUrlReadsBack | enterprise-ai-strategy/hugo-site/static/js/shields-integration.js:228-243 | a badge is drawn in the for-the-badge style and nothing else, and its URL reads back to its caption, message and colour |
| Shields.PlainShieldUrl | enterprise-ai-strategy/hugo-site/static/js/shields-integration.js:36-41 | texts made only of unreserved characters appear in the URL unchanged, and with no options the style is flat-square |
| Shields.OfflineBadge | enterprise-ai-strategy/hugo-site/static/js/shields-integration.js:349-355 | the offline placeholder's URL, written out |
| JobsPage.LoadJobsKeepsMatching | enterprise-ai-strategy/operational-layer/web-ui/src/components/JobsPage.tsx:168-179 | the loaded list is exactly the jobs both select boxes accept, in their original order |
| JobsPage.DefaultFiltersKeepAll | enterprise-ai-strategy/operational-layer/web-ui/src/components/JobsPage.tsx:171-177 | with both filters at "all" every job is listed |
| JobsPage.CountJobs | enterprise-ai-strategy/operational-layer/web-ui/src/components/JobsPage.tsx:272-278 | the "all" count is the number of loaded jobs |
| JobsPage.CountsAccount | enterprise-ai-strategy/operational-layer/web-ui/src/components/JobsPage.tsx:272-278 | the four status counts add up to all the jobs except the cancelled ones |
| JobsPage.TabRowsAgreeWithLabels | enterprise-ai-strategy/operational-layer/web-ui/src/components/JobsPage.tsx:280-286 | tab 0 lists every job; any other tab lists exactly the jobs of its status, as many as its label counts |
| JobsPage.RowActionsExclusive | enterprise-ai-strategy/operational-layer/web-ui/src/components/JobsPage.tsx:450-490 | no row offers both cancel and retry, and a progress bar appears only on a row that offers cancel |
| JobsPage.DurationParts | enterprise-ai-strategy/operational-layer/web-ui/src/components/JobsPage.tsx:257-261 | for a forward elapsed time, hours·3600 + minutes·60 + seconds is the whole seconds elapsed, with minutes and seconds under 60 |
| JobsPage.DurationTextReads | enterprise-ai-strategy/operational-layer/web-ui/src/components/JobsPage.tsx:263-269 | each of the three duration shapes reads back as the total of its parts |
| JobsPage.FormatDurationReadsBack | enterprise-ai-strategy/operational-layer/web-ui/src/components/JobsPage.tsx:254-270 | the duration text of a forward elapsed time reads back to its whole seconds |
| JobsPage.FormatDurationShape | enterprise-ai-strategy/operational-layer/web-ui/src/components/JobsPage.tsx:263-269 | hours and minutes appear once an hour has passed; under a minute only seconds |
| JobsPage.Loaded | enterprise-ai-strategy/operational-layer/web-ui/src/components/JobsPage.tsx:168-181 | after a load the page lists the jobs the filters accept, with pages for them; the filters and the refresh timer are unchanged |
| JobsPage.StaleRefreshTimer | enterprise-ai-strategy/operational-layer/web-ui/src/components/JobsPage.tsx:152-161 | the timer tests the job list captured when it was installed, so a page opened over a running job never refreshes itself |
| JobsPage.TickReloadsIff | enterprise-ai-strategy/operational-layer/web-ui/src/components/JobsPage.tsx:156 | the intended tick reloads exactly while a listed job is running or pending |
| JobsPage.TickAfterLoad | enterprise-ai-strategy/operational-layer/web-ui/src/components/JobsPage.tsx:152-181 | after a load the intended tick reloads exactly when the loaded list still has a running or pending job |
| UsersPage.RolePermissions | enterprise-ai-strategy/operational-layer/web-ui/src/components/UsersPage.tsx:185-190 | an unknown role name grants nothing; each known role at least three permissions |
| UsersPage.OnlyAdminsManageUsers | enterprise-ai-strategy/operational-layer/web-ui/src/components/UsersPage.tsx:185-190 | managing users and changing system settings are granted to the admin role and to no other |
| UsersPage.FormChanged | enterprise-ai-strategy/operational-layer/web-ui/src/components/UsersPage.tsx:284-295 | the named field takes the value and nothing else changes, except that a new role also replaces the permissions with that role's |
| UsersPage.FormChangeKeepsPermissions | enterprise-ai-strategy/operational-layer/web-ui/src/components/UsersPage.tsx:284-295 | edits through the form's own inputs keep the permissions those of the selected role |
| UsersPage.CreateUser | enterprise-ai-strategy/operational-layer/web-ui/src/components/UsersPage.tsx:238-250 | the dialog opens empty for a new developer, with the developer permissions and nothing selected |
| UsersPage.EditUser | enterprise-ai-strategy/operational-layer/web-ui/src/components/UsersPage.tsx:252-264 | the dialog opens in edit mode on the user, with every form field copied from it |
| UsersPage.CloseUserDialog | enterprise-ai-strategy/operational-layer/web-ui/src/components/UsersPage.tsx:271-282 | the dialog closes with nothing selected and the empty form; the edit mode is left as it was |
| UsersPage.ClosedFormHasNoPermissions | enterprise-ai-strategy/operational-layer/web-ui/src/components/UsersPage.tsx:242-247 | the form left after closing says developer but carries no permissions, unlike the form for a new user |
| UsersPage.SaveGate | enterprise-ai-strategy/operational-layer/web-ui/src/components/UsersPage.tsx:699 | a new form cannot be saved until email, name and department are typed; an edited user's can exactly when they are all non-empty |
| UsersPage.SaveUser | enterprise-ai-strategy/operational-layer/web-ui/src/components/UsersPage.tsx:297-312 | the call it would make is an update of the selected user exactly in edit mode with a selection, otherwise a create; the dialog then closes |
| UsersPage.SaveNotice | enterprise-ai-strategy/operational-layer/web-ui/src/components/UsersPage.tsx:300-305 | an update notifies "User updated successfully" and a creation "User created successfully", and only those |
| UsersPage.DeleteUser | enterprise-ai-strategy/operational-layer/web-ui/src/components/UsersPage.tsx:266-269 | the user is selected and the confirmation opens; the user dialog is untouched |
| UsersPage.ConfirmDelete | enterprise-ai-strategy/operational-layer/web-ui/src/components/UsersPage.tsx:314-326 | without a selection nothing happens; otherwise it yields the selected user's id, the one it would delete, and the confirmation closes |
| UsersPage.DeleteConfirmsAskedUser | enterprise-ai-strategy/operational-layer/web-ui/src/components/UsersPage.tsx:266-326 | confirming a deletion names the user that was asked about |
| UsersPage.CreateThenSaveCreates | enterprise-ai-strategy/operational-layer/web-ui/src/components/UsersPage.tsx:238-312 | a new-user dialog opened after an edit still saves as a create |
| UsersPage.LoadUsersKeepsMatching | enterprise-ai-strategy/operational-layer/web-ui/src/components/UsersPage.tsx:211-226 | the listed users are exactly those the role, department and status filters all accept, in order |
| UsersPage.CountUsers | enterprise-ai-strategy/operational-layer/web-ui/src/components/UsersPage.tsx:368-376 | the "all" count is the number of loaded users |
| UsersPage.CountsAccount | enterprise-ai-strategy/operational-layer/web-ui/src/components/UsersPage.tsx:368-376 | active plus inactive, and the four role counts, each add up to all the users |
| UsersPage.TabRowsAgreeWithLabels | enterprise-ai-strategy/operational-layer/web-ui/src/components/UsersPage.tsx:378-382 | each tab shows as many rows as its label counts, and the active and inactive tabs split the list |
| ApprovalsPage.StatusNameInjective | enterprise-ai-strategy/operational-layer/web-ui/src/components/ApprovalsPage.tsx:339-345 | the tab values are distinct, so a status is known from its name |
| ApprovalsPage.PriorityColor | enterprise-ai-strategy/operational-layer/web-ui/src/components/ApprovalsPage.tsx:297-310 | the four priorities' colours, grey for anything else |
| ApprovalsPage.PriorityColorsDistinct | enterprise-ai-strategy/operational-layer/web-ui/src/components/ApprovalsPage.tsx:297-310 | each known priority has a colour of its own, and none of them is the fallback grey |
| ApprovalsPage.StatusColor | enterprise-ai-strategy/operational-layer/web-ui/src/components/ApprovalsPage.tsx:312-325 | each status has its own chip colour, both ways |
| ApprovalsPage.LoadApprovalsKeepsMatching | enterprise-ai-strategy/operational-layer/web-ui/src/components/ApprovalsPage.tsx:245-259 | the listed approvals are exactly those the priority, content-type and agent filters all accept, in order |
| ApprovalsPage.DefaultFiltersKeepAll | enterprise-ai-strategy/operational-layer/web-ui/src/components/ApprovalsPage.tsx:247-257 | with every filter at "all" the whole list is shown |
| ApprovalsPage.CountApprovals | enterprise-ai-strategy/operational-layer/web-ui/src/components/ApprovalsPage.tsx:331-337 | the "all" count is the number of loaded approvals |
| ApprovalsPage.CountsAccount | enterprise-ai-strategy/operational-layer/web-ui/src/components/ApprovalsPage.tsx:331-337 | every approval has exactly one status, so the four status counts add up to all |
| ApprovalsPage.TabRowsAgreeWithLabels | enterprise-ai-strategy/operational-layer/web-ui/src/components/ApprovalsPage.tsx:339-345 | each tab shows as many cards as its label counts |
| ApprovalsPage.EmptyMessageIffNoneInTab | enterprise-ai-strategy/operational-layer/web-ui/src/components/ApprovalsPage.tsx:578-581 | "No approvals found" appears exactly when no loaded approval belongs to the tab; on the first tab exactly when none loaded |
| ApprovalsPage.ReviewedStatus | enterprise-ai-strategy/operational-layer/api/main.py:456-482 | a review never leaves an item pending or asking for changes |
| ApprovalsPage.RejectNeedsComment | enterprise-ai-strategy/operational-layer/web-ui/src/components/ApprovalsPage.tsx:629 | approving needs no comment; rejecting is enabled exactly when the comment holds a non-space character |
| ApprovalsPage.RejectMessageMisspelt | enterprise-ai-strategy/operational-layer/web-ui/src/components/ApprovalsPage.tsx:286 | the written notification says "approved" but "rejectd", which is not the rejected status's name |
| ApprovalsPage.SubmitMessage | enterprise-ai-strategy/operational-layer/web-ui/src/components/ApprovalsPage.tsx:286 | the notification names the status the review gives |
| ApprovalsPage.SubmitMessageAgreesOnApprove | enterprise-ai-strategy/operational-layer/web-ui/src/components/ApprovalsPage.tsx:286 | the corrected notification is the written one for approvals and differs from it for rejections |
| ApprovalsPage.ReviewDialog.constructor | enterprise-ai-strategy/operational-layer/web-ui/src/components/ApprovalsPage.tsx:75-79 | nothing selected, no action, no comments, both dialogs closed |
| ApprovalsPage.ReviewDialog.HandleReview | enterprise-ai-strategy/operational-layer/web-ui/src/components/ApprovalsPage.tsx:269-274 | the item and action are recorded, the review dialog opens with the comments cleared; submit is enabled exactly for an approval |
| ApprovalsPage.ReviewDialog.HandlePreview | enterprise-ai-strategy/operational-layer/web-ui/src/components/ApprovalsPage.tsx:276-279 | the item is selected and the preview opens; the review state is untouched |
| ApprovalsPage.ReviewDialog.SetComments | enterprise-ai-strategy/operational-layer/web-ui/src/components/ApprovalsPage.tsx:614 | only the comments change |
| ApprovalsPage.ReviewDialog.CancelReview | enterprise-ai-strategy/operational-layer/web-ui/src/components/ApprovalsPage.tsx:623-625 | only the review dialog closes |
| ApprovalsPage.ReviewDialog.HandleSubmitReview | enterprise-ai-strategy/operational-layer/web-ui/src/components/ApprovalsPage.tsx:281-295 | without an item or an action nothing happens; otherwise it yields the review request it would send, with the typed comments, shows the notification as written, and the dialog closes cleared |
| ApprovalsPage.ReviewThenSubmit | enterprise-ai-strategy/operational-layer/web-ui/src/components/ApprovalsPage.tsx:269-295 | reviewing an item and submitting yields the request for that item's id, the chosen action, the typed comments and the notification as written, and leaves the dialog closed and cleared |
| SettingsPage.SettingChanged | enterprise-ai-strategy/operational-layer/web-ui/src/components/SettingsPage.tsx:184-192 | the named field of the named section takes the value; every other field and every other section is unchanged |
| SettingsPage.SettingChangedKeepsSections | enterprise-ai-strategy/operational-layer/web-ui/src/components/SettingsPage.tsx:184-192 | the record keeps its five sections |
| SettingsPage.SettingChangedLastWins | enterprise-ai-strategy/operational-layer/web-ui/src/components/SettingsPage.tsx:184-192 | editing a field twice leaves the second value |
| SettingsPage.SettingChangesCommute | enterprise-ai-strategy/operational-layer/web-ui/src/components/SettingsPage.tsx:184-192 | edits to two different fields give the same record in either order |
| SettingsPage.SettingChangedSameValue | enterprise-ai-strategy/operational-layer/web-ui/src/components/SettingsPage.tsx:184-192 | writing back the value a field already holds changes nothing |
| SettingsPage.TrimEach | enterprise-ai-strategy/operational-layer/web-ui/src/components/SettingsPage.tsx:541 | each item is trimmed, none added or dropped |
| SettingsPage.ReadList | enterprise-ai-strategy/operational-layer/web-ui/src/components/SettingsPage.tsx:541 | an edited list field always stores at least one item |
| SettingsPage.ListRoundTrip | enterprise-ai-strategy/operational-layer/web-ui/src/components/SettingsPage.tsx:540-541 | a non-empty list of comma-free items with no white space at either end shows and reads back as itself |
| SettingsPage.EmptyListReadsBackBlank | enterprise-ai-strategy/operational-layer/web-ui/src/components/SettingsPage.tsx:540-541 | an empty list shows as an empty field, which reads back as one empty item |
| SettingsPage.ReadListClean | enterprise-ai-strategy/operational-layer/web-ui/src/components/SettingsPage.tsx:540-541 | whatever is typed, the stored items are clean, so the field then shows and reads back stably |
| SettingsPage.KeyStatusColor | enterprise-ai-strategy/operational-layer/web-ui/src/components/SettingsPage.tsx:269-280 | each key status has its own chip colour, both ways |
| SettingsPage.MaskKey | enterprise-ai-strategy/operational-layer/web-ui/src/components/SettingsPage.tsx:238 | at most the first eight characters of the key, followed by four asterisks |
| SettingsPage.MaskHidesRest | enterprise-ai-strategy/operational-layer/web-ui/src/components/SettingsPage.tsx:238 | keys that agree on their first eight characters are stored the same |
| SettingsPage.AddApiKey | enterprise-ai-strategy/operational-layer/web-ui/src/components/SettingsPage.tsx:229-248 | a form with a blank field is refused with a warning and nothing changes; otherwise one key is appended, the form is cleared and the dialog closes |
| SettingsPage.AddedKey | enterprise-ai-strategy/operational-layer/web-ui/src/components/SettingsPage.tsx:234-241 | the appended key is active, carries the form's name and service, the masked key and an id from the clock |
| SettingsPage.DeleteApiKey | enterprise-ai-strategy/operational-layer/web-ui/src/components/SettingsPage.tsx:250-251 | no key with the id remains, and every other key stays |
| SettingsPage.DeleteUndoesAdd | enterprise-ai-strategy/operational-layer/web-ui/src/components/SettingsPage.tsx:229-251 | deleting a key just added under a fresh id gives back the old list |
| SettingsPage.DeleteAbsentId | enterprise-ai-strategy/operational-layer/web-ui/src/components/SettingsPage.tsx:251 | deleting an id no key has changes nothing |
| SettingsPage.TestOutcome | enterprise-ai-strategy/operational-layer/web-ui/src/components/SettingsPage.tsx:206-221 | a reachable service succeeds with a response time of 100 to 599 ms; an unreachable one fails with no time |
| SettingsPage.ConnectionTests.constructor | enterprise-ai-strategy/operational-layer/web-ui/src/components/SettingsPage.tsx:181-182 | no test running, no results |
| SettingsPage.ConnectionTests.HandleTestConnection | enterprise-ai-strategy/operational-layer/web-ui/src/components/SettingsPage.tsx:203-227 | only the tested service's result is replaced, the test buttons are enabled again, and the notice says whether it succeeded |
| AgentsPage.CategoryColor | enterprise-ai-strategy/operational-layer/web-ui/src/components/AgentsPage.tsx:320-331 | each of the three teams has its colour, grey for any other category |
| AgentsPage.Categories | enterprise-ai-strategy/operational-layer/web-ui/src/components/AgentsPage.tsx:333-339 | each category is listed once |
| AgentsPage.CategoriesExact | enterprise-ai-strategy/operational-layer/web-ui/src/components/AgentsPage.tsx:333-339 | every agent's category is listed, and only agents' categories |
| AgentsPage.GroupAgents | enterprise-ai-strategy/operational-layer/web-ui/src/components/AgentsPage.tsx:333-339 | one pass makes a non-empty list per category, in order of first appearance, holding exactly that category's agents in their order |
| AgentsPage.GroupsNonEmpty | enterprise-ai-strategy/operational-layer/web-ui/src/components/AgentsPage.tsx:333-339 | every category the page lists has at least one agent in its group |
| AgentsPage.GroupsPartition | enterprise-ai-strategy/operational-layer/web-ui/src/components/AgentsPage.tsx:358-364 | the team sizes shown add up to the number of agents, so every agent appears in exactly one team |
| AgentsPage.DefaultsOf | enterprise-ai-strategy/operational-layer/web-ui/src/components/AgentsPage.tsx:264-269 | a parameter name has a starting value exactly when some parameter of that name declares a default, and it is the last such default |
| AgentsPage.DefaultsDistinct | enterprise-ai-strategy/operational-layer/web-ui/src/components/AgentsPage.tsx:264-269 | with distinct parameter names, each declared default is in place |
| AgentsPage.DefaultParams | enterprise-ai-strategy/operational-layer/web-ui/src/components/AgentsPage.tsx:264-269 | the loop builds exactly the declared defaults |
| AgentsPage.Shown | enterprise-ai-strategy/operational-layer/web-ui/src/components/AgentsPage.tsx:457 | an input shows its value, or empty for a missing or falsy one |
| AgentsPage.ZeroShownBlank | enterprise-ai-strategy/operational-layer/web-ui/src/components/AgentsPage.tsx:474 | a numeric parameter set to 0 shows as an empty field |
| AgentsPage.ExecuteDialog.constructor | enterprise-ai-strategy/operational-layer/web-ui/src/components/AgentsPage.tsx:66-74 | closed, no agent, no parameters, not executing |
| AgentsPage.ExecuteDialog.HandleExecuteAgent | enterprise-ai-strategy/operational-layer/web-ui/src/components/AgentsPage.tsx:261-271 | the dialog opens on the agent with its declared defaults |
| AgentsPage.ExecuteDialog.HandleCloseExecuteDialog | enterprise-ai-strategy/operational-layer/web-ui/src/components/AgentsPage.tsx:273-276 | the dialog closes with no agent and no parameters |
| AgentsPage.ExecuteDialog.HandleParameterChange | enterprise-ai-strategy/operational-layer/web-ui/src/components/AgentsPage.tsx:278-283 | only the named parameter changes |
| AgentsPage.ExecuteDialog.HandleConfirmExecution | enterprise-ai-strategy/operational-layer/web-ui/src/components/AgentsPage.tsx:285-305 | without an agent nothing happens; otherwise a success notice closes the dialog, a failure notice leaves it, and executing is cleared either way |
| AgentsPage.CanExecute | enterprise-ai-strategy/operational-layer/web-ui/src/components/AgentsPage.tsx:387-410 | the run button is enabled exactly for active agents, which are exactly those whose status chip is green ("success") |
| App.FilteredNavigation | enterprise-ai-strategy/operational-layer/web-ui/src/App.tsx:129-131 | every entry that is not admin-only is kept, and an admin-only entry only for an administrator or a manager; nothing is added |
| App.NavigationByRole | enterprise-ai-strategy/operational-layer/web-ui/src/App.tsx:129-131 | administrators and managers see every entry in order; anyone else exactly the entries that are not admin-only, in order |
| App.DropsAdminEntry | enterprise-ai-strategy/operational-layer/web-ui/src/App.tsx:129-131 | with one admin-only entry, filtering removes exactly that entry |
| App.UsersIsAdminOnly | enterprise-ai-strategy/operational-layer/web-ui/src/App.tsx:76-83 | of the six entries only Users is admin-only |
| App.ConsoleEntriesWithoutUsers | enterprise-ai-strategy/operational-layer/web-ui/src/App.tsx:76-83 | without the admin entries the drawer is the six entries less Users |
| App.ConsoleNavigation | enterprise-ai-strategy/operational-layer/web-ui/src/App.tsx:76-131 | all six entries for an administrator or manager; for anyone else all but Users, in order |
| App.Render | enterprise-ai-strategy/operational-layer/web-ui/src/App.tsx:168-173 | the login page is rendered exactly for a visitor without a user away from /login |
| App.Redirect | enterprise-ai-strategy/operational-layer/web-ui/src/App.tsx:102-109 | the shell navigates exactly when there is no user and the path is not /login, and then to /login |
| App.RedirectMatchesRender | enterprise-ai-strategy/operational-layer/web-ui/src/App.tsx:102-173 | the redirect fires exactly when the login page is rendered in place of the layout |
| App.RedirectSettles | enterprise-ai-strategy/operational-layer/web-ui/src/App.tsx:102-109 | once on /login no further redirect fires |
| App.ShowNotification | enterprise-ai-strategy/operational-layer/web-ui/src/App.tsx:121-123 | the snackbar opens with the given message and severity |
| App.ShowMessage | enterprise-ai-strategy/operational-layer/web-ui/src/App.tsx:121 | a notification without a severity is shown as info |
| App.CloseNotification | enterprise-ai-strategy/operational-layer/web-ui/src/App.tsx:125-127 | only the open flag is cleared; message and severity stay |
| App.NotificationsReplace | enterprise-ai-strategy/operational-layer/web-ui/src/App.tsx:121-127 | a new notification replaces an earlier one, and closing keeps the last message |
| App.HandleLogout | enterprise-ai-strategy/operational-layer/web-ui/src/App.tsx:115-119 | the stored token and user are removed and nothing else, the shell's user is cleared and it goes to /login, after which any other page redirects to /login |
| AuthService.ParseUser | enterprise-ai-strategy/operational-layer/web-ui/src/services/authService.ts:75-84 | only text with the six fields of a stored user reads as a user |
| AuthService.ParseSerialize | enterprise-ai-strategy/operational-layer/web-ui/src/services/authService.ts:55-80 | a stored user reads back as that user |
| AuthService.NoSeparatorNoUser | enterprise-ai-strategy/operational-layer/web-ui/src/services/authService.ts:79-83 | text that is not a stored user reads as no user |
| AuthService.AuthHeaders | enterprise-ai-strategy/operational-layer/web-ui/src/services/authService.ts:127-130 | a non-empty token gives exactly one header, "Bearer " followed by the token; no token gives no header |
| AuthService.Session.constructor | enterprise-ai-strategy/operational-layer/web-ui/src/services/authService.ts:21-22 | the session starts from the given storage |
| AuthService.Session.Token | enterprise-ai-strategy/operational-layer/web-ui/src/services/authService.ts:111-113 | the token exactly when the entry is stored, and then the stored text |
| AuthService.Session.CurrentUser | enterprise-ai-strategy/operational-layer/web-ui/src/services/authService.ts:75-84 | no user for a missing or empty entry; otherwise what the stored text reads as |
| AuthService.Session.Logout | enterprise-ai-strategy/operational-layer/web-ui/src/services/authService.ts:67-70 | the token and the user entries go and nothing else; afterwards no token, no user, not authenticated, and no role is held |
| AuthService.Session.Login | enterprise-ai-strategy/operational-layer/web-ui/src/services/authService.ts:28-62 | a rejected login changes nothing and reports the server's detail or "Login failed"; an accepted one stores the token, then the user when the lookup succeeds, and reports each failure |
| AuthService.TokenExpired | enterprise-ai-strategy/operational-layer/web-ui/src/services/authService.ts:152-165 | no token or an undecodable payload counts as expired; otherwise the token is expired exactly when its `exp` claim is present and earlier than now, so a payload without `exp` never expires |
| AuthService.Session.RefreshAuth | enterprise-ai-strategy/operational-layer/web-ui/src/services/authService.ts:152-183 | an expired or unreadable token, or a failed lookup, logs out; otherwise the fresh user is stored and returned |
| AuthService.HasRoleIff | enterprise-ai-strategy/operational-layer/web-ui/src/services/authService.ts:135-147 | a role is held exactly by a readable user who is an administrator or has that role |
| AuthService.LoginThenAuthenticated | enterprise-ai-strategy/operational-layer/web-ui/src/services/authService.ts:28-57 | after a successful login the session is authenticated as the fetched user and requests carry the bearer token |
| ApiService.ErrorText | enterprise-ai-strategy/operational-layer/web-ui/src/services/apiService.ts:107 | never empty: the server's detail, else its message, else "Request failed" |
| ApiService.ClassifyCases | enterprise-ai-strategy/operational-layer/web-ui/src/services/apiService.ts:95-123 | a request succeeds exactly on a 2xx reply with a JSON body, which it returns; a 401 is "Authentication required"; other failures carry the server's text or the thrown message |
| ApiService.RequestHeaders | enterprise-ai-strategy/operational-layer/web-ui/src/services/apiService.ts:84-88 | the JSON content type, the bearer header when there is a token, and the caller's headers, which win |
| ApiService.HeadersCarryToken | enterprise-ai-strategy/operational-layer/web-ui/src/services/apiService.ts:84-88 | unless overridden, a request carries the JSON content type, and an Authorization header exactly when a token is held |
| ApiService.MakeRequest | enterprise-ai-strategy/operational-layer/web-ui/src/services/apiService.ts:78-124 | the headers sent are those above for the stored token; the result classifies the reply; a 401 logs the session out and otherwise storage is untouched |
| ApiService.SearchParams.constructor | enterprise-ai-strategy/operational-layer/web-ui/src/services/apiService.ts:178 | no pairs |
| ApiService.SearchParams.Append | enterprise-ai-strategy/operational-layer/web-ui/src/services/apiService.ts:179-181 | the pair is added at the end |
| ApiService.QueryString | enterprise-ai-strategy/operational-layer/web-ui/src/services/apiService.ts:183-184 | the serialised query is empty exactly when no pair was appended |
| ApiService.PieceHasNoSeparators | enterprise-ai-strategy/operational-layer/web-ui/src/services/apiService.ts:183 | a `name=value` piece holds no '&' and splits at its one '=' into the two form-encoded sides |
| ApiService.ParseQueryString | enterprise-ai-strategy/operational-layer/web-ui/src/services/apiService.ts:178-184 | a query string reads back, with the form parser, as the pairs that made it, in order |
| ApiService.JobsQueryPairsOrder | enterprise-ai-strategy/operational-layer/web-ui/src/services/apiService.ts:179-181 | skip, limit and status appear in that order, each exactly when given (the status when non-empty), with its value |
| ApiService.GetJobsPath | enterprise-ai-strategy/operational-layer/web-ui/src/services/apiService.ts:173-185 | the step-by-step build gives the path of those pairs |
| ApiService.JobsPathReadsBack | enterprise-ai-strategy/operational-layer/web-ui/src/services/apiService.ts:183-184 | with no filter the path is bare "/jobs"; otherwise "/jobs?" followed by a form-encoded query that reads back to the filter's pairs |
| ApiService.ReviewApprovalRequest | enterprise-ai-strategy/operational-layer/web-ui/src/services/apiService.ts:207-220 | a POST to the approval's review path with the action, and a reason that is empty exactly when none was given |
| ApiService.ExecuteBody | enterprise-ai-strategy/operational-layer/web-ui/src/services/apiService.ts:154-158 | agent name and task always; parameters, priority and approval flag exactly when given, with their values; no other field |
| ApiService.ExecuteAgentRequest | enterprise-ai-strategy/operational-layer/web-ui/src/services/apiService.ts:149-160 | a POST to the agent's execute path whose body names the agent |
| ApiService.JobFields | enterprise-ai-strategy/operational-layer/web-ui/src/services/apiService.ts:348-357 | the eight exported columns of a job |
| ApiService.QuoteAllAsWritten | enterprise-ai-strategy/operational-layer/web-ui/src/services/apiService.ts:360 | each field is put between quotes as it is |
| ApiService.QuoteAll | enterprise-ai-strategy/operational-layer/web-ui/src/services/apiService.ts:360 | each field is quoted with embedded quotes doubled |
| ApiService.JobRecords | enterprise-ai-strategy/operational-layer/web-ui/src/services/apiService.ts:348-361 | one record per job, in order |
| ApiService.ReadCsvRecord | enterprise-ai-strategy/operational-layer/web-ui/src/services/apiService.ts:359-361 | a record reads back as its fields, whatever they hold |
| ApiService.CsvReadsBack | enterprise-ai-strategy/operational-layer/web-ui/src/services/apiService.ts:336-364 | the export is the header line and then one line per job, in order, each reading back to its fields |
| ApiService.AsWrittenAgreesWithoutQuotes | enterprise-ai-strategy/operational-layer/web-ui/src/services/apiService.ts:360 | without quotes in the fields the record as written is the escaped record |
| ApiService.EmbeddedQuoteBreaksRecord | enterprise-ai-strategy/operational-layer/web-ui/src/services/apiService.ts:360 | a field holding a quote makes the record as written unreadable, while the escaped record reads back |
| Backend.RequireRole | enterprise-ai-strategy/operational-layer/api/main.py:237-243 | a request is admitted exactly for the required role or an administrator, as that user; anyone else gets 403 "Insufficient permissions" |
| Backend.ConsoleRoleCheckAgrees | enterprise-ai-strategy/operational-layer/api/main.py:237-243 | the console's role check admits exactly whom the backend's guard admits |
| Backend.ManagerSeesUsersButIsRefused | enterprise-ai-strategy/operational-layer/api/main.py:513-515 | the console's drawer shows Users to a manager, but the backend's user routes refuse a manager with 403 |
| Backend.ReadExecutionOrder | enterprise-ai-strategy/operational-layer/api/main.py:146-151 | an accepted body holds agent_name and task as texts, and without requires_approval the job needs approval |
| Backend.ConsoleExecuteBodyReads | enterprise-ai-strategy/operational-layer/api/main.py:146-151 | the backend reads the console's execute body as the console's fields, with medium priority, no parameters and approval required for those it left out |
| Backend.ReadReviewBody | enterprise-ai-strategy/operational-layer/api/main.py:164-166 | the action is read as sent, and the reason is always present, since the console always sends one |
| Backend.NewJob | enterprise-ai-strategy/operational-layer/api/main.py:340-347 | a new job is pending, made by the requester for the agent, and awaits review exactly when approval was requested |
| Backend.FinishedJob | enterprise-ai-strategy/operational-layer/api/main.py:246-300 | a run completes exactly with a known agent that produced a response, storing it; otherwise it fails with the missing-agent or exception message; start and end times are set; approval, creator and creation time are kept |
| Backend.NewApproval | enterprise-ai-strategy/operational-layer/api/main.py:280-289 | the approval opened is pending, for the job, holding the agent's content, made by the job's creator, with no reviewer and no reason |
| Backend.ReviewedApproval | enterprise-ai-strategy/operational-layer/api/main.py:456-482 | the status follows the decision, the reviewer and time are recorded, a rejection stores its reason and an approval keeps the old one; nothing else changes |
| Backend.ReviewedJob | enterprise-ai-strategy/operational-layer/api/main.py:460-479 | the job's approval status follows the decision with the reviewer and time; its run status and result are kept |
| Backend.ReviewAgain | enterprise-ai-strategy/operational-layer/api/main.py:456-482 | the latest review decides the status, and an approval after a rejection keeps the earlier rejection reason beside the approved status |
| Backend.Database.constructor | enterprise-ai-strategy/operational-layer/api/main.py:97-140 | the tables start as given |
| Backend.Database.ExecuteAgent | enterprise-ai-strategy/operational-layer/api/main.py:328-361 | an unknown agent gets 404 and nothing is written; otherwise exactly one pending job is added under the new id; approvals are untouched |
| Backend.Database.ExecuteAgentTask | enterprise-ai-strategy/operational-layer/api/main.py:246-302 | a missing job is left alone; otherwise the job is committed running, then finished, and an approval is added exactly when the completed job awaits review |
| Backend.Database.ReviewApproval | enterprise-ai-strategy/operational-layer/api/main.py:444-489 | 404 for an unknown approval and 400 for another action, changing nothing; otherwise the approval and its job, if it exists, record the decision, even for an approval already decided |
| Backend.RunEnds | enterprise-ai-strategy/operational-layer/api/main.py:246-300 | a run always ends completed with a result or failed with a message, and an approval is only opened for a completed run |
| Backend.ApprovalFollowsRequest | enterprise-ai-strategy/operational-layer/api/main.py:246-361 | a job goes up for review exactly when the console did not ask for no approval and the agent produced a response |
| Backend.ConsoleRejectStoresReason | enterprise-ai-strategy/operational-layer/web-ui/src/services/apiService.ts:216 | a rejection sent from the console without a comment stores the empty reason, not a missing one |
| Backend.SelectedJobs | enterprise-ai-strategy/operational-layer/api/main.py:393-404 | the selected jobs are those matching the status filter and visible to the user, newest first |
| Backend.PageOfJobs | enterprise-ai-strategy/operational-layer/api/main.py:393-404 | at most `limit` jobs, each from the table, matching the status and visible to the user, newest first |
| Backend.ListJobs | enterprise-ai-strategy/operational-layer/api/main.py:386-419 | a negative `skip` or `limit`, which the route accepts, is refused by the database (a server error) exactly when either is negative; otherwise the answer is that page |
| Backend.PagesJoin | enterprise-ai-strategy/operational-layer/api/main.py:404 | two consecutive pages together are the page spanning both, so paging skips and repeats nothing |
| Backend.WholeListing | enterprise-ai-strategy/operational-layer/api/main.py:393-404 | a page as large as the table holds every selected job; for an administrator without a status filter every job |
| Backend.Preview | enterprise-ai-strategy/operational-layer/api/main.py:439 | content of at most 500 characters is shown whole; longer content is its first 500 characters and "..." |
| Backend.PreviewIdempotent | enterprise-ai-strategy/operational-layer/api/main.py:439 | shortening a preview again changes nothing, and a preview is at most 503 characters |
| Backend.PendingApprovals | enterprise-ai-strategy/operational-layer/api/main.py:421-442 | exactly the pending approvals: a reordering of the summaries of the rows awaiting review, newest first, with content previews of at most 503 characters |
| Backend.SuccessRate | enterprise-ai-strategy/operational-layer/api/main.py:579 | between 0 and 100; 0 exactly without jobs or completions, 100 exactly when every job completed |
| Backend.Dashboard | enterprise-ai-strategy/operational-layer/api/main.py:563-580 | the total counts the jobs; the completed and running figures count the jobs in those states and the pending figure the pending approvals; the rate is the success rate of completed over total, and 100 exactly when every job completed |
| BaseAgent.CreateResponse | enterprise-ai-strategy/agents/base_agent.py:92-107 | the response carries the agent, task and content, with no metadata, status "success" and confidence 0.8 unless given |
| BaseAgent.AgentErrorResponse | enterprise-ai-strategy/agents/base_agent.py:155-167 | an error response has status "error", confidence 0 and the error flag as its only metadata |
| BaseAgent.ValidIff | enterprise-ai-strategy/agents/base_agent.py:109-120 | a response fails validation exactly when its content is under 100 characters or its confidence under 0.5; a default response passes exactly with 100 characters; an error response never passes |
| BaseAgent.Settle | enterprise-ai-strategy/agents/base_agent.py:143-167 | a raised call is recorded as an error response; a valid answer as it is; an invalid one with status "partial" |
| BaseAgent.SettledStatus | enterprise-ai-strategy/agents/base_agent.py:143-167 | a recorded response is "success" only for a valid successful answer; "partial" for any invalid answer, so an agent's own error response is recorded as partial |
| BaseAgent.Context.constructor | enterprise-ai-strategy/agents/base_agent.py:169 | the shared context starts with the caller's entries |
| BaseAgent.ResponseKeys | enterprise-ai-strategy/agents/base_agent.py:179 | every name of the run has its response key |
| BaseAgent.ResponseKeysExact | enterprise-ai-strategy/agents/base_agent.py:179 | a run writes the keys of its names and no others |
| BaseAgent.ContextAfter | enterprise-ai-strategy/agents/base_agent.py:173-180 | the context keeps its keys and gains the run's response keys |
| BaseAgent.ResponseKeyInjective | enterprise-ai-strategy/agents/base_agent.py:179 | different agents write under different keys |
| BaseAgent.ContextHoldsLast | enterprise-ai-strategy/agents/base_agent.py:173-180 | each agent's entry holds the content of its last response in the run |
| BaseAgent.RegisteredPrefix | enterprise-ai-strategy/agents/base_agent.py:134-137 | the run reaches exactly the leading registered names, and stops at the first unregistered one |
| BaseAgent.TeamResponses | enterprise-ai-strategy/agents/base_agent.py:173-182 | the i-th response of a run is the settled i-th call |
| BaseAgent.Orchestrator.constructor | enterprise-ai-strategy/agents/base_agent.py:125-127 | no agents and no history |
| BaseAgent.Orchestrator.RegisterAgent | enterprise-ai-strategy/agents/base_agent.py:129-132 | the agent is registered under its name, replacing any agent of that name; history untouched |
| BaseAgent.Orchestrator.ExecuteAgent | enterprise-ai-strategy/agents/base_agent.py:134-167 | an unregistered name raises and records nothing; otherwise exactly the settled response is appended and returned |
| BaseAgent.Orchestrator.ExecuteAgentTeam | enterprise-ai-strategy/agents/base_agent.py:169-182 | the agents run in order until the first unregistered name; each settled response is recorded and written into the context, which is created on the first write when the caller gave none |
| BaseAgent.AgentsUsed | enterprise-ai-strategy/agents/base_agent.py:193 | exactly the agents the history mentions |
| BaseAgent.SummaryOf | enterprise-ai-strategy/agents/base_agent.py:184-195 | the total counts the history, successes never exceed it, the rate is their ratio (0 without runs) between 0 and 1, and the agents used are those recorded |
| BaseAgent.SummaryAppend | enterprise-ai-strategy/agents/base_agent.py:184-195 | one more run adds one to the total, one to the successes exactly when it succeeded, its agent to those used, and becomes the latest |
| CompetitiveIntelligence.Lookup | enterprise-ai-strategy/agents/market_intelligence/competitive_intelligence_agent.py:109 | a category the table lacks gives no candidates; otherwise the first entry under that key |
| CompetitiveIntelligence.Competitors | enterprise-ai-strategy/agents/market_intelligence/competitive_intelligence_agent.py:111-118 | between one and five names: the first five candidates that are not the tool itself, or the three default tools when none is left |
| CompetitiveIntelligence.GatherByKeyword | enterprise-ai-strategy/agents/market_intelligence/competitive_intelligence_agent.py:100-107 | the loop over the categories gathers exactly what the per-category rule adds, in table order |
| CompetitiveIntelligence.GatheredStep | enterprise-ai-strategy/agents/market_intelligence/competitive_intelligence_agent.py:100-107 | one pass of the loop adds its category's share in front of the rest |
| CompetitiveIntelligence.IdentifyCompetitors | enterprise-ai-strategy/agents/market_intelligence/competitive_intelligence_agent.py:93-118 | the returned list is the specified competitor list, with one to five names |
| CompetitiveIntelligence.ExcludesSelf | enterprise-ai-strategy/agents/market_intelligence/competitive_intelligence_agent.py:111-116 | when some candidate survives the filter no returned name equals the tool's name ignoring case; otherwise the default list is returned |
| CompetitiveIntelligence.FallbackNamesTool | enterprise-ai-strategy/agents/market_intelligence/competitive_intelligence_agent.py:115-116 | the default list is not filtered, so Tabnine under an unknown category is named its own competitor |
| CompetitiveIntelligence.ExplicitCategory | enterprise-ai-strategy/agents/market_intelligence/competitive_intelligence_agent.py:108-109 | with a category the candidates are that category's list, and none for a category the table lacks |
| CompetitiveIntelligence.GatheredRepeats | enterprise-ai-strategy/agents/market_intelligence/competitive_intelligence_agent.py:100-107 | without a code keyword every pass adds the testing list, else the devops list, else nothing |
| CompetitiveIntelligence.CodeGathered | enterprise-ai-strategy/agents/market_intelligence/competitive_intelligence_agent.py:101-103 | with a code keyword only the code generation and code chat lists are gathered |
| CompetitiveIntelligence.KeywordCandidates | enterprise-ai-strategy/agents/market_intelligence/competitive_intelligence_agent.py:98-107 | without a category the first keyword group the name mentions picks the candidates |
| CompetitiveIntelligence.TestingListsTestAiTwice | enterprise-ai-strategy/agents/market_intelligence/competitive_intelligence_agent.py:104-118 | a testing tool named outside its own list gets the testing tools followed by Test.ai a second time |
| CompetitiveIntelligence.AnalyzeMarketTrends | enterprise-ai-strategy/agents/market_intelligence/competitive_intelligence_agent.py:120-133 | the fixed record: four key trends, the 45% growth line, the single emerging player and the usage-based pricing trend |
| CompetitiveIntelligence.MarketTrendsIgnoreCategory | enterprise-ai-strategy/agents/market_intelligence/competitive_intelligence_agent.py:120-133 | the trends are the same whatever the category |
| CompetitiveIntelligence.ProcessTask | enterprise-ai-strategy/agents/market_intelligence/competitive_intelligence_agent.py:135-182 | an empty tool name or a failed call gives the error response; otherwise confidence 0.85 and the metadata records the tool, the chosen competitors, the category and the trends flag |
| RiskAssessment.AssessSecurityRisks | enterprise-ai-strategy/agents/market_intelligence/risk_assessment_agent.py:88-118 | overall risk Medium; the many-open-issues factor exactly when there are more than 50; the no-licence factor exactly when the licence is missing; factors in rule order |
| RiskAssessment.AssessComplianceRisks | enterprise-ai-strategy/agents/market_intelligence/risk_assessment_agent.py:120-145 | three unknown statuses, four gaps starting with the SOC 2 gap, and four required assessments from the SOC 2 audit to the insurance regulatory review |
| RiskAssessment.ComplianceIgnoresTool | enterprise-ai-strategy/agents/market_intelligence/risk_assessment_agent.py:120-145 | the compliance assessment does not depend on the tool |
| RiskAssessment.CategoriesOf | enterprise-ai-strategy/agents/market_intelligence/risk_assessment_agent.py:152 | the caller's categories as given, all five when the caller names none |
| RiskAssessment.ProcessTaskAsWritten | enterprise-ai-strategy/agents/market_intelligence/risk_assessment_agent.py:147-188 | the response names the agent and the requested task |
| RiskAssessment.AssessmentAlwaysFails | enterprise-ai-strategy/agents/market_intelligence/risk_assessment_agent.py:166-171 | as written every call, even a successful one, ends in the error response with confidence 0 |
| RiskAssessment.ProcessTask | enterprise-ai-strategy/agents/market_intelligence/risk_assessment_agent.py:147-188 | an empty tool name or a failed call is the error response; otherwise confidence 0.85 with the tool, the categories and risk level Medium |
| RiskAssessment.CorrectedAgreesOnFailure | enterprise-ai-strategy/agents/market_intelligence/risk_assessment_agent.py:147-188 | the corrected task agrees with the written one on every failure and differs on every success |
| IntegrationValidator.SelectCategories | enterprise-ai-strategy/agents/operational/integration_validator_agent.py:192-199 | editors, data tools and infrastructure get authentication, their own category, security and monitoring; any other type gets all six categories in table order |
| IntegrationValidator.CategoryOrderIsTable | enterprise-ai-strategy/agents/operational/integration_validator_agent.py:60-115 | the table has exactly the six categories of the order list |
| IntegrationValidator.PhaseFor | enterprise-ai-strategy/agents/operational/integration_validator_agent.py:202-209 | a phase names its category, carries that category's description and criteria from the test table, lasts "3-5 days" and has no dependencies |
| IntegrationValidator.DesignIntegrationTestPlan | enterprise-ai-strategy/agents/operational/integration_validator_agent.py:179-211 | one phase per selected category in selection order, each with that category's description and criteria and 3-5 days |
| IntegrationValidator.ProcessTask | enterprise-ai-strategy/agents/operational/integration_validator_agent.py:213-255 | a failed call gives the error response; otherwise confidence 0.88, the defaults for missing entries, and six test categories whatever the tool type selects |
| CommunityPulse.SumBounds | enterprise-ai-strategy/agents/operational/community_pulse_agent.py:140 | scores between two bounds sum to between n times each bound |
| CommunityPulse.MeanBounds | enterprise-ai-strategy/agents/operational/community_pulse_agent.py:140 | the mean of scores on a scale stays on that scale |
| CommunityPulse.AnalyzeSentimentData | enterprise-ai-strategy/agents/operational/community_pulse_agent.py:126-148 | the overall score is the mean (0 without scores); below 3 adds the low-satisfaction risk, above 4 the high-satisfaction insight |
| CommunityPulse.SentimentBands | enterprise-ai-strategy/agents/operational/community_pulse_agent.py:143-146 | never both a risk and an insight; no scores count as low; all scores above 4 mean an insight and all below 3 a risk |
| CommunityPulse.StrictSumBounds | enterprise-ai-strategy/agents/operational/community_pulse_agent.py:140 | scores all strictly above or below a bound give a sum strictly above or below n times it |
| CommunityPulse.ProcessTask | enterprise-ai-strategy/agents/operational/community_pulse_agent.py:150-190 | a failed call gives the error response; otherwise confidence 0.83, the defaults for missing entries and a population of 1000 |
| CommunityPulse.Mean | enterprise-ai-strategy/agents/operational/community_pulse_agent.py:139-140 | no scores give 0; otherwise the mean times the number of scores is their sum |
| LicenseOptimizer.AnalyzeLicenseUsage | enterprise-ai-strategy/agents/operational/license_optimizer_agent.py:139-173 | the name, licences, active users and cost per user are copied; utilisation and cost only with licences; one opportunity exactly below 70% utilisation, whose savings are the unused licences times the cost and whose action is to remove or reassign the unused licences; zero licences give negative savings |
| LicenseOptimizer.TimeframeInfo | enterprise-ai-strategy/agents/operational/license_optimizer_agent.py:221 | the requested timeframe, or the short term for a name the table lacks |
| LicenseOptimizer.FigureTextPlain | enterprise-ai-strategy/agents/operational/license_optimizer_agent.py:253 | a figure's text, int or float, has no comma and no line break |
| LicenseOptimizer.WholeReadsBack | enterprise-ai-strategy/agents/operational/license_optimizer_agent.py:253 | an int's text reads back as that int, negative ones included |
| LicenseOptimizer.DecimalReadsBack | enterprise-ai-strategy/agents/operational/license_optimizer_agent.py:253 | a float's fixed-point text reads back as its sign, whole part and fraction |
| LicenseOptimizer.FigureReadsBack | enterprise-ai-strategy/agents/operational/license_optimizer_agent.py:253 | every well-formed figure reads back from its text |
| LicenseOptimizer.Between | enterprise-ai-strategy/agents/operational/license_optimizer_agent.py:253 | the text found between a head and a tail is exactly what they enclose |
| LicenseOptimizer.BetweenOf | enterprise-ai-strategy/agents/operational/license_optimizer_agent.py:253 | the text between a head and a tail is found again after wrapping it |
| LicenseOptimizer.FiguresReadBack | enterprise-ai-strategy/agents/operational/license_optimizer_agent.py:253 | cutting "T licenses, A active users, $C" at its commas and stripping the words gives back the three figures |
| LicenseOptimizer.FiguresOnOneLine | enterprise-ai-strategy/agents/operational/license_optimizer_agent.py:253 | the three figures with their words have no line break |
| LicenseOptimizer.ToolLine | enterprise-ai-strategy/agents/operational/license_optimizer_agent.py:253 | a tool's line starts with "- ", the name and ": ", ends with "/user/month", its middle reads back as the tool's licences, active users and cost per user, and it is on one line when the name is |
| LicenseOptimizer.NumberOnOneLine | enterprise-ai-strategy/agents/operational/license_optimizer_agent.py:253 | an int's text has no newline, comma or point |
| LicenseOptimizer.MissingKey | enterprise-ai-strategy/agents/operational/license_optimizer_agent.py:253 | an entry lacks a key exactly when one of its three figures is missing, and the first one looked up is named |
| LicenseOptimizer.FirstMissing | enterprise-ai-strategy/agents/operational/license_optimizer_agent.py:252-255 | no key is missing exactly when every tool has its three figures; otherwise the key named is the one missing from the first incomplete tool |
| LicenseOptimizer.ToolLines | enterprise-ai-strategy/agents/operational/license_optimizer_agent.py:252-255 | one line per tool, in order, each that tool's line |
| LicenseOptimizer.SummarisedTools | enterprise-ai-strategy/agents/operational/license_optimizer_agent.py:223-250 | the caller's tools, or the three samples when there are none |
| LicenseOptimizer.ToolsSummary | enterprise-ai-strategy/agents/operational/license_optimizer_agent.py:223-255 | the summary raises KeyError exactly when a described tool lacks a figure, quoting the key missing from the first such tool |
| LicenseOptimizer.ToolsSummaryLines | enterprise-ai-strategy/agents/operational/license_optimizer_agent.py:223-255 | a summary of printable tools splits back into the tool lines: one per tool described, three without tools |
| LicenseOptimizer.PortfolioLines | enterprise-ai-strategy/agents/operational/license_optimizer_agent.py:252-255 | splitting the joined summary at newlines gives back the tool lines |
| LicenseOptimizer.SamplesPrintable | enterprise-ai-strategy/agents/operational/license_optimizer_agent.py:223-250 | the samples are three tools, each with all three figures and a one-line name |
| LicenseOptimizer.MissingLicencesRaise | enterprise-ai-strategy/agents/operational/license_optimizer_agent.py:252-255 | a tool without its licence count makes the summary raise KeyError('total_licenses'), whatever follows it |
| LicenseOptimizer.ErrorReply | enterprise-ai-strategy/agents/operational/license_optimizer_agent.py:209-216 | the error response: the message after "Error during license optimization: ", status error, confidence 0 |
| LicenseOptimizer.ToolsOf | enterprise-ai-strategy/agents/operational/license_optimizer_agent.py:181 | the caller's tools, or none when the context has no tools |
| LicenseOptimizer.ProcessTask | enterprise-ai-strategy/agents/operational/license_optimizer_agent.py:175-216 | a tool lacking a figure gives the KeyError response whatever the model call does; otherwise a failed call gives the error response; otherwise confidence 0.85, the metadata keys with the type, timeframe, date, the caller's tool count and no savings |
| LicenseOptimizer.DefaultsReachTheModel | enterprise-ai-strategy/agents/operational/license_optimizer_agent.py:175-255 | with the default context the samples are complete, so the response is an error exactly when the model call fails |
| ExecutiveBriefing.EffectiveType | enterprise-ai-strategy/agents/operational/executive_briefing_agent.py:131-132 | a known type is kept; any other becomes strategic_update |
| ExecutiveBriefing.CreateBriefingOutline | enterprise-ai-strategy/agents/operational/executive_briefing_agent.py:128-148 | the effective type's template with its sections, length and audience, and empty messages, data and recommendations |
| ExecutiveBriefing.OutlineFallbackIdempotent | enterprise-ai-strategy/agents/operational/executive_briefing_agent.py:131-132 | outlining again with the outline's type gives the same outline; an unknown type outlines as strategic_update |
| ExecutiveBriefing.GroupedInt | enterprise-ai-strategy/agents/operational/executive_briefing_agent.py:206 | the grouped integer starts with a minus exactly when negative, and dropping its commas gives the integer's own decimal digits |
| ExecutiveBriefing.GroupedFloat | enterprise-ai-strategy/agents/operational/executive_briefing_agent.py:205-206 | a grouped float keeps its sign, and dropping the commas of the whole part gives the sign, its digits, the point and the digits after it |
| ExecutiveBriefing.ValueText | enterprise-ai-strategy/agents/operational/executive_briefing_agent.py:205-208 | integers and floats are shown grouped by thousands with their own digits, a boolean as 1 or 0, any other value as its text |
| ExecutiveBriefing.DataPoint | enterprise-ai-strategy/agents/operational/executive_briefing_agent.py:206-208 | an entry is the key, ": " and the value's text |
| ExecutiveBriefing.DataPoints | enterprise-ai-strategy/agents/operational/executive_briefing_agent.py:204-208 | one entry per data point in order, each the key, ": " and the value's text, integers and floats grouped by thousands |
| ExecutiveBriefing.SummarizeSupportingData | enterprise-ai-strategy/agents/operational/executive_briefing_agent.py:199-209 | the fixed notice for no data, otherwise the entries joined by commas: the summary below |
| ExecutiveBriefing.Summary | enterprise-ai-strategy/agents/operational/executive_briefing_agent.py:201-209 | the fixed notice exactly when there is no data, and otherwise a text opening with the first entry |
| ExecutiveBriefing.DataPointsAppend | enterprise-ai-strategy/agents/operational/executive_briefing_agent.py:204-208 | one more data point adds its entry at the end |
| ExecutiveBriefing.SummaryAppend | enterprise-ai-strategy/agents/operational/executive_briefing_agent.py:204-209 | the summary of two non-empty parts is their summaries joined by a comma |
| ExecutiveBriefing.DataPointsConcat | enterprise-ai-strategy/agents/operational/executive_briefing_agent.py:204-208 | the entries of two parts are the entries of each |
| ExecutiveBriefing.NumberFormatting | enterprise-ai-strategy/agents/operational/executive_briefing_agent.py:205-206 | a boolean shows as 1, a thousand as 1,000 and 1234.5 as 1,234.5 |
| ExecutiveBriefing.UrgencyColor | enterprise-ai-strategy/agents/operational/executive_briefing_agent.py:309-315 | critical red, high orange, low green, anything else blue |
| ExecutiveBriefing.UrgencyColorsDistinct | enterprise-ai-strategy/agents/operational/executive_briefing_agent.py:309-315 | the four named urgencies get four distinct colours and blue means normal among them |
| ExecutiveBriefing.ProcessTask | enterprise-ai-strategy/agents/operational/executive_briefing_agent.py:150-193 | a failed call gives the error response; otherwise confidence 0.91 and the defaults for missing entries |
| ResourceCurator.TopicKey | enterprise-ai-strategy/agents/training_content/resource_curator_agent.py:178 | the key is the topic lower-cased with every space as an underscore |
| ResourceCurator.SearchResources | enterprise-ai-strategy/agents/training_content/resource_curator_agent.py:138-179 | the sample list under the topic's key, nothing for other topics |
| ResourceCurator.SearchIgnoresFilters | enterprise-ai-strategy/agents/training_content/resource_curator_agent.py:138-179 | the type and level asked for do not change what is found |
| ResourceCurator.SearchedTopics | enterprise-ai-strategy/agents/training_content/resource_curator_agent.py:143-179 | only the two sample topics find anything |
| ResourceCurator.EvaluateResourceQuality | enterprise-ai-strategy/agents/training_content/resource_curator_agent.py:181-223 | security 2 for https plus 3 for a trusted domain, quality 3 for an official title plus 2 for a long description, the mean of the four scores as overall, and never approved |
| ResourceCurator.DescribeAll | enterprise-ai-strategy/agents/training_content/resource_curator_agent.py:273 | each type with its description in order |
| ResourceCurator.UnknownTypesDropped | enterprise-ai-strategy/agents/training_content/resource_curator_agent.py:273 | unknown resource types leave no trace in the prompt |
| ResourceCurator.ReadContext | enterprise-ai-strategy/agents/training_content/resource_curator_agent.py:229-233 | the defaults for missing entries, and every given entry read as given |
| ResourceCurator.ProcessTaskAsWritten | enterprise-ai-strategy/agents/training_content/resource_curator_agent.py:225-268 | the response names the agent and the requested task |
| ResourceCurator.CurationAlwaysFails | enterprise-ai-strategy/agents/training_content/resource_curator_agent.py:236-250 | as written every call ends in the error response with confidence 0 |
| ResourceCurator.ProcessTask | enterprise-ai-strategy/agents/training_content/resource_curator_agent.py:225-268 | a failed call gives the error response; otherwise confidence 0.87, with metadata naming the topic, resource types, skill level and persona of the request, the resource count and the curation date |
| ResourceCurator.CorrectedAgreesOnFailure | enterprise-ai-strategy/agents/training_content/resource_curator_agent.py:225-268 | the corrected task agrees with the written one on every failure and differs on every success |
| AssessmentCreator.DesignAssessmentPlan | enterprise-ai-strategy/agents/training_content/assessment_creator_agent.py:161-182 | an unknown level raises its ValueError; a known level gets its competencies and empty plans |
| AssessmentCreator.KnownLevels | enterprise-ai-strategy/agents/training_content/assessment_creator_agent.py:48-109 | beginner, intermediate and advanced are the known levels |
| AssessmentCreator.SpecFor | enterprise-ai-strategy/agents/training_content/assessment_creator_agent.py:232 | the requested type's specification, the competency test's for an unknown type |
| AssessmentCreator.DeliverableOf | enterprise-ai-strategy/agents/training_content/assessment_creator_agent.py:241 | the deliverable, or Completed assessment when the type has none |
| AssessmentCreator.UnknownTypeIsCompetencyTest | enterprise-ai-strategy/agents/training_content/assessment_creator_agent.py:232-241 | an unknown type is written as a 30-45 minute competency test with no deliverable |
| AssessmentCreator.ProgressionLinks | enterprise-ai-strategy/agents/training_content/assessment_creator_agent.py:432-433 | a back link for every level but beginner; a forward link from beginner and intermediate only |
| AssessmentCreator.ProgressionLadder | enterprise-ai-strategy/agents/training_content/assessment_creator_agent.py:432-433 | each level links one step up and the top links back only |
| AssessmentCreator.ReadContext | enterprise-ai-strategy/agents/training_content/assessment_creator_agent.py:188-192 | the defaults for missing entries, and a given persona or tool focus read as given |
| AssessmentCreator.ProcessTask | enterprise-ai-strategy/agents/training_content/assessment_creator_agent.py:184-227 | an unknown level, a failed call or an unknown type gives the error response, with the KeyError of the level first and of the type after the call; otherwise confidence 0.88, the type's duration, and metadata naming the assessment type, persona, tool focus and creation date |
| AssessmentCreator.DefaultsSucceed | enterprise-ai-strategy/agents/training_content/assessment_creator_agent.py:184-227 | the default request succeeds whenever the call does, with 30-45 minutes |
| CurriculumArchitect.DesignLearningPath | enterprise-ai-strategy/agents/training_content/curriculum_architect_agent.py:171-202 | an unknown persona raises first, then an unknown level; known pairs get the persona's and level's contents, the persona and level names, and the description "Comprehensive <level> level training for <persona description>" |
| CurriculumArchitect.LevelTitles | enterprise-ai-strategy/agents/training_content/curriculum_architect_agent.py:186 | the three levels title-case to Beginner, Intermediate and Advanced |
| CurriculumArchitect.HugoWeight | enterprise-ai-strategy/agents/training_content/curriculum_architect_agent.py:346 | 10 exactly for beginner, 20 exactly for intermediate, 30 otherwise |
| CurriculumArchitect.PreviousLink | enterprise-ai-strategy/agents/training_content/curriculum_architect_agent.py:381 | intermediate links to beginner, advanced to intermediate, any other level is the entry level |
| CurriculumArchitect.NextLink | enterprise-ai-strategy/agents/training_content/curriculum_architect_agent.py:384 | beginner links to intermediate, intermediate to advanced, any other level is the highest |
| CurriculumArchitect.WeightFollowsLadder | enterprise-ai-strategy/agents/training_content/curriculum_architect_agent.py:346 | along the ladder the weight rises by ten per rung |
| CurriculumArchitect.LinksBoundLadder | enterprise-ai-strategy/agents/training_content/curriculum_architect_agent.py:381-384 | only a level with a rung above gets a next link and only one with a rung below a previous link |
| CurriculumArchitect.ProcessTask | enterprise-ai-strategy/agents/training_content/curriculum_architect_agent.py:204-246 | an unknown persona or level fails with its KeyError, a failed call with its error; otherwise confidence 0.9, the level's duration, and metadata naming the persona, level, curriculum type (default "comprehensive") and creation date |
| CurriculumArchitect.TaskAgreesWithPath | enterprise-ai-strategy/agents/training_content/curriculum_architect_agent.py:204-246 | processing fails exactly when the learning path refuses the pair or the call fails |
| TechnicalWriter.GenerateContentOutline | enterprise-ai-strategy/agents/training_content/technical_writer_agent.py:112-133 | the effective type's template; an unknown type is written as a guide |
| TechnicalWriter.OutlineFallbackIdempotent | enterprise-ai-strategy/agents/training_content/technical_writer_agent.py:115-116 | outlining again with the outline's type gives the same outline |
| TechnicalWriter.ToolTag | enterprise-ai-strategy/agents/training_content/technical_writer_agent.py:272 | character by character, the tool's name lower-cased with each space replaced by a hyphen, length kept |
| TechnicalWriter.BuildTags | enterprise-ai-strategy/agents/training_content/technical_writer_agent.py:269-275 | the type, technical and training, then the tool's tag when named, the persona unless developers, and the level last |
| TechnicalWriter.ReadingMinutes | enterprise-ai-strategy/agents/training_content/technical_writer_agent.py:287 | whole minutes at 200 words a minute, rounded down |
| TechnicalWriter.ReadingTimeGrows | enterprise-ai-strategy/agents/training_content/technical_writer_agent.py:287 | a longer text never reads faster, and 200 more words add a minute |
| TechnicalWriter.ProcessTask | enterprise-ai-strategy/agents/training_content/technical_writer_agent.py:135-181 | a failed call gives the error response; otherwise confidence 0.92, the defaults for missing entries and the word count |
| TechnicalWriter.DefaultPersonaUntagged | enterprise-ai-strategy/agents/training_content/technical_writer_agent.py:143-273 | without a persona the metadata says full_stack while the page tags no persona |
| Common.SortDesc | js/strategy-center.js:771 | the sorted list is a permutation of the input, highest key first |
| Common.SortDescStable | js/strategy-center.js:771 | elements with equal keys keep their input order, as the stable sort guarantees |
| Common.SortDescSorted | js/developer-hub.js:268 | input already in order is unchanged |
| Common.GroupThousandsDigits | enterprise-ai-strategy/agents/operational/executive_briefing_agent.py:206 | removing the separators from a grouped number gives its plain digits |
| Common.WordCountProperties | enterprise-ai-strategy/agents/training_content/technical_writer_agent.py:164 | split() counts the words of two parts joined by whitespace as the sum of each; never more words than characters; whitespace alone has none |
| Common.NoBreakSpaceSeparates | enterprise-ai-strategy/agents/training_content/technical_writer_agent.py:164 | a no-break space separates two words, as in Python's `str.split()` |
| Common.TrimIdempotent | enterprise-ai-strategy/operational-layer/web-ui/src/components/SettingsPage.tsx:541 | trimming a trimmed string changes nothing |
| Common.TitleOfLowerWord | enterprise-ai-strategy/agents/training_content/curriculum_architect_agent.py:186 | title() of a lower-case word capitalises its first letter only |
| Common.JsRound | archive/js/executive-dashboard.js:130 | the nearest integer, halves rounding up |
| Common.TotalPages | enterprise-ai-strategy/operational-layer/web-ui/src/components/JobsPage.tsx:180 | the fewest pages of ten that hold all rows |

## Left out

- DOM work, Chart.js instances, `animateValue` and the `setTimeout`/`setInterval` timers are not modelled. They draw values the model computes; only the timer's reload test is kept, as a predicate over the page state.
- Network I/O is not modelled: `fetch`, the console's HTTP client calls, `loadData` and `fetchSystemMetrics`. The HTTP status and body are inputs to the response classification, and a reply from the AI service is an input to its guard.
- The language model is not modelled, in the agents (Bedrock) or in the browser. Each call is a `Generation` parameter, either the text returned or the message raised.
- The Hugo-markdown and prompt templates the agents fill in are not modelled. A successful page is taken to be the text the model returned.
- Clocks are parameters: `Date`, `Date.now`, `datetime.now()` and each ISO timestamp. `formatDuration` takes the elapsed milliseconds.
- `RiskAssessment.AssessSecurityRisks`: the 90-day staleness test on `updated_at` arrives as a boolean, because date parsing and the clock are not modelled.
- Randomness is a parameter: each `Math.random` draw of the evaluation engine is an input, and so is the draw behind the settings page's mock response time, of which the model keeps the 100 ms offset and the bound below 500.
- Fresh identifiers are parameters: uuid job and approval ids, and the API key's id.
- Concurrency is not modelled: neither an auto-refresh overlapping a manual refresh nor FastAPI `BackgroundTasks`. A job run is one sequential call.
- JSON is not serialised: browser storage is a map from keys to strings. The stored user has a simple text form, with a parse that can fail; that stands in for `JSON.parse` failing.
- JWT handling is not modelled: encoding, verification and the base64 payload decode in `isTokenExpired`. The decoded payload (undecodable, or its claims with or without `exp`) is a parameter of `refreshAuth`.
- FastAPI routing, dependency injection, SQLAlchemy sessions, CORS and uvicorn are not modelled. The tables are maps inside the `Backend.Database` class. Each `HTTPException` the modelled handlers raise is a result case carrying its status code and detail: `Backend.Guard.Forbidden` (403 from `require_role`), `Backend.ExecuteReply.AgentMissing` (404 from `execute_agent`), and `Backend.ReviewReply.ApprovalMissing` (404) and `Backend.ReviewReply.InvalidAction` (400) from `review_approval`. The database's refusal of a negative offset or limit in `list_jobs` is `Backend.Listing.DatabaseRefused`.
- The backend's other routes are not modelled: token decoding in `get_current_user` (its 401s), `get_job` (its 404), user creation (its 400) and login (its 401).
- Floating-point display is not modelled: `toFixed`, `Intl`, `toLocaleString` as a locale service, the "$x.xM" ROI strings, `formatPercentage` and `formatCurrency`. Weights and means are exact reals, and NaN is an absent value.
- Thousands grouping is modelled, but only in the en-US form, with ',' every three digits.
- `Common.Lower` and `Common.Upper` map ASCII letters only. Unicode case folding is not modelled.
- `generateCourseRecommendations` is not modelled. It calls `.includes` on `completedCourses`, which the default profile sets to a number, so it throws on every call.
- `ExecutiveDashboard.GenerateReportData` leaves out the report's date and its headline figures, which come from the clock and from number formatting.
- ExecutiveDashboard.FallbackInsights: the key win and the resource need are parameters, already formatted, because they are built with `toFixed` from the adoption rate and the monthly ROI.
- The agents' own `process_task` bodies run by the orchestrator are not modelled. Each agent's outcome, a response or the exception it raised, is a parameter of the orchestrator's methods.
- `BaseAgent.KeyErrorMessage` quotes a missing key as Python does, but only for keys without quotes or backslashes.
- `ResourceCurator.ProcessTask`: in the corrected form, the number of resources is a parameter, because reading it would need the generated collection to be parsed as JSON.
- Whole files not modelled: Dashboard.tsx and LoginPage.tsx are rendering only, aws_config.py is configuration, command_center.py is a CLI over HTTP, and the tool-discovery and deep-evaluation agents are web scraping and GitHub REST calls.
- The hard-coded mock arrays of the pages and the agents appear only where an operation reads them, as its defaults or sample tables.
- LicenseOptimizer.ToolLine, LicenseOptimizer.FigureText: a float figure is written in its fixed-point form (sign, whole part, digits after the point); floats that Python writes in exponent notation, infinities, NaN, and figures of other types (strings, booleans) are not modelled.
- LicenseOptimizer.ProcessTask: a `tools_data` that is present but not a dictionary (None, a list) is not modelled; the model's tools are a list of named entries.
- LicenseOptimizer.AnalyzeLicenseUsage: the opportunity's description, the utilisation as a percentage with one decimal, is kept only as the rate it quotes, because float formatting is not modelled.
- ExecutiveBriefing.DataValue: a float is given by its shortest fixed-point repr (sign, whole part, digits after the point); floats that Python writes in exponent notation, infinities and NaN are not modelled.
- ApprovalsPage.ReviewDialog.HandleSubmitReview, ApprovalsPage.ReviewThenSubmit, UsersPage.SaveUser, UsersPage.ConfirmDelete: the page sends nothing, because its calls to the API are comments in the source (ApprovalsPage.tsx:285, UsersPage.tsx:300, 303 and 318); the model yields the request each would send, while the page only notifies, resets the dialog and reloads the list.

## Findings

| source | as written | input that shows it | evidently intended | confidence | as-written member | corrected member |
|---|---|---|---|---|---|---|
| enterprise-ai-strategy/hugo-site/static/js/shields-integration.js:217 | the high-risk-tools count falls back to '1' when it is falsy, so a count of 0 shows '1' while the colour tests for 0 | `high_risk_tools` = 0 | show 0 in bright green; the default '1' only when the figure is missing | high (not executed) | Shields.HighRiskToolsZeroShownAsOne | Shields.HighRiskToolsBadgeConsistent |
| enterprise-ai-strategy/operational-layer/web-ui/src/components/JobsPage.tsx:155-158 | the interval's closure captures the job list of the render that installed it, which on mount is the empty list | a page opened over a running job | reload every five seconds while a listed job is running or pending | medium (not executed) | JobsPage.StaleRefreshTimer | JobsPage.TickReloadsIff |
| enterprise-ai-strategy/operational-layer/web-ui/src/components/ApprovalsPage.tsx:286 | the notification appends "d" to the action name | reject | "Content rejected successfully" | high (not executed) | ApprovalsPage.RejectMessageMisspelt | ApprovalsPage.SubmitMessage |
| enterprise-ai-strategy/operational-layer/web-ui/src/services/apiService.ts:360 | each field is wrapped in quotes, but quotes inside it are not doubled as section 2, rule 7 of RFC 4180 requires | a job id `a"b` | a record that reads back as its fields | high (not executed) | ApiService.EmbeddedQuoteBreaksRecord | ApiService.CsvReadsBack |
| enterprise-ai-strategy/agents/training_content/resource_curator_agent.py:250 | `.get("resources")` is called on the text the language model returned, which raises AttributeError | any successful model call | a success response counting the collection's resources | high (not executed) | ResourceCurator.CurationAlwaysFails | ResourceCurator.ProcessTask |
| enterprise-ai-strategy/agents/market_intelligence/risk_assessment_agent.py:171 | `.get("overall_risk_level")` is called on the text the language model returned, which raises AttributeError | any successful model call with a tool name | a success response with the risk level defaulting to Medium | high (not executed) | RiskAssessment.AssessmentAlwaysFails | RiskAssessment.ProcessTask |
