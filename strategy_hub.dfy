// The shared page controller of the strategy hub: the settings it keeps in
// memory and in browser storage, the guard in front of the AI service, the
// template insights, the notification colours and the chart helpers
// (js/main.js).

module StrategyHub {
  import opened Common

  // ---------------------------------------------------------------------
  // Settings

  const ApiKeyEntry := "aiApiKey"
  const ThemeEntry := "theme"
  const RoleEntry := "userRole"

  /** `localStorage.getItem(entry) || dflt`: an absent or empty entry gives
      the default. */
  function StoredOr(storage: map<string, string>, entry: string, dflt: string): (r: string)
    ensures entry in storage && storage[entry] != "" ==> r == storage[entry]
    ensures (entry !in storage || storage[entry] == "") ==> r == dflt
  {
    if entry in storage && storage[entry] != "" then storage[entry] else dflt
  }

  /** The API key read at start-up: `localStorage.getItem('aiApiKey') || null`. */
  function StoredKey(storage: map<string, string>): (r: Option<string>)
    ensures r.None? <==> (ApiKeyEntry !in storage || storage[ApiKeyEntry] == "")
    ensures r.Some? ==> r.value == storage[ApiKeyEntry] && r.value != ""
  {
    if ApiKeyEntry in storage && storage[ApiKeyEntry] != "" then Some(storage[ApiKeyEntry]) else None
  }

  /** The key kept in memory after saving the settings form. */
  function SavedKey(input: string): (r: Option<string>)
    ensures r.None? <==> AllSpace(input)
    ensures r.Some? ==> r.value == Trim(input) && r.value != ""
  {
    BlankIffAllSpace(input);
    if Trim(input) == "" then None else Some(Trim(input))
  }

  /** What the key field of the settings form shows: `this.apiKey || ''`. */
  function KeyFieldText(key: Option<string>): string
  {
    if key.Some? then key.value else ""
  }

  class Hub {
    var storage: map<string, string>
    var apiKey: Option<string>
    var theme: string
    var userRole: string

    /** `init`: settings come from storage, with defaults. */
    constructor(storage: map<string, string>)
      ensures this.storage == storage
      ensures apiKey == StoredKey(storage)
      ensures theme == StoredOr(storage, ThemeEntry, "light")
      ensures userRole == StoredOr(storage, RoleEntry, "developer")
    {
      this.storage := storage;
      apiKey := StoredKey(storage);
      theme := StoredOr(storage, ThemeEntry, "light");
      userRole := StoredOr(storage, RoleEntry, "developer");
    }

    /** `saveSettings`, given the form fields that exist on the page. The
        trimmed key goes to storage (empty when blank) and into memory (null
        when blank); the theme is taken as chosen. */
    method SaveSettings(keyInput: Option<string>, themeInput: Option<string>)
      modifies this
      ensures userRole == old(userRole)
      ensures keyInput.Some? ==> apiKey == SavedKey(keyInput.value)
      ensures keyInput.None? ==> apiKey == old(apiKey)
      ensures themeInput.Some? ==> theme == themeInput.value
      ensures themeInput.None? ==> theme == old(theme)
      ensures storage == SavedStorage(old(storage), keyInput, themeInput)
    {
      if keyInput.Some? {
        apiKey := SavedKey(keyInput.value);
        SavedKeyStoredTrimmed(keyInput.value);
        storage := storage[ApiKeyEntry := KeyFieldText(apiKey)];
      }
      if themeInput.Some? {
        theme := themeInput.value;
        storage := storage[ThemeEntry := theme];
      }
    }

    /** The role selector's change listener. */
    method ChangeRole(role: string)
      modifies this
      ensures userRole == role && storage == old(storage)[RoleEntry := role]
      ensures apiKey == old(apiKey) && theme == old(theme)
    {
      userRole := role;
      storage := storage[RoleEntry := userRole];
    }
  }

  function SavedStorage(storage: map<string, string>, keyInput: Option<string>, themeInput: Option<string>): map<string, string>
  {
    var s1 := if keyInput.Some? then storage[ApiKeyEntry := Trim(keyInput.value)] else storage;
    if themeInput.Some? then s1[ThemeEntry := themeInput.value] else s1
  }

  /** Whatever is typed, storage receives the trimmed text: the stored
      form of a null key is the empty string. */
  lemma SavedKeyStoredTrimmed(input: string)
    ensures KeyFieldText(SavedKey(input)) == Trim(input)
  {
  }

  /** A reload reads back the key that was saved, and a blank key reads
      back as no key at all. */
  lemma {:induction false} SavedKeySurvivesReload(storage: map<string, string>, input: string, themeInput: Option<string>)
    ensures StoredKey(SavedStorage(storage, Some(input), themeInput)) == SavedKey(input)
  {
    BlankIffAllSpace(input);
  }

  /** Opening the settings and saving them unchanged keeps the key. */
  lemma {:induction false} ReopenAndSaveKeepsKey(input: string)
    ensures SavedKey(KeyFieldText(SavedKey(input))) == SavedKey(input)
  {
    BlankIffAllSpace(input);
    var k := SavedKey(input);
    if k.Some? {
      TrimIdempotent(input);
      BlankIffAllSpace(k.value);
    } else {
      BlankIffAllSpace("");
    }
  }

  // ---------------------------------------------------------------------
  // The AI service

  /** How the request to the AI service ended: a network failure or bad
      JSON, a status that is not OK, or a reply that may carry the first
      candidate's text. */
  datatype FetchOutcome = NetworkFailure | NotOk(status: int) | Ok(candidateText: Option<string>)

  datatype AiCall = AiCall(requested: bool, reply: Option<string>)

  /** `callAIAPI`: no request at all without a key; every failure and a
      missing or empty reply text become null. */
  function CallAIAPI(apiKey: Option<string>, outcome: FetchOutcome): (r: AiCall)
    ensures r.requested <==> Truthy(apiKey)
    ensures r.reply.Some? <==> Truthy(apiKey) && outcome.Ok? && Truthy(outcome.candidateText)
    ensures r.reply.Some? ==> r.reply == outcome.candidateText && r.reply.value != ""
  {
    if !Truthy(apiKey) then AiCall(false, None)
    else match outcome
      case NetworkFailure => AiCall(true, None)
      case NotOk(_) => AiCall(true, None)
      case Ok(text) => AiCall(true, if Truthy(text) then text else None)
  }

  /** A key that was saved blank never reaches the AI service. */
  lemma BlankKeyMakesNoRequest(input: string, outcome: FetchOutcome)
    requires AllSpace(input)
    ensures !CallAIAPI(SavedKey(input), outcome).requested
  {
  }

  // ---------------------------------------------------------------------
  // Template insights and notifications

  const GeneralInsights: seq<string> := [
    "AI tool adoption is accelerating across the organization",
    "Focus on training programs to maximize ROI",
    "Consider diversifying tool portfolio to reduce vendor risk"]
  const ToolInsights: seq<string> := [
    "GitHub Copilot shows strong adoption but may need supplementation",
    "Advanced tools like Cursor show promise for complex tasks",
    "Evaluate emerging tools regularly for competitive advantage"]
  const TrainingInsights: seq<string> := [
    "Prompt engineering basics show high completion rates",
    "Advanced context engineering needs more attention",
    "Security training should be prioritized"]

  function GenerateFallbackInsights(kind: string): (r: seq<string>)
    ensures |r| == 3
    ensures kind == "tools" ==> r == ToolInsights
    ensures kind == "training" ==> r == TrainingInsights
    ensures kind != "tools" && kind != "training" ==> r == GeneralInsights
  {
    if kind == "tools" then ToolInsights
    else if kind == "training" then TrainingInsights
    else GeneralInsights
  }

  /** Every kind gets one of the three lists, and the lists share no line. */
  lemma FallbackInsightsDistinct(a: string, b: string)
    requires GenerateFallbackInsights(a) != GenerateFallbackInsights(b)
    ensures forall i, j :: 0 <= i < 3 && 0 <= j < 3 ==>
      GenerateFallbackInsights(a)[i] != GenerateFallbackInsights(b)[j]
  {
  }

  function NotificationColor(kind: string): (r: string)
    ensures kind !in {"success", "error", "warning"} ==> r == "bg-blue-500"
    ensures r in {"bg-green-500", "bg-red-500", "bg-yellow-500", "bg-blue-500"}
  {
    match kind
    case "success" => "bg-green-500"
    case "error" => "bg-red-500"
    case "warning" => "bg-yellow-500"
    case _ => "bg-blue-500"
  }

  /** Distinct known kinds get distinct colours. */
  lemma NotificationColorsDistinct(a: string, b: string)
    requires a in {"success", "error", "warning", "info"} && b in {"success", "error", "warning", "info"}
    requires a != b
    ensures NotificationColor(a) != NotificationColor(b)
  {
  }

  // ---------------------------------------------------------------------
  // Chart helpers

  datatype ChartOptions = ChartOptions(
    responsive: bool, maintainAspectRatio: bool,
    titleDisplay: bool, titleText: Option<string>,
    legendPosition: string, beginAtZero: bool)

  function CreateDefaultOptions(title: Option<string>): (r: ChartOptions)
    ensures r.titleDisplay <==> Truthy(title)
    ensures r.titleText == title
    ensures r.legendPosition == "bottom" && r.beginAtZero && r.responsive && !r.maintainAspectRatio
  {
    ChartOptions(true, false, Truthy(title), title, "bottom", true)
  }

  const Palette: seq<string> := [
    "#3B82F6", "#EF4444", "#10B981", "#F59E0B",
    "#8B5CF6", "#06B6D4", "#F97316", "#84CC16",
    "#EC4899", "#6366F1", "#14B8A6", "#F472B6"]

  function GenerateColors(count: nat): (r: seq<string>)
    ensures |r| == count
  {
    seq(count, i requires 0 <= i < count => Palette[i % |Palette|])
  }

  /** Colours repeat with period twelve, and no two of the first twelve
      series share a colour. */
  lemma GenerateColorsCycle(count: nat)
    ensures forall i :: 0 <= i < count ==> GenerateColors(count)[i] == Palette[i % 12]
    ensures forall i :: 0 <= i && i + 12 < count ==> GenerateColors(count)[i + 12] == GenerateColors(count)[i]
    ensures forall i, j :: 0 <= i < j < count && j < 12 ==> GenerateColors(count)[i] != GenerateColors(count)[j]
  {
    ColorsPeriodic(count);
    ColorsDistinct(count);
  }

  lemma ColorsPeriodic(count: nat)
    ensures forall i :: 0 <= i && i + 12 < count ==> GenerateColors(count)[i + 12] == GenerateColors(count)[i]
  {
    var r := GenerateColors(count);
    forall i | 0 <= i && i + 12 < count
      ensures r[i + 12] == r[i]
    {
      assert (i + 12) % 12 == i % 12;
    }
  }

  lemma ColorsDistinct(count: nat)
    ensures forall i, j :: 0 <= i < j < count && j < 12 ==> GenerateColors(count)[i] != GenerateColors(count)[j]
  {
    var r := GenerateColors(count);
    PaletteDistinct();
    forall i, j | 0 <= i < j < count && j < 12
      ensures r[i] != r[j]
    {
      assert i % 12 == i && j % 12 == j;
      assert r[i] == Palette[i % 12] && r[j] == Palette[j % 12];
    }
  }

  lemma PaletteDistinct()
    ensures |Palette| == 12
    ensures forall i, j :: 0 <= i < j < 12 ==> Palette[i] != Palette[j]
  {
  }

  /** Asking for more colours extends the list given for fewer. */
  lemma GenerateColorsPrefix(m: nat, n: nat)
    requires m <= n
    ensures GenerateColors(m) == GenerateColors(n)[..m]
  {
  }
}
