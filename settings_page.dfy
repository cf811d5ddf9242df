// The system-settings page of the operations console: the nested settings
// record and its field editor, the API-key list with its add dialog, the
// comma-separated list fields and the connection tests
// (enterprise-ai-strategy/operational-layer/web-ui/src/components/SettingsPage.tsx).

module SettingsPage {
  import opened Common

  /** A value held in a settings field. */
  datatype Value = Text(text: string) | Number(number: real) | Flag(flag: bool) | Items(items: seq<string>)

  /** The settings record: section name to field name to value. */
  type Settings = map<string, map<string, Value>>

  /** The five sections of the settings record. */
  const Sections: set<string> := {"general", "ai", "security", "notifications", "storage"}

  predicate HasAllSections(s: Settings)
  {
    s.Keys == Sections
  }

  // ---------------------------------------------------------------------
  // Editing a field

  /** `handleSettingChange(section, field, value)`: `settings[section][field]`
      takes the value; every other field of every section keeps its own. */
  function SettingChanged(prev: Settings, section: string, field: string, value: Value): (r: Settings)
    requires section in prev
    ensures r.Keys == prev.Keys
    ensures field in r[section] && r[section][field] == value
    ensures r[section].Keys == prev[section].Keys + {field}
    ensures forall f :: f in prev[section] && f != field ==> r[section][f] == prev[section][f]
    ensures forall s :: s in prev && s != section ==> r[s] == prev[s]
  {
    prev[section := prev[section][field := value]]
  }

  /** The sections stay the five of the record. */
  lemma SettingChangedKeepsSections(prev: Settings, section: string, field: string, value: Value)
    requires HasAllSections(prev) && section in prev
    ensures HasAllSections(SettingChanged(prev, section, field, value))
  {
  }

  /** Editing a field twice leaves the second value. */
  lemma SettingChangedLastWins(prev: Settings, section: string, field: string, v: Value, w: Value)
    requires section in prev
    ensures SettingChanged(SettingChanged(prev, section, field, v), section, field, w) == SettingChanged(prev, section, field, w)
  {
    var once := SettingChanged(prev, section, field, w);
    var twice := SettingChanged(SettingChanged(prev, section, field, v), section, field, w);
    assert twice[section] == prev[section][field := v][field := w] == once[section];
  }

  /** Edits to two different fields do not interfere, in whichever order. */
  lemma SettingChangesCommute(prev: Settings, s1: string, f1: string, v1: Value, s2: string, f2: string, v2: Value)
    requires s1 in prev && s2 in prev
    requires s1 != s2 || f1 != f2
    ensures SettingChanged(SettingChanged(prev, s1, f1, v1), s2, f2, v2)
         == SettingChanged(SettingChanged(prev, s2, f2, v2), s1, f1, v1)
  {
    if s1 == s2 {
      var inner := prev[s1];
      UpdatesCommute(inner, f1, v1, f2, v2);
      UpdateOverwrites(prev, s1, inner[f1 := v1], inner[f1 := v1][f2 := v2]);
      UpdateOverwrites(prev, s1, inner[f2 := v2], inner[f2 := v2][f1 := v1]);
    } else {
      UpdatesCommute(prev, s1, prev[s1][f1 := v1], s2, prev[s2][f2 := v2]);
    }
  }

  lemma UpdatesCommute<K, V>(m: map<K, V>, a: K, x: V, b: K, y: V)
    requires a != b
    ensures m[a := x][b := y] == m[b := y][a := x]
  {
  }

  lemma UpdateOverwrites<K, V>(m: map<K, V>, a: K, x: V, y: V)
    ensures m[a := x][a := y] == m[a := y]
  {
  }

  /** Writing back the value a field already holds changes nothing. */
  lemma SettingChangedSameValue(prev: Settings, section: string, field: string)
    requires section in prev && field in prev[section]
    ensures SettingChanged(prev, section, field, prev[section][field]) == prev
  {
    assert prev[section][field := prev[section][field]] == prev[section];
    assert prev[section := prev[section]] == prev;
  }

  // ---------------------------------------------------------------------
  // Comma-separated list fields

  /** `xs.map(x => x.trim())`. */
  function TrimEach(xs: seq<string>): (r: seq<string>)
    ensures |r| == |xs|
    ensures forall i :: 0 <= i < |xs| ==> r[i] == Trim(xs[i])
  {
    seq(|xs|, i requires 0 <= i < |xs| => Trim(xs[i]))
  }

  /** The text a list field shows: the items joined by ", ". */
  function ShowList(xs: seq<string>): string
  {
    Join(xs, ", ")
  }

  /** The list a list field stores after an edit: the text split on ","
      and each piece trimmed. */
  function ReadList(text: string): (r: seq<string>)
    ensures |r| >= 1
  {
    TrimEach(Split(text, ','))
  }

  /** No white space at either end: what `trim()` leaves. */
  predicate Trimmed(x: string)
  {
    x == [] || (!IsJsSpace(x[0]) && !IsJsSpace(x[|x| - 1]))
  }

  /** An item that can be shown and read back unchanged. */
  predicate CleanItem(x: string)
  {
    Trimmed(x) && ',' !in x
  }

  /** Trimming a trimmed item changes nothing. */
  lemma TrimmedFixed(x: string)
    requires Trimmed(x)
    ensures Trim(x) == x
  {
    assert TrimStart(x) == x;
    assert TrimEnd(x) == x;
  }

  /** Trimming keeps only characters of the text. */
  lemma TrimWithin(x: string, c: char)
    requires c !in x
    ensures c !in Trim(x)
  {
  }

  /** A non-empty list of trimmed, comma-free items reads back as itself. */
  lemma {:induction false} ListRoundTrip(xs: seq<string>)
    requires |xs| >= 1
    requires forall i :: 0 <= i < |xs| ==> CleanItem(xs[i])
    ensures ReadList(ShowList(xs)) == xs
  {
    ShownPieces(xs);
    TrimPieces(Split(ShowList(xs), ','), xs);
  }

  /** Trimming the pieces drops the spaces after the commas. */
  lemma TrimPieces(pieces: seq<string>, xs: seq<string>)
    requires |pieces| == |xs| >= 1 && pieces[0] == xs[0]
    requires forall k :: 1 <= k < |xs| ==> pieces[k] == " " + xs[k]
    requires forall i :: 0 <= i < |xs| ==> CleanItem(xs[i])
    ensures TrimEach(pieces) == xs
  {
    forall i | 0 <= i < |xs| ensures Trim(pieces[i]) == xs[i] {
      TrimPiece(pieces[i], xs[i], i >= 1);
    }
    TrimEachIs(pieces, xs);
  }

  lemma TrimPiece(piece: string, x: string, spaced: bool)
    requires Trimmed(x)
    requires piece == if spaced then " " + x else x
    ensures Trim(piece) == x
  {
    if spaced {
      TrimSpaced(x);
    } else {
      TrimmedFixed(x);
    }
  }

  lemma TrimEachIs(pieces: seq<string>, xs: seq<string>)
    requires |pieces| == |xs|
    requires forall i :: 0 <= i < |xs| ==> Trim(pieces[i]) == xs[i]
    ensures TrimEach(pieces) == xs
  {
    var r := TrimEach(pieces);
    assert forall i :: 0 <= i < |xs| ==> r[i] == xs[i];
  }

  lemma TrimSpaced(x: string)
    requires Trimmed(x)
    ensures Trim(" " + x) == x
  {
    var s := " " + x;
    assert s[0] == ' ' && s[1..] == x;
    assert TrimStart(s) == TrimStart(x) == x;
    assert TrimEnd(x) == x;
  }

  /** The pieces of a shown list: the first item, then each further item
      after the space that followed its comma. */
  lemma ShownPieces(xs: seq<string>)
    requires |xs| >= 1
    requires forall i :: 0 <= i < |xs| ==> ',' !in xs[i]
    ensures |Split(ShowList(xs), ',')| == |xs|
    ensures Split(ShowList(xs), ',')[0] == xs[0]
    ensures forall k :: 1 <= k < |xs| ==> Split(ShowList(xs), ',')[k] == " " + xs[k]
  {
    assert ", " == [','] + " ";
    SplitJoin(xs, ',', " ");
  }

  /** An empty list shows as an empty field, which reads back as one empty
      item rather than as no items. */
  lemma EmptyListReadsBackBlank()
    ensures ShowList([]) == ""
    ensures ReadList(ShowList([])) == [""]
  {
  }

  /** Whatever is typed, the stored items are clean, so the field shows
      them again and a second read gives the same list. */
  lemma {:induction false} ReadListClean(text: string)
    ensures forall i :: 0 <= i < |ReadList(text)| ==> CleanItem(ReadList(text)[i])
    ensures ReadList(ShowList(ReadList(text))) == ReadList(text)
  {
    var pieces := Split(text, ',');
    var r := ReadList(text);
    forall i | 0 <= i < |r| ensures CleanItem(r[i]) {
      TrimWithin(pieces[i], ',');
    }
    ListRoundTrip(r);
  }

  // ---------------------------------------------------------------------
  // API keys

  datatype KeyStatus = Active | Inactive | Expired

  datatype ApiKey = ApiKey(id: string, name: string, key: string, service: string, status: KeyStatus, createdAt: string)

  /** The add-key dialog's three fields. */
  datatype KeyForm = KeyForm(name: string, service: string, key: string)

  const EmptyKeyForm := KeyForm("", "", "")

  /** The key list, the add-key form and whether its dialog is open. */
  datatype KeysState = KeysState(keys: seq<ApiKey>, form: KeyForm, dialogOpen: bool)

  /** `getStatusColor`. */
  function KeyStatusColor(s: KeyStatus): (r: string)
    ensures s == Active <==> r == "success"
    ensures s == Expired <==> r == "error"
    ensures s == Inactive <==> r == "default"
  {
    match s
    case Active => "success"
    case Inactive => "default"
    case Expired => "error"
  }

  /** `key.slice(0, 8) + '****'`: the stored form of a new key. */
  function MaskKey(key: string): (r: string)
    ensures |r| == (if |key| < 8 then |key| else 8) + 4
    ensures r[..|r| - 4] == key[..|r| - 4]
    ensures r[|r| - 4..] == "****"
  {
    Take(key, 8) + "****"
  }

  /** The mask keeps nothing after the eighth character. */
  lemma MaskHidesRest(k1: string, k2: string)
    requires |k1| >= 8 && |k2| >= 8 && k1[..8] == k2[..8]
    ensures MaskKey(k1) == MaskKey(k2)
  {
    assert Take(k1, 8) == k1[..8];
    assert Take(k2, 8) == k2[..8];
  }

  /** `handleAddApiKey`, given the clock reading `now` (`Date.now()`) and
      its ISO text: with an empty field it only warns; otherwise it appends
      one active key, clears the form and closes the dialog. */
  function AddApiKey(st: KeysState, now: nat, createdAt: string): (r: (KeysState, Notice))
    ensures st.form.name == "" || st.form.service == "" || st.form.key == "" ==>
      r.0 == st && r.1 == Notice("Please fill in all fields", Warning)
    ensures st.form.name != "" && st.form.service != "" && st.form.key != "" ==>
      |r.0.keys| == |st.keys| + 1 && r.0.keys[..|st.keys|] == st.keys
      && r.0.form == EmptyKeyForm && !r.0.dialogOpen
      && r.1 == Notice("API key added successfully", Success)
  {
    if st.form.name == "" || st.form.service == "" || st.form.key == "" then
      (st, Notice("Please fill in all fields", Warning))
    else
      var k := ApiKey("key-" + NatToString(now), st.form.name, MaskKey(st.form.key), st.form.service, Active, createdAt);
      (KeysState(st.keys + [k], EmptyKeyForm, false), Notice("API key added successfully", Success))
  }

  /** The key a valid add appends: active, with the form's name and service,
      the masked key and an id made from the clock reading. */
  lemma AddedKey(st: KeysState, now: nat, createdAt: string)
    requires st.form.name != "" && st.form.service != "" && st.form.key != ""
    ensures var k := AddApiKey(st, now, createdAt).0.keys[|st.keys|];
      k.status == Active && k.name == st.form.name && k.service == st.form.service
      && k.key == MaskKey(st.form.key) && k.id == "key-" + NatToString(now) && k.createdAt == createdAt
  {
  }

  function NotId(id: string): ApiKey -> bool
  {
    (k: ApiKey) => k.id != id
  }

  /** `handleDeleteApiKey`: every key with the id goes; the rest stay. */
  function DeleteApiKey(keys: seq<ApiKey>, id: string): (r: seq<ApiKey>)
    ensures |r| <= |keys|
    ensures forall i :: 0 <= i < |r| ==> r[i].id != id && r[i] in keys
    ensures forall i :: 0 <= i < |keys| && keys[i].id != id ==> keys[i] in r
  {
    Filter(keys, NotId(id))
  }

  /** Deleting a key just added under a fresh id gives back the old list. */
  lemma DeleteUndoesAdd(keys: seq<ApiKey>, k: ApiKey)
    requires forall i :: 0 <= i < |keys| ==> keys[i].id != k.id
    ensures DeleteApiKey(keys + [k], k.id) == keys
  {
    FilterConcat(keys, [k], NotId(k.id));
    FilterAll(keys, NotId(k.id));
  }

  /** Deleting an id no key has changes nothing. */
  lemma DeleteAbsentId(keys: seq<ApiKey>, id: string)
    requires forall i :: 0 <= i < |keys| ==> keys[i].id != id
    ensures DeleteApiKey(keys, id) == keys
  {
    FilterAll(keys, NotId(id));
  }

  // ---------------------------------------------------------------------
  // Connection tests

  datatype TestResult = TestResult(success: bool, responseTime: Option<nat>, message: string)

  /** The result recorded for one test; `draw` is `Math.floor(Math.random() * 500)`. */
  function TestOutcome(reachable: bool, draw: nat): (r: TestResult)
    requires draw < 500
    ensures r.success == reachable
    ensures reachable ==> r.responseTime.Some? && 100 <= r.responseTime.value < 600 && r.message == "Connection successful"
    ensures !reachable ==> r.responseTime.None? && r.message == "Connection failed"
  {
    if reachable then TestResult(true, Some(draw + 100), "Connection successful")
    else TestResult(false, None, "Connection failed")
  }

  /** The connection-test state: whether a test is running and the last
      result for each service tested. */
  class ConnectionTests {
    var testing: bool
    var results: map<string, TestResult>

    constructor ()
      ensures !testing && results == map[]
    {
      testing := false;
      results := map[];
    }

    /** The test buttons are enabled. */
    predicate CanTest()
      reads this
    {
      !testing
    }

    /** `handleTestConnection(service)`: `testing` is raised for the step
        and lowered in the `finally`; the service gets a new result and no
        other service's result changes. `reachable` says whether the step
        completed without throwing. */
    method HandleTestConnection(service: string, reachable: bool, draw: nat) returns (note: Notice)
      requires draw < 500
      modifies this
      ensures results == old(results)[service := TestOutcome(reachable, draw)]
      ensures service in results && results[service].success == reachable
      ensures forall s :: s in old(results) && s != service ==> s in results && results[s] == old(results)[s]
      ensures results.Keys == old(results).Keys + {service}
      ensures !testing && CanTest()
      ensures note == if reachable then Notice(service + " connection test successful", Success)
                      else Notice(service + " connection test failed", Error)
    {
      testing := true;
      var result := TestOutcome(reachable, draw);
      results := results[service := result];
      if reachable {
        note := Notice(service + " connection test successful", Success);
      } else {
        note := Notice(service + " connection test failed", Error);
      }
      testing := false;
    }
  }
}
