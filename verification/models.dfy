/** The two persisted records — the settings singleton and the minutes
    history — with their column defaults, their `to_dict` renderings, the
    stored payload's decoding, and the default-settings initialisation.
    A table is a sequence of rows in insertion order. */
module Models {
  import opened Wrappers
  import opened DateTimes
  import opened Json

  const DefaultProvider: string := "google_gemini"
  const DefaultGeminiModel: string := "gemini-2.5-pro-exp-03-25"
  const DefaultClaudeModel: string := "claude-3.7-sonnet"
  const DefaultOpenAiModel: string := "gpt-4o"

  /** A `Settings` row. */
  datatype Settings = Settings(
    id: nat,
    aiProvider: string,
    geminiModel: string,
    claudeModel: string,
    thinkingMode: bool,
    openAiModel: string,
    notionParentPageId: Option<string>,
    updatedAt: Option<DateTime>)

  /** `Settings()` as inserted at time `now`: every column at its default. */
  function DefaultSettings(id: nat, now: DateTime): (s: Settings)
    ensures s.id == id && s.updatedAt == Some(now)
    ensures s.aiProvider == DefaultProvider && s.thinkingMode
    ensures s.notionParentPageId.None?
    ensures s.geminiModel == DefaultGeminiModel && s.claudeModel == DefaultClaudeModel
    ensures s.openAiModel == DefaultOpenAiModel
  {
    Settings(id, DefaultProvider, DefaultGeminiModel, DefaultClaudeModel, true, DefaultOpenAiModel, None, Some(now))
  }

  /** The processing states of a history record. */
  datatype Status = Pending | Processing | Completed | Failed {
    /** The string stored in the `status` column. */
    function Name(): string {
      match this
      case Pending => "pending"
      case Processing => "processing"
      case Completed => "completed"
      case Failed => "failed"
    }
  }

  /** Distinct states are stored as distinct strings. */
  lemma StatusNameInjective(a: Status, b: Status)
    ensures a.Name() == b.Name() <==> a == b
  {
  }

  /** A `MinutesHistory` row. */
  datatype History = History(
    id: nat,
    nottaTitle: string,
    nottaCreationTime: Option<DateTime>,
    receivedAt: Option<DateTime>,
    processedAt: Option<DateTime>,
    aiProvider: Option<string>,
    aiModel: Option<string>,
    generatedTitle: Option<string>,
    notionPageUrl: Option<string>,
    rawData: Option<string>,
    status: Status,
    errorMessage: Option<string>)

  /** A freshly inserted record: received at `now`, pending, nothing
      processed yet. */
  function NewHistory(id: nat, nottaTitle: string, creation: Option<DateTime>, rawData: string, now: DateTime): (h: History)
    ensures h.status == Pending && h.receivedAt == Some(now) && h.rawData == Some(rawData)
    ensures h.processedAt.None? && h.errorMessage.None? && h.notionPageUrl.None? && h.generatedTitle.None?
  {
    History(id, nottaTitle, creation, Some(now), None, None, None, None, None, Some(rawData), Pending, None)
  }

  /** The largest id, 0 for an empty table. */
  function MaxId(ids: seq<nat>): (m: nat)
    ensures forall i :: 0 <= i < |ids| ==> ids[i] <= m
    ensures |ids| == 0 ==> m == 0
    ensures |ids| > 0 ==> m in ids
  {
    if |ids| == 0 then 0
    else
      var rest := MaxId(ids[1..]);
      assert forall i :: 1 <= i < |ids| ==> ids[i] == ids[1..][i - 1];
      if ids[0] >= rest then ids[0] else rest
  }

  /** The id SQLite assigns to a new row of an integer primary key. */
  function NextId(ids: seq<nat>): (r: nat)
    ensures r > 0 && r !in ids
  {
    MaxId(ids) + 1
  }

  function HistoryIds(rows: seq<History>): (ids: seq<nat>)
    ensures |ids| == |rows| && forall i :: 0 <= i < |rows| ==> ids[i] == rows[i].id
  {
    seq(|rows|, i requires 0 <= i < |rows| => rows[i].id)
  }

  /** `Settings.query.first()`. */
  function FirstSettings(rows: seq<Settings>): Option<Settings> {
    if |rows| == 0 then None else Some(rows[0])
  }

  /** `initialize_default_settings`: a default row is inserted when, and
      only when, the table is empty. */
  function InitializeDefaultSettings(rows: seq<Settings>, now: DateTime): (r: seq<Settings>)
    ensures |r| >= 1 && rows <= r && |r| <= |rows| + 1
    ensures |r| == |rows| + 1 <==> |rows| == 0
    ensures |rows| == 0 ==> r[0] == DefaultSettings(r[0].id, now)
  {
    if |rows| == 0 then [DefaultSettings(NextId([]), now)] else rows
  }

  /** Initialising again changes nothing: whatever the clock says, at most
      one row is ever inserted. */
  lemma InitializeIdempotent(rows: seq<Settings>, t1: DateTime, t2: DateTime)
    ensures InitializeDefaultSettings(InitializeDefaultSettings(rows, t1), t2)
      == InitializeDefaultSettings(rows, t1)
  {
  }

  /** An optional string as JSON: the string, or `null`. */
  function OptString(s: Option<string>): (j: Json)
    ensures j == JNull <==> s.None?
  {
    match s
    case Some(x) => JString(x)
    case None => JNull
  }

  /** A datetime column as `to_dict` renders it: `isoformat()`, or `null`. */
  function OptIso(dt: Option<DateTime>): (j: Json)
    ensures j == JNull <==> dt.None?
  {
    match dt
    case Some(d) => JString(IsoFormat(d))
    case None => JNull
  }

  /** Reading a rendered datetime back gives the stored value. */
  lemma OptIsoRoundTrip(dt: Option<DateTime>)
    ensures OptIso(dt) == JNull <==> dt.None?
    ensures dt.Some? ==> OptIso(dt).JString? && FromIsoFormat(OptIso(dt).s) == dt
  {
    if dt.Some? {
      IsoRoundTrip(dt.value);
    }
  }

  /** `MinutesHistory.to_dict()`: every column but the stored payload,
      under its column name, datetimes as ISO strings and unset columns as
      `null`. */
  function HistoryToDict(h: History): (j: Json)
    ensures j.JObject? && |j.members| == 11
  {
    JObject([
      Member("id", JInt(h.id)),
      Member("notta_title", JString(h.nottaTitle)),
      Member("notta_creation_time", OptIso(h.nottaCreationTime)),
      Member("received_at", OptIso(h.receivedAt)),
      Member("processed_at", OptIso(h.processedAt)),
      Member("ai_provider", OptString(h.aiProvider)),
      Member("ai_model", OptString(h.aiModel)),
      Member("generated_title", OptString(h.generatedTitle)),
      Member("notion_page_url", OptString(h.notionPageUrl)),
      Member("status", JString(h.status.Name())),
      Member("error_message", OptString(h.errorMessage))])
  }

  /** `to_dict` loses nothing but the stored payload: two records that
      render alike agree on every other column, the three datetime columns
      being recovered from their ISO strings and the status from its name. */
  lemma HistoryToDictFaithful(g: History, h: History)
    requires HistoryToDict(g) == HistoryToDict(h)
    ensures g == h.(rawData := g.rawData)
  {
    var a, b := HistoryToDict(g).members, HistoryToDict(h).members;
    assert g.id == h.id && g.nottaTitle == h.nottaTitle by {
      assert a[0].value == b[0].value && a[1].value == b[1].value;
    }
    OptIsoEqual(g.nottaCreationTime, h.nottaCreationTime) by { assert a[2].value == b[2].value; }
    OptIsoEqual(g.receivedAt, h.receivedAt) by { assert a[3].value == b[3].value; }
    OptIsoEqual(g.processedAt, h.processedAt) by { assert a[4].value == b[4].value; }
    OptStringEqual(g.aiProvider, h.aiProvider) by { assert a[5].value == b[5].value; }
    OptStringEqual(g.aiModel, h.aiModel) by { assert a[6].value == b[6].value; }
    OptStringEqual(g.generatedTitle, h.generatedTitle) by { assert a[7].value == b[7].value; }
    OptStringEqual(g.notionPageUrl, h.notionPageUrl) by { assert a[8].value == b[8].value; }
    OptStringEqual(g.errorMessage, h.errorMessage) by { assert a[10].value == b[10].value; }
    StatusNameInjective(g.status, h.status) by { assert a[9].value == b[9].value; }
  }

  /** An optional string column is determined by its rendering. */
  lemma OptStringEqual(x: Option<string>, y: Option<string>)
    requires OptString(x) == OptString(y)
    ensures x == y
  {
  }

  lemma OptIsoEqual(x: Option<DateTime>, y: Option<DateTime>)
    requires OptIso(x) == OptIso(y)
    ensures x == y
  {
    OptIsoRoundTrip(x);
    OptIsoRoundTrip(y);
  }

  /** `Settings.to_dict()`: every column under its name, `updated_at` as
      an ISO string, unset columns as `null`. */
  function SettingsToDict(s: Settings): (j: Json)
    ensures j.JObject? && |j.members| == 8
  {
    JObject([
      Member("id", JInt(s.id)),
      Member("ai_provider", JString(s.aiProvider)),
      Member("google_gemini_model", JString(s.geminiModel)),
      Member("anthropic_claude_model", JString(s.claudeModel)),
      Member("anthropic_thinking_mode", JBool(s.thinkingMode)),
      Member("openai_chatgpt_model", JString(s.openAiModel)),
      Member("notion_parent_page_id", OptString(s.notionParentPageId)),
      Member("updated_at", OptIso(s.updatedAt))])
  }

  /** Every settings column can be read back from `to_dict`, with
      `updated_at` through its ISO string. */
  lemma SettingsToDictFaithful(s: Settings, t: Settings)
    requires SettingsToDict(s) == SettingsToDict(t)
    ensures s == t
  {
    var a, b := SettingsToDict(s).members, SettingsToDict(t).members;
    assert s.id == t.id && s.aiProvider == t.aiProvider by {
      assert a[0].value == b[0].value && a[1].value == b[1].value;
    }
    assert s.geminiModel == t.geminiModel && s.claudeModel == t.claudeModel by {
      assert a[2].value == b[2].value && a[3].value == b[3].value;
    }
    assert s.thinkingMode == t.thinkingMode && s.openAiModel == t.openAiModel by {
      assert a[4].value == b[4].value && a[5].value == b[5].value;
    }
    OptStringEqual(s.notionParentPageId, t.notionParentPageId) by { assert a[6].value == b[6].value; }
    OptIsoEqual(s.updatedAt, t.updatedAt) by { assert a[7].value == b[7].value; }
  }

  /** `get_raw_data_dict`: the stored payload decoded, or `{}` when
      nothing is stored, the stored text is empty, or it is not JSON. */
  function GetRawDataDict(raw: Option<string>): (j: Json)
    ensures raw.None? || raw == Some("") ==> j == JObject([])
    ensures raw.Some? && Loads(raw.value).None? ==> j == JObject([])
    ensures raw.Some? && raw.value != "" && Loads(raw.value).Some? ==> j == Loads(raw.value).value
  {
    match raw
    case None => JObject([])
    case Some(text) =>
      if text == "" then JObject([])
      else match Loads(text)
        case Some(v) => v
        case None => JObject([])
  }

  /** The payload stored with `json.dumps` is decoded back unchanged. */
  lemma RawDataRoundTrip(v: Json)
    ensures GetRawDataDict(Some(Dumps(v))) == v
  {
    LoadsDumps(v);
    DumpsStart(v);
  }
}
