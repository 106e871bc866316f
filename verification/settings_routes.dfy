/** The settings routes: showing the singleton settings row (creating it
    when missing), saving the settings form, and the webhook URL to give
    to the automation service. The table is a sequence of rows whose first
    row is the one shown and edited. */
module SettingsRoutes {
  import opened Text
  import opened Wrappers
  import opened DateTimes
  import opened Models

  /** A flashed message and its category. */
  datatype Flash = Flash(message: string, category: string)

  /** The table after a save, the message flashed, and the redirect. */
  datatype UpdateResult = UpdateResult(rows: seq<Settings>, flash: Flash, redirect: string)

  const SettingsIndexUrl: string := "/settings/"
  const SavedMessage: string := "設定が正常に保存されました"
  const SaveErrorPrefix: string := "設定の保存中にエラーが発生しました: "
  const WebhookPath: string := "/webhook/notta"

  /** `index`: the first row, after creating a default one in an empty
      table. */
  function Index(rows: seq<Settings>, now: DateTime): (r: (seq<Settings>, Settings))
    ensures r.0 == InitializeDefaultSettings(rows, now) && r.1 == r.0[0]
    ensures |rows| > 0 ==> r == (rows, rows[0])
  {
    var table := if |rows| == 0 then [DefaultSettings(NextId([]), now)] else rows;
    (table, table[0])
  }

  /** `request.form.get(key, default)`. */
  function FormGet(form: map<string, string>, key: string, default: string): (v: string)
    ensures key in form ==> v == form[key]
    ensures key !in form ==> v == default
  {
    if key in form then form[key] else default
  }

  /** The form's values written over a row; `updated_at` is left alone. */
  function ApplyForm(s: Settings, form: map<string, string>): (r: Settings)
    ensures r.id == s.id && r.updatedAt == s.updatedAt
    ensures r.thinkingMode <==> "anthropic_thinking_mode" in form && form["anthropic_thinking_mode"] != ""
    ensures r.notionParentPageId.None? <==> "notion_parent_page_id" !in form
    ensures "notion_parent_page_id" in form ==> r.notionParentPageId == Some(form["notion_parent_page_id"])
    ensures "ai_provider" in form ==> r.aiProvider == form["ai_provider"]
    ensures "google_gemini_model" in form ==> r.geminiModel == form["google_gemini_model"]
    ensures "anthropic_claude_model" in form ==> r.claudeModel == form["anthropic_claude_model"]
    ensures "openai_chatgpt_model" in form ==> r.openAiModel == form["openai_chatgpt_model"]
    ensures "ai_provider" !in form ==> r.aiProvider == DefaultProvider
    ensures "google_gemini_model" !in form ==> r.geminiModel == DefaultGeminiModel
    ensures "anthropic_claude_model" !in form ==> r.claudeModel == DefaultClaudeModel
    ensures "openai_chatgpt_model" !in form ==> r.openAiModel == DefaultOpenAiModel
  {
    s.(aiProvider := FormGet(form, "ai_provider", DefaultProvider),
       geminiModel := FormGet(form, "google_gemini_model", DefaultGeminiModel),
       claudeModel := FormGet(form, "anthropic_claude_model", DefaultClaudeModel),
       thinkingMode := FormGet(form, "anthropic_thinking_mode", "") != "",
       openAiModel := FormGet(form, "openai_chatgpt_model", DefaultOpenAiModel),
       notionParentPageId := if "notion_parent_page_id" in form then Some(form["notion_parent_page_id"]) else None)
  }

  /** The row as flushed: `updated_at` is refreshed (its `onupdate`) only
      when some column actually changed. */
  function Flushed(previous: Settings, edited: Settings, now: DateTime): (r: Settings)
    ensures edited.updatedAt == previous.updatedAt ==> (r == previous <==> edited == previous)
    ensures r.(updatedAt := edited.updatedAt) == edited
    ensures edited != previous ==> r.updatedAt == Some(now)
  {
    if edited == previous then previous else edited.(updatedAt := Some(now))
  }

  /** `update`. A missing row is created with its defaults (and stamped
      `now`) before the form is applied; `commitError` is what the commit
      raises, if anything. Every outcome redirects to the settings page. */
  function Update(rows: seq<Settings>, form: map<string, string>, now: DateTime, commitError: Option<string>): (u: UpdateResult)
    ensures u.redirect == SettingsIndexUrl
    ensures commitError.Some? ==> u.rows == rows && u.flash == Flash(SaveErrorPrefix + commitError.value, "error")
    ensures commitError.None? ==> u.flash == Flash(SavedMessage, "success") && |u.rows| == if |rows| == 0 then 1 else |rows|
  {
    match commitError
    case Some(e) => UpdateResult(rows, Flash(SaveErrorPrefix + e, "error"), SettingsIndexUrl)
    case None =>
      var table :=
        if |rows| == 0 then [ApplyForm(DefaultSettings(NextId([]), now), form)]
        else [Flushed(rows[0], ApplyForm(rows[0], form), now)] + rows[1..];
      UpdateResult(table, Flash(SavedMessage, "success"), SettingsIndexUrl)
  }

  /** A successful save leaves every row but the first alone and keeps the
      first row's id; the saved row holds the form's values, and
      `updated_at` moves to `now` exactly when a value changed. */
  lemma UpdateSaves(rows: seq<Settings>, form: map<string, string>, now: DateTime)
    requires |rows| > 0
    ensures var u := Update(rows, form, now, None);
      && u.rows[1..] == rows[1..]
      && u.rows[0].id == rows[0].id
      && u.rows[0].(updatedAt := rows[0].updatedAt) == ApplyForm(rows[0], form)
      && (u.rows[0].updatedAt == rows[0].updatedAt || u.rows[0].updatedAt == Some(now))
      && (ApplyForm(rows[0], form) != rows[0] ==> u.rows[0].updatedAt == Some(now))
      && (u.rows[0] == rows[0] <==> ApplyForm(rows[0], form) == rows[0])
  {
  }

  /** Saving the same form twice is the same as saving it once: the
      second save changes no value, so it does not even touch
      `updated_at`. */
  lemma UpdateIdempotent(rows: seq<Settings>, form: map<string, string>, t1: DateTime, t2: DateTime)
    ensures var once := Update(rows, form, t1, None).rows;
      Update(once, form, t2, None).rows == once
  {
    var once := Update(rows, form, t1, None).rows;
    assert ApplyForm(once[0], form) == once[0];
    assert [once[0]] + once[1..] == once;
  }

  /** Saving into an empty table creates the one row, with the form's
      values over the defaults, stamped `now`. */
  lemma UpdateCreates(form: map<string, string>, now: DateTime)
    ensures var u := Update([], form, now, None);
      && |u.rows| == 1
      && u.rows[0] == ApplyForm(DefaultSettings(1, now), form)
      && u.rows[0].updatedAt == Some(now)
  {
    assert NextId([]) == 1;
  }

  /** `webhook_url`: the host URL without its trailing slashes, followed
      by `/webhook/notta`. */
  function WebhookUrl(hostUrl: string): (r: string)
    ensures |r| >= |WebhookPath| && r[|r| - |WebhookPath|..] == WebhookPath
    ensures r[..|r| - |WebhookPath|] <= hostUrl
    ensures var b := r[..|r| - |WebhookPath|]; b == "" || b[|b| - 1] != '/'
    ensures forall i :: |r| - |WebhookPath| <= i < |hostUrl| ==> hostUrl[i] == '/'
  {
    var base := TrimTrailing(hostUrl, '/');
    var r := base + WebhookPath;
    assert r[..|r| - |WebhookPath|] == base;
    r
  }

  /** Trailing slashes on the host URL make no difference, and the base
      part never ends in one. */
  lemma {:induction false} WebhookUrlSlashes(hostUrl: string)
    ensures WebhookUrl(hostUrl + "/") == WebhookUrl(hostUrl)
    ensures var r := WebhookUrl(hostUrl); var b := r[..|r| - |WebhookPath|];
      b == "" || b[|b| - 1] != '/'
  {
    var h := hostUrl + "/";
    assert h[..|h| - 1] == hostUrl;
    var r := WebhookUrl(hostUrl);
    assert r[..|r| - |WebhookPath|] == TrimTrailing(hostUrl, '/');
  }
}
