/** `process_minutes_generation`: the state machine a history record goes
    through after the webhook stored it. The record is committed as
    processing, the minutes are generated, the page is published to Notion
    (inline, not through the Notion service), and the record ends completed
    or failed. Vendor replies, Notion outcomes, clocks and the one commit
    that may fail are the oracles of the run; the model records every
    committed state of the record and every external call, in order. */
module Pipeline {
  import opened Text
  import opened Wrappers
  import opened DateTimes
  import opened Json
  import opened PyValues
  import opened Chunking
  import opened Blocks
  import opened PageIds
  import opened AiService
  import opened NotionService
  import opened Models

  const SettingsMissing: string := "設定が見つかりません"
  const MinutesFailed: string := "議事録生成に失敗しました"
  const NotionErrorPrefix: string := "Notion連携エラー: "

  /** The outside world during one run. */
  datatype Oracles = Oracles(
    parse: string -> Option<DateTime>,        // strptime('%Y-%m-%d %H:%M:%S') in the AI service
    minutesReply: Result<Reply>,              // the vendor's minutes reply, or what it raised
    titleReply: Result<Reply>,                // the vendor's title reply, or what it raised
    create: Result<CreatedPage>,              // `pages.create`
    appendFailure: Option<AppendFailure>,     // the first `blocks.children.append` that raises
    localNow: DateTime,                       // `datetime.now()` for the page's metadata block
    utcNow: DateTime,                         // `datetime.utcnow()` for `processed_at`
    fallbackCommitFails: bool)                // the error handler's own commit raises

  /** The record's committed states in order, and the external calls made. */
  datatype PipelineRun = PipelineRun(commits: seq<History>, aiCalls: seq<AiCall>, notionCalls: seq<NotionCall>)

  /** The state the record is left in. */
  function Final(run: PipelineRun): History
    requires |run.commits| > 0
  {
    run.commits[|run.commits| - 1]
  }

  /** The model of the configured provider; `None` for an unknown tag. */
  function ModelFor(s: Settings): (m: Option<string>)
    ensures m.None? <==> ParseProvider(s.aiProvider).None?
    ensures s.aiProvider == "anthropic_claude" ==> m == Some(s.claudeModel)
  {
    match ParseProvider(s.aiProvider)
    case Some(Gemini) => Some(s.geminiModel)
    case Some(Claude) => Some(s.claudeModel)
    case Some(OpenAi) => Some(s.openAiModel)
    case None => None
  }

  /** Thinking mode is forwarded only for Claude. */
  function ThinkingFor(s: Settings): (t: bool)
    ensures t <==> s.aiProvider == "anthropic_claude" && s.thinkingMode
  {
    if s.aiProvider == "anthropic_claude" then s.thinkingMode else false
  }

  /** `raw_data.get(key, default)` on a decoded dict. */
  function PayloadGet(raw: Json, key: string, default: Json): Json {
    match Get(raw, key, default)
    case Ok(v) => v
    case Err(_) => default
  }

  /** Generating the minutes from the stored payload. A payload that is not
      a dict fails at its first `.get`; a reply without minutes fails with
      `議事録生成に失敗しました`. */
  function MinutesStep(h: History, s: Settings, o: Oracles): (r: AiRun)
    ensures r.result.Ok? ==> r.result.value.minutesContent != ""
  {
    var raw := GetRawDataDict(h.rawData);
    match Get(raw, "content", JString(""))
    case Err(e) => AiRun([], Err(e))
    case Ok(content) =>
      var run := GenerateMinutes(
        content, PayloadGet(raw, "title", JString("")),
        TimeJson(PayloadGet(raw, "creation_time", JString(""))),
        PayloadGet(raw, "speakers", JArray([])),
        s.aiProvider, ModelFor(s), ThinkingFor(s),
        o.parse, o.minutesReply, o.titleReply);
      if run.result.Ok? && run.result.value.minutesContent == "" then AiRun(run.calls, Err(MinutesFailed))
      else run
  }

  /** The calls made to Notion and the page URL to store (`None` when no
      parent page is configured), or what a call raised. */
  datatype Publication = Publication(calls: seq<NotionCall>, result: Result<Option<string>>)

  /** Whether a parent page is configured (a non-empty id). */
  predicate HasParent(s: Settings) {
    s.notionParentPageId.Some? && s.notionParentPageId.value != ""
  }

  /** The creation request for the minutes page: under the normalised
      parent, titled with the generated title, with the metadata blocks. */
  function PageCreation(h: History, s: Settings, resp: AiResponse, o: Oracles): NotionCall
    requires HasParent(s)
  {
    CreatePage(PageParent(NormalizeParentId(s.notionParentPageId.value)), resp.generatedTitle,
               InitialBlocks(h.nottaTitle, o.localNow))
  }

  /** Publishing: skipped without a parent; otherwise the page is created
      and the minutes' blocks appended in chunks of 100, stopping at the
      first call that raises. */
  function PublishStep(h: History, s: Settings, resp: AiResponse, o: Oracles): (p: Publication)
    ensures !HasParent(s) ==> p == Publication([], Ok(None))
  {
    if !HasParent(s) then Publication([], Ok(None))
    else
      var u := UploadPage(PageCreation(h, s, resp, o), o.create, resp.minutesContent, o.appendFailure);
      match u.page
      case Err(e) => Publication(u.calls, Err(e))
      case Ok(page) => Publication(u.calls, Ok(Some(page.url.GetOr(""))))
  }

  /** The outer error handler: the record, as last modified, is marked
      failed with the error's text, unless that commit itself raises. */
  function Fallback(commits: seq<History>, e: string, o: Oracles): (r: seq<History>)
    requires |commits| > 0
    ensures commits <= r
  {
    if o.fallbackCommitFails then commits
    else commits + [commits[|commits| - 1].(status := Failed, errorMessage := Some(e))]
  }

  /** The record after a successful run. */
  function Completion(h: History, s: Settings, resp: AiResponse, url: Option<string>, o: Oracles): History {
    h.(processedAt := Some(o.utcNow), aiProvider := Some(s.aiProvider), aiModel := ModelFor(s),
       generatedTitle := Some(resp.generatedTitle), notionPageUrl := url, status := Completed)
  }

  /** `process_minutes_generation` for the record `h` and the settings
      snapshot read at its start. */
  function ProcessMinutesGeneration(h: History, settings: Option<Settings>, o: Oracles): (run: PipelineRun)
    ensures |run.commits| >= 1 && run.commits[0] == h.(status := Processing)
  {
    var h1 := h.(status := Processing);
    match settings
    case None => PipelineRun([h1, h1.(status := Failed, errorMessage := Some(SettingsMissing))], [], [])
    case Some(s) => Conclude(h1, s, MinutesStep(h1, s, o), o)
  }

  /** The run after the minutes step `ai` on the processing record `h1`:
      its error goes to the handler, its minutes are published. */
  function Conclude(h1: History, s: Settings, ai: AiRun, o: Oracles): (run: PipelineRun)
    ensures |run.commits| >= 1 && run.commits[0] == h1 && run.aiCalls == ai.calls
  {
    match ai.result
    case Err(e) => PipelineRun(Fallback([h1], e, o), ai.calls, [])
    case Ok(resp) => Settle(h1, s, resp, ai.calls, PublishStep(h1, s, resp, o), o)
  }

  /** The run after publication `pub` of the minutes `resp`: a Notion error
      is committed with its prefix and then goes to the handler; success
      completes the record. */
  function Settle(h1: History, s: Settings, resp: AiResponse, aiCalls: seq<AiCall>, pub: Publication, o: Oracles): (run: PipelineRun)
    ensures |run.commits| >= 2 && run.commits[0] == h1 && run.aiCalls == aiCalls && run.notionCalls == pub.calls
  {
    match pub.result
    case Err(e) =>
      var marked := h1.(status := Failed, errorMessage := Some(NotionErrorPrefix + e));
      PipelineRun(Fallback([h1, marked], e, o), aiCalls, pub.calls)
    case Ok(url) => PipelineRun([h1, Completion(h1, s, resp, url, o)], aiCalls, pub.calls)
  }

  /** Two states of the same record: same id, title, creation time,
      receipt time and raw data. */
  predicate SameIdentity(a: History, b: History) {
    && a.id == b.id && a.nottaTitle == b.nottaTitle
    && a.nottaCreationTime == b.nottaCreationTime
    && a.receivedAt == b.receivedAt && a.rawData == b.rawData
  }

  /** The record's identity and payload are never modified: every
      committed state has the id, title, creation time, receipt time and
      raw data it came in with. */
  lemma PipelineKeepsIdentity(h: History, settings: Option<Settings>, o: Oracles)
    ensures var run := ProcessMinutesGeneration(h, settings, o);
      forall i :: 0 <= i < |run.commits| ==> SameIdentity(run.commits[i], h)
  {
    var h1 := h.(status := Processing);
    if settings.Some? {
      ConcludeKeepsIdentity(h1, settings.value, MinutesStep(h1, settings.value, o), o);
    }
  }

  lemma ConcludeKeepsIdentity(h1: History, s: Settings, ai: AiRun, o: Oracles)
    ensures var run := Conclude(h1, s, ai, o);
      forall i :: 0 <= i < |run.commits| ==> SameIdentity(run.commits[i], h1)
  {
    if ai.result.Ok? {
      var resp := ai.result.value;
      var pub := PublishStep(h1, s, resp, o);
      SettleKeepsIdentity(h1, s, resp, ai.calls, pub, o);
    }
  }

  lemma SettleKeepsIdentity(h1: History, s: Settings, resp: AiResponse, aiCalls: seq<AiCall>, pub: Publication, o: Oracles)
    ensures var run := Settle(h1, s, resp, aiCalls, pub, o);
      forall i :: 0 <= i < |run.commits| ==> SameIdentity(run.commits[i], h1)
  {
  }

  /** Every run ends completed or failed; it stays processing only when
      the error handler's commit fails after an error that was not
      Notion's. */
  lemma PipelineTerminal(h: History, settings: Option<Settings>, o: Oracles)
    ensures var f := Final(ProcessMinutesGeneration(h, settings, o));
      && f.status != Pending
      && (f.status == Processing ==>
            o.fallbackCommitFails && settings.Some? && MinutesStep(h.(status := Processing), settings.value, o).result.Err?)
  {
    var h1 := h.(status := Processing);
    if settings.Some? {
      ConcludeTerminal(h1, settings.value, MinutesStep(h1, settings.value, o), o);
    }
  }

  lemma ConcludeTerminal(h1: History, s: Settings, ai: AiRun, o: Oracles)
    requires h1.status == Processing
    ensures var f := Final(Conclude(h1, s, ai, o));
      f.status != Pending && (f.status == Processing ==> o.fallbackCommitFails && ai.result.Err?)
  {
  }

  /** Without settings the record is marked failed with
      `設定が見つかりません` and no vendor or Notion call is made. */
  lemma PipelineNoSettings(h: History, o: Oracles)
    ensures var run := ProcessMinutesGeneration(h, None, o);
      && run.aiCalls == [] && run.notionCalls == []
      && Final(run) == h.(status := Failed, errorMessage := Some(SettingsMissing))
  {
  }

  /** When the minutes can be generated: the payload is a dict whose
      content and speakers have a length, the provider is known, the
      speakers join, both vendor calls return, and the minutes are not
      empty. Each failure carries its own message. */
  lemma MinutesStepOutcome(h: History, s: Settings, o: Oracles)
    ensures var raw := GetRawDataDict(h.rawData);
      var content := PayloadGet(raw, "content", JString(""));
      var speakers := PayloadGet(raw, "speakers", JArray([]));
      var r := MinutesStep(h, s, o);
      && (r.result.Ok? <==>
            && raw.JObject?
            && Len(content).Ok? && Len(speakers).Ok?
            && ParseProvider(s.aiProvider).Some?
            && SpeakersText(speakers).Ok?
            && o.minutesReply.Ok? && o.titleReply.Ok?
            && ReplyText(ParseProvider(s.aiProvider).value, o.minutesReply.value) != "")
      && (!raw.JObject? ==> r == AiRun([], Err("'" + TypeName(raw) + "' object has no attribute 'get'")))
      && (r.result.Ok? ==>
            && r.result.value.minutesContent == ReplyText(ParseProvider(s.aiProvider).value, o.minutesReply.value)
            && |r.result.value.generatedTitle| <= 30)
  {
    var raw := GetRawDataDict(h.rawData);
    var r := MinutesStep(h, s, o);
    if raw.JObject? {
      var content := PayloadGet(raw, "content", JString(""));
      var speakers := PayloadGet(raw, "speakers", JArray([]));
      var run := GenerateMinutes(
        content, PayloadGet(raw, "title", JString("")),
        TimeJson(PayloadGet(raw, "creation_time", JString(""))),
        speakers, s.aiProvider, ModelFor(s), ThinkingFor(s),
        o.parse, o.minutesReply, o.titleReply);
      GenerateMinutesSuccess(
        content, PayloadGet(raw, "title", JString("")),
        TimeJson(PayloadGet(raw, "creation_time", JString(""))),
        speakers, s.aiProvider, ModelFor(s), ThinkingFor(s),
        o.parse, o.minutesReply, o.titleReply);
      if Len(content).Ok? && Len(speakers).Ok? && ParseProvider(s.aiProvider).Some? && SpeakersText(speakers).Ok? {
        GenerateMinutesVendorError(
          content, PayloadGet(raw, "title", JString("")),
          TimeJson(PayloadGet(raw, "creation_time", JString(""))),
          speakers, s.aiProvider, ModelFor(s), ThinkingFor(s),
          o.parse, o.minutesReply, o.titleReply);
      }
    }
  }

  /** Publishing succeeds when there is no parent, or when the page is
      created and no append raises. On success with a parent the appended
      blocks are exactly the minutes' blocks and the URL is the created
      page's (empty when absent); when append `k` raises, chunks `0..k-1`
      stay appended. */
  lemma PublishStepOutcome(h: History, s: Settings, resp: AiResponse, o: Oracles)
    ensures var p := PublishStep(h, s, resp, o);
      var bs := BodyToBlocks(resp.minutesContent);
      var n := |ServiceChunks(bs)|;
      && (p.result.Ok? <==>
            !HasParent(s)
            || (o.create.Ok? && (o.appendFailure.None? || o.appendFailure.value.index >= n)))
      && (HasParent(s) ==> |p.calls| >= 1 && p.calls[0] == PageCreation(h, s, resp, o))
      && (HasParent(s) && o.create.Err? ==> p == Publication([PageCreation(h, s, resp, o)], Err(o.create.error)))
      && (HasParent(s) && p.result.Ok? ==>
            && AppendedBlocks(p.calls[1..]) == bs
            && p.result.value == Some(o.create.value.url.GetOr("")))
      && (HasParent(s) && o.create.Ok? && o.appendFailure.Some? && o.appendFailure.value.index < n ==>
            var k := o.appendFailure.value.index;
            && p.result == Err(o.appendFailure.value.message)
            && |p.calls| == k + 2
            && AppendedBlocks(p.calls[1..k + 1]) == bs[..ChunkSize * k])
  {
    if HasParent(s) {
      UploadOutcome(PageCreation(h, s, resp, o), o.create, resp.minutesContent, o.appendFailure);
    }
  }

  /** A run completes exactly when there are settings, the minutes are
      generated and publishing succeeds; the completed record carries the
      processing time, provider, model, generated title and page URL
      (`None` without a parent). */
  lemma PipelineCompletes(h: History, settings: Option<Settings>, o: Oracles)
    ensures var run := ProcessMinutesGeneration(h, settings, o);
      var h1 := h.(status := Processing);
      && (Final(run).status == Completed <==>
            && settings.Some?
            && MinutesStep(h1, settings.value, o).result.Ok?
            && PublishStep(h1, settings.value, MinutesStep(h1, settings.value, o).result.value, o).result.Ok?)
      && (Final(run).status == Completed ==>
            var s := settings.value;
            var resp := MinutesStep(h1, s, o).result.value;
            && |run.commits| == 2
            && Final(run).processedAt == Some(o.utcNow)
            && Final(run).aiProvider == Some(s.aiProvider)
            && Final(run).aiModel == ModelFor(s)
            && Final(run).generatedTitle == Some(resp.generatedTitle)
            && Final(run).errorMessage == h.errorMessage
            && (!HasParent(s) ==> Final(run).notionPageUrl.None? && run.notionCalls == [])
            && (HasParent(s) ==> Final(run).notionPageUrl == Some(o.create.value.url.GetOr(""))))
  {
    var h1 := h.(status := Processing);
    if settings.Some? {
      ConcludeCompletes(h1, settings.value, MinutesStep(h1, settings.value, o), o);
    }
  }

  lemma ConcludeCompletes(h1: History, s: Settings, ai: AiRun, o: Oracles)
    requires h1.status == Processing
    ensures var run := Conclude(h1, s, ai, o);
      && (Final(run).status == Completed <==>
            ai.result.Ok? && PublishStep(h1, s, ai.result.value, o).result.Ok?)
      && (Final(run).status == Completed ==>
            var resp := ai.result.value;
            && |run.commits| == 2
            && Final(run) == Completion(h1, s, resp, PublishStep(h1, s, resp, o).result.value, o)
            && (!HasParent(s) ==> Final(run).notionPageUrl.None? && run.notionCalls == [])
            && (HasParent(s) ==> Final(run).notionPageUrl == Some(o.create.value.url.GetOr(""))))
  {
    if ai.result.Ok? {
      var resp := ai.result.value;
      PublishStepOutcome(h1, s, resp, o);
    }
  }

  /** The error a failed run leaves behind: the AI-side error, or the
      Notion error. A Notion error is first committed with the prefix
      `Notion連携エラー: `, which the error handler then overwrites with the
      bare error; the prefix survives only when that second commit fails. */
  lemma PipelineErrorMessage(h: History, s: Settings, o: Oracles)
    ensures var run := ProcessMinutesGeneration(h, Some(s), o);
      var h1 := h.(status := Processing);
      var ai := MinutesStep(h1, s, o);
      && (ai.result.Err? ==>
            && run.notionCalls == []
            && run.commits == [h1] + (if o.fallbackCommitFails then [] else
                 [h1.(status := Failed, errorMessage := Some(ai.result.error))]))
      && (ai.result.Ok? && PublishStep(h1, s, ai.result.value, o).result.Err? ==>
            var e := PublishStep(h1, s, ai.result.value, o).result.error;
            && run.commits[1] == h1.(status := Failed, errorMessage := Some(NotionErrorPrefix + e))
            && Final(run).status == Failed
            && Final(run).errorMessage == Some(if o.fallbackCommitFails then NotionErrorPrefix + e else e))
  {
    var h1 := h.(status := Processing);
    ConcludeErrorMessage(h1, s, MinutesStep(h1, s, o), o);
  }

  lemma ConcludeErrorMessage(h1: History, s: Settings, ai: AiRun, o: Oracles)
    ensures var run := Conclude(h1, s, ai, o);
      && (ai.result.Err? ==>
            && run.notionCalls == []
            && run.commits == [h1] + (if o.fallbackCommitFails then [] else
                 [h1.(status := Failed, errorMessage := Some(ai.result.error))]))
      && (ai.result.Ok? && PublishStep(h1, s, ai.result.value, o).result.Err? ==>
            var e := PublishStep(h1, s, ai.result.value, o).result.error;
            && run.commits[1] == h1.(status := Failed, errorMessage := Some(NotionErrorPrefix + e))
            && Final(run).status == Failed
            && Final(run).errorMessage == Some(if o.fallbackCommitFails then NotionErrorPrefix + e else e))
  {
  }
}
