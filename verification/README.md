# Meeting-minutes webhook: a Dafny model

This project models the core of a small Flask application that turns
meeting transcripts into minutes. An automation service posts a transcript
(`content`, `title`, optional `creation_time` and `speakers`) to
`/webhook/notta`. The application stores it as a pending `MinutesHistory`
record. It then runs `process_minutes_generation` synchronously. That step
asks one of three LLM vendors (Gemini, Claude, ChatGPT) for the minutes and
for a title of at most 30 characters. It publishes the minutes to a Notion
page: a creation call with three metadata blocks, then the text appended in
chunks of 100 blocks. Finally it marks the record completed or failed. The
model also covers:

- the settings singleton and its form;
- the history listing with its status filter and SQLite paging;
- the status lookup;
- the two text helpers of the browser script.

The model is functional. Records and settings are immutable datatypes, and
a table is a sequence of rows in insertion order. Every external effect is
a parameter of the function that needs it:

- vendor replies and what they raise;
- the Notion create and append outcomes;
- the clocks;
- `strptime` and the browser's date parsing;
- the one commit that may fail.

Each run returns the trace of calls it made, so the properties can speak
about what was sent as well as what was stored.

Modules, one per component:

| module | file | models |
|---|---|---|
| `Webhook` | webhook.dfy | `notta_webhook`: validation, insertion, the 200/400/500 answers |
| `Pipeline` | pipeline.dfy | `process_minutes_generation` as a state machine over oracle outcomes |
| `AiService` | ai_service.dfy | `generate_minutes` and the three `_generate_with_*` |
| `NotionService` | notion_service.dfy | `create_notion_page` and the two-phase upload it shares with the pipeline |
| `Blocks` | blocks.dfy | lines to paragraph blocks; both chunkers, shown to agree |
| `PageIds` | page_ids.dfy | the 8-4-4-4-12 regrouping of a bare Notion page id |
| `Models` | models.dfy | the two records: defaults, `to_dict`, `get_raw_data_dict`, `initialize_default_settings` |
| `Results` | results.dfy | ordering, filter, paging, `get_status`, `get_history` |
| `SettingsRoutes` | settings_routes.dfy | `index`, `update`, `webhook_url` |
| `ClientScript` | client_script.dfy | `truncateText`, `formatDate` |
| `Json` | json.dfy | `json.dumps` (defaults, `ensure_ascii`) and the matching part of `json.loads` |
| `PyValues` | py_values.dfy | truthiness, `len`, `in`, `dict.get`, iteration and `join` on decoded JSON |
| `DateTimes` | datetimes.dfy | `isoformat`, `fromisoformat`, `strftime` layouts, datetime order |
| `Chunking`, `Text`, `Responses`, `Wrappers` | | generic slicing, string helpers, JSON error bodies, `Option`/`Result` |

Behaviours of the code worth noting:

- Without settings, the record is first committed `processing`
  (webhook.py:94-95) and then committed `failed` (webhook.py:98-104).
- A Notion error is first committed as `Notion連携エラー: <e>`
  (webhook.py:268-271). The outer handler then overwrites it with the bare
  `<e>` (webhook.py:290-294). The prefix survives only when that second
  commit fails (`Pipeline.PipelineErrorMessage`).
- A record can stay `processing`. This happens when an AI-side error is
  followed by a failed commit in the error handler (webhook.py:289-296,
  `Pipeline.PipelineTerminal`).
- The pipeline skips publishing when no parent page is configured
  (webhook.py:258-262). `create_notion_page` instead falls back to a
  workspace-level parent (notion_service.py:64-66).
- A speaker list of empty names gives an empty speakers line, not `不明`
  (ai_service.py:99 and 155): the `不明` fallback tests the list, not the
  joined text.
- A truthy `creation_time` that is not a string makes `strptime` raise
  (webhook.py:49), and the webhook answers 500. Only a string that does
  not parse is stored as `None` (webhook.py:50-51).

## Model

| member | source | states |
|---|---|---|
| Webhook.WebhookRejections | app/routes/webhook.py:26-37 | A falsy body gets 400 `No data received`. Otherwise a missing `content`, then a missing `title`, gets 400 naming the first missing field. A truthy body that is not a container gets the 500 of Python's `in`. In none of these cases is a record stored or the pipeline run. |
| Webhook.WebhookAccepts | app/routes/webhook.py:26-73 | The answer is 200 exactly when all of these hold: the body is a non-empty dict with `content` and `title`; the content has a `len`; any truthy `creation_time` is a string; the title is a string. |
| Webhook.WebhookStores | app/routes/webhook.py:53-73 | An accepted request appends exactly one record, under an id no earlier row has, and the response names that id. The record was inserted pending, stamped with its receipt time, and its stored payload decodes back to the request body. The stored row is the final state of the pipeline run on it, and it keeps the inserted identity. |
| Webhook.ReceiveWebhook | app/routes/webhook.py:21-77 | Any answer other than 200 leaves the history table unchanged and starts no pipeline. |
| Webhook.MissingField | app/routes/webhook.py:31-37 | For a dict: no missing field exactly when both keys are present, and `content` is reported first. |
| Webhook.CreationTime | app/routes/webhook.py:46-51 | An absent or falsy `creation_time` gives `None`. The step fails exactly when the value is truthy and not a string. |
| Webhook.WebhookCreationTime | app/routes/webhook.py:46-51 | A string `creation_time` never fails: empty gives `None`, otherwise the result is whatever the `%Y-%m-%d %H:%M:%S` parse gives, `None` when it does not parse. |
| Pipeline.ModelFor | app/routes/webhook.py:110-118 | The model is `None` exactly when the provider tag is unknown; `anthropic_claude` takes the Claude model. |
| Pipeline.ThinkingFor | app/routes/webhook.py:131 | Thinking mode is forwarded exactly when the provider is `anthropic_claude` and the setting is on. |
| Pipeline.ProcessMinutesGeneration | app/routes/webhook.py:86-95 | The first commit of every run is the record marked `processing`, nothing else changed. |
| Pipeline.MinutesStep | app/routes/webhook.py:106-139 | A successful minutes step always yields non-empty minutes. |
| Pipeline.PublishStep | app/routes/webhook.py:258-262 | Without a parent page, publishing makes no Notion call and yields no URL. |
| Pipeline.PipelineNoSettings | app/routes/webhook.py:93-104 | Without settings: no vendor or Notion call, and the record ends failed with `設定が見つかりません`. |
| Pipeline.PipelineKeepsIdentity | app/routes/webhook.py:86-296 | Every committed state of the record keeps its id, title, creation time, receipt time and raw payload. |
| Pipeline.PipelineTerminal | app/routes/webhook.py:93-296 | A run never leaves the record pending. It is left processing only when the minutes step failed and the error handler's own commit raised. |
| Pipeline.MinutesStepOutcome | app/routes/webhook.py:106-139 | The minutes step succeeds exactly when all of these hold: the payload is a dict; content and speakers have a length; the provider is known; the speakers join; both vendor calls return; the minutes text is non-empty. A non-dict payload fails at `.get` before any call. On success the minutes are the first reply's text and the title has at most 30 characters. |
| Pipeline.PublishStepOutcome | app/routes/webhook.py:147-262 | Without a parent page there are no calls and no URL. Otherwise the first call creates the page under the normalised id. Publishing succeeds exactly when creation succeeds and no append raises. Then the appended blocks are exactly the minutes' blocks and the URL is the page's, or `""`. When append `k` raises, exactly `k + 2` calls were made and the first `100·k` blocks stay appended. |
| Pipeline.PipelineCompletes | app/routes/webhook.py:274-281 | A run completes exactly when settings exist, the minutes are generated and publishing succeeds. The completed record then carries the processing time, provider, model, generated title and page URL (`None` without a parent), and its error message is untouched. |
| Pipeline.PipelineErrorMessage | app/routes/webhook.py:264-294 | An AI-side error is committed as the record's message, with no Notion call. A Notion error is committed with the `Notion連携エラー: ` prefix, and the record ends failed with the bare error. The prefix stays only if the handler's commit fails. |
| AiService.ProviderTagRoundTrip | app/services/ai_service.py:78-85 | The three tags and the three providers correspond one to one; every other tag selects no provider. |
| AiService.GenerateMinutesDispatch | app/services/ai_service.py:77-85 | An unknown tag raises `不明なAIプロバイダー: <tag>` with no call made. A known tag sends every call to that one provider, the minutes request first, built from the title, the formatted date, the speakers line and the transcript. |
| AiService.GenerateMinutes | app/services/ai_service.py:56-85 | A successful run made exactly two calls, with a known provider. |
| AiService.Generate | app/services/ai_service.py:222-282 | One provider's run makes at most two calls, all to that provider. |
| AiService.GenerateMinutesSuccess | app/services/ai_service.py:184-214 | On success the minutes are the first reply's text: a reply without text gives `""`, or `str(reply)` for Gemini. The title request shows at most the first 500 characters of the minutes. The title is the stripped second reply, cut to 30 characters. |
| AiService.GenerateMinutesVendorError | app/services/ai_service.py:87-89 | A vendor error is re-raised unchanged: after one call if the minutes request fails, after two if the title request fails. |
| AiService.FormatCreationTime | app/services/ai_service.py:63-75 | The date line is empty exactly when the creation time is falsy. |
| AiService.FormatCreationTimeCases | app/services/ai_service.py:63-75 | A datetime, or a string that parses, is written `%Y年%m月%d日 %H:%M`. An unparsable string is used as it is. `str()` is used exactly for truthy values that are not strings. Nothing raises. |
| AiService.SpeakersText | app/services/ai_service.py:99 | A falsy speakers value gives `不明`. |
| AiService.SpeakersOfStrings | app/services/ai_service.py:155 | A list of names gives the non-empty names joined by `, `, or `不明` for an empty list. A non-empty list gives `""` exactly when every name is empty. |
| AiService.KeepTruthyStrings | app/services/ai_service.py:226 | Keeping the truthy items of a list of strings keeps exactly its non-empty strings, in order. |
| AiService.TruncateTitle | app/services/ai_service.py:132-136 | The title is the stripped reply's first 30 characters: the whole stripped reply when it is that short, otherwise exactly its first 30. It never starts with whitespace. |
| AiService.Excerpt | app/services/ai_service.py:129 | The excerpt is the first 500 characters of the minutes, or the whole minutes when they are that short. |
| AiService.SystemPrompts | app/services/ai_service.py:168-171 | Claude's system prompt is the instructions, followed by the thinking sentence exactly when thinking mode is on; no other provider receives that sentence. Gemini's prompt puts the four characters `\n\n` between the instructions and the meeting. |
| NotionService.CreateNotionPage | app/services/notion_service.py:30-34 | Without an API key the call fails with `Notion APIキーが設定されていません` before any Notion call. A success implies the page was created and returns its id. |
| NotionService.CreateNotionPageOutcome | app/services/notion_service.py:114-187 | With a key, the first call creates the page with the composed title, the parent and the three metadata blocks. A failed creation is the only call and its error propagates. On success the appends carry exactly the content's blocks, and the result is the page id with its URL (`""` when absent). When append `k` raises, `k + 2` calls were made, chunks `0..k-1` stay appended, and the error propagates unchanged. |
| NotionService.UploadOutcome | app/services/notion_service.py:116-180 | The upload succeeds, with the created page, exactly when creation succeeds and no append raises. Appends follow only a successful creation. The partial state after a failed append is as above. |
| NotionService.UploadPage | app/services/notion_service.py:116-134 | The first call of every upload is the page creation, whatever it returns. |
| NotionService.AppendChunks | app/services/notion_service.py:167-180 | Calls stop at the first append that raises. Call `k` appends chunk `k` to the created page, with no retry. |
| NotionService.PageTitleShape | app/services/notion_service.py:39-48 | The page title starts with the generated title. It carries a ` - <date>` suffix exactly when a non-empty creation time is given, and a datetime is written `%Y年%m月%d日`. |
| NotionService.ParentFor | app/services/notion_service.py:50-67 | The workspace parent is used exactly when no non-empty parent id is given. |
| NotionService.InitialBlocks | app/services/notion_service.py:76-112 | There are exactly three blocks: a bold `元の録音タイトル: <title>` paragraph, a plain paragraph starting `生成日時: `, then a divider. |
| Blocks.LineBlock | app/services/notion_service.py:138-162 | A line gets an empty paragraph exactly when it is whitespace only; otherwise a paragraph holding the line verbatim. |
| Blocks.BodyToBlocks | app/services/notion_service.py:137-162 | There is one block per line: `count("\n") + 1` blocks, blank lines included. |
| Blocks.BlockTexts | app/services/notion_service.py:137-162 | Block `i` shows line `i`, or nothing when that line is whitespace only. |
| Blocks.BodyRecovered | app/services/notion_service.py:137-162 | Joining the block texts with newlines gives back the minutes exactly when no line is whitespace only; no line is ever dropped. |
| Blocks.ServiceChunks | app/services/notion_service.py:164-168 | There are `ceil(n / 100)` chunks for `n` blocks. |
| Blocks.ServiceChunksShape | app/services/notion_service.py:164-168 | Each chunk holds 1 to 100 blocks, and all but the last hold exactly 100. Chunk `k` is `blocks[100k : 100k + 100]`. Concatenated, the chunks give back the blocks. |
| Blocks.WebhookChunks | app/routes/webhook.py:213-241 | The pipeline's accumulate-and-flush loop cuts exactly the chunks the service's `range(0, n, 100)` slicing cuts. |
| PageIds.NormalizeParentId | app/routes/webhook.py:155-161 | A 32-character id without `-` becomes 36 characters with hyphens at 8, 13, 18 and 23 and no others. Any other id is passed on unchanged. |
| PageIds.NormalizeIdempotent | app/services/notion_service.py:54-57 | Normalising an id twice gives the same result as normalising it once. |
| PageIds.HyphenStripRoundTrip | app/routes/webhook.py:157-159 | Removing the hyphens from a regrouped id gives back the bare id. |
| PageIds.SplitGroups | app/routes/webhook.py:158 | Splitting a regrouped id at `-` gives the 8, 4, 4, 4 and 12 character groups of the original id, in order. |
| PageIds.NormalizeInjective | app/services/notion_service.py:54-55 | Two distinct bare ids never normalise to the same id. |
| Models.DefaultSettings | app/models.py:14-24 | A new settings row uses `google_gemini` with the models `gemini-2.5-pro-exp-03-25`, `claude-3.7-sonnet` and `gpt-4o`. It has thinking mode on and no parent page, and is stamped with its insertion time. |
| Models.NewHistory | app/models.py:49-67 | A new record is pending, received now, with its payload stored and nothing processed, titled, published or failed. |
| Models.StatusNameInjective | app/models.py:66 | The four states are stored as four distinct strings. |
| Models.NextId | app/models.py:46 | A new row's id is positive and not used by any existing row. |
| Models.InitializeDefaultSettings | app/models.py:98-104 | A default row is inserted exactly when the table is empty, and existing rows are kept. |
| Models.InitializeIdempotent | app/models.py:98-104 | Initialising again changes nothing, whatever the clock. |
| Models.OptIsoRoundTrip | app/models.py:77-79 | An absent datetime renders as `null`. A present one renders as a string that `fromisoformat` reads back to the same value. |
| Models.HistoryToDict | app/models.py:72-86 | A record's `to_dict` is an object of eleven members. |
| Models.SettingsToDict | app/models.py:29-40 | A settings row's `to_dict` is an object of eight members. |
| Models.HistoryToDictFaithful | app/models.py:72-86 | Two records with the same `to_dict` agree on every column except the raw payload. |
| Models.SettingsToDictFaithful | app/models.py:29-40 | Two settings rows with the same `to_dict` are the same row. |
| Models.GetRawDataDict | app/models.py:88-95 | `{}` comes back for nothing stored, empty text or text that is not JSON; otherwise the decoded value. |
| Models.RawDataRoundTrip | app/models.py:88-95 | A payload stored with `json.dumps` decodes back to itself. |
| Json.Dumps | app/routes/webhook.py:57 | The text is never empty, and its first character tells the kind of value: `"` a string, `[` a list, `{` a dict, `-` or a digit an integer. |
| Json.DumpsAscii | app/routes/webhook.py:57 | With `ensure_ascii`, every character of the text is ASCII. |
| Json.Loads | app/models.py:88-95 | Text that is empty or only whitespace never decodes. A decoded string, list or dict starts, after whitespace, with `"`, `[` or `{`, one character per kind. |
| Json.LoadsDumps | app/routes/webhook.py:57 | `json.loads(json.dumps(v)) == v`, with `ensure_ascii` escapes and surrogate pairs for characters beyond the BMP. |
| DateTimes.IsoRoundTrip | app/models.py:77-79 | `fromisoformat` inverts `isoformat`, including its omission of a zero microsecond. |
| DateTimes.FormatJaDate | app/services/notion_service.py:43 | `%Y年%m月%d日` is eleven characters: the year in four digits, the month and day in two, each followed by its unit. |
| DateTimes.FormatJaDateReadBack | app/services/notion_service.py:43 | The three digit groups read back as the year, month and day. |
| DateTimes.FormatJaMinute | app/services/ai_service.py:72 | `%Y年%m月%d日 %H:%M` is the date layout, a space, then the hour and minute in two digits each around `:`. |
| DateTimes.EarlierOrder | app/routes/results.py:28 | Chronological order on datetimes is a strict total order. |
| Results.AheadOrder | app/routes/results.py:28 | "Listed before" under `received_at DESC` (NULLs last) is irreflexive, asymmetric and transitive, and so is its negation. |
| Results.NewestFirst | app/routes/results.py:28 | The listing holds the same records as the table, each as often, newest first. |
| Results.Index | app/routes/results.py:11-17 | The home page lists every record, each as often as stored, newest first. |
| Results.WithStatus | app/routes/results.py:31-32 | The filter keeps exactly the records with the requested status, each as often as stored. |
| Results.ListingFilter | app/routes/results.py:31-35 | An empty or absent status lists every record. A non-empty one lists exactly the records in that state, and `total` counts them. |
| Results.GetHistories | app/routes/results.py:20-45 | `per_page` 0 is the only failure, the division error. Otherwise `total` counts the listed records and `page` echoes the request, defaulting to 1. |
| Results.HistoriesRoute | app/routes/results.py:19-45 | For every combination of query values: the answer succeeds exactly when the page size (default 10) is not 0, and echoes the total, the page (default 1) and the page size. For a positive size, `total_pages` is `ceil(total / per_page)`, page `p >= 1` holds the `p`-th slice of the filtered, ordered records or nothing past the last page, and a page below 1 holds the first slice. |
| Results.HistoriesNoLimit | app/routes/results.py:36 | A negative page size sets no limit: the page holds every listed record from the offset `(page - 1) * per_page`, clamped to the listing, onwards. |
| Results.PaginateNoLimit | app/routes/results.py:36 | With a negative limit the page is the suffix from the clamped offset. |
| Results.Paginate | app/routes/results.py:35-44 | The page echoes the total and the request. A positive size bounds the page; a negative one gives a suffix of the listing. |
| Results.PageJson | app/routes/results.py:39-45 | The answer's members are `total`, `page`, `per_page`, `total_pages` and `data`, in the order of the dict literal, and `data` holds each listed record's `to_dict`, in listing order. |
| Results.Listed | app/routes/results.py:28-32 | The listing holds the same records, each as often, as the table, or as the records with the requested status when that status is non-empty. |
| Results.FloorDivFloor | app/routes/results.py:43 | Python's `//` is the floor of the exact quotient for either sign of the divisor. |
| Results.PaginateCount | app/routes/results.py:43 | For a positive page size, `total_pages` is `ceil(total / per_page)`. |
| Results.Window | app/routes/results.py:36 | A non-negative `limit` gives at most `limit` records: the slice from the offset (clamped at 0) of that length, cut at the end, and nothing past the end. A negative `limit` gives every record from the clamped offset onwards. |
| Results.PaginateSlices | app/routes/results.py:36 | Page `p` is the `p`-th slice of `per_page` records, or empty past the last page. |
| Results.PaginateLowPage | app/routes/results.py:36 | A page number below 1 gives the first page. |
| Results.FindHistory | app/routes/results.py:56 | The lookup finds a record exactly when one has the id, and it returns a stored record with that id. |
| Results.GetStatus | app/routes/results.py:53-72 | The answer is 404 `History with ID <id> not found` exactly when no record has the id, and 200 exactly when one has it. A 200 answer is the status view of the stored record with that id. |
| Results.StatusBody | app/routes/results.py:64-72 | The status view has seven members, in the order of the dict literal: `id`, `status`, `notta_title`, `generated_title`, `processed_at` (ISO text or `null`), `notion_page_url`, `error_message`, each holding that column of the record. |
| Results.StatusAgreesWithDict | app/routes/results.py:63-72 | Every field the status view reports appears alike, under the same key, in the record's `to_dict`. |
| Results.GetHistory | app/routes/results.py:47-51 | The record's `to_dict` comes back exactly when a record has the id. |
| SettingsRoutes.Index | app/routes/settings.py:11-22 | Viewing settings creates a default row only in an empty table, and shows the first row. |
| SettingsRoutes.ApplyForm | app/routes/settings.py:35-40 | Each provider or model field present in the form is stored as given, and each missing one takes its hard-coded default. A present parent id is stored as given. Thinking mode is on exactly when the field is present and non-empty. An absent parent id clears it. The id and `updated_at` are kept. |
| SettingsRoutes.Flushed | app/models.py:24 | `updated_at` is set to now exactly when some column changed; an unchanged row is left as it was. |
| SettingsRoutes.Update | app/routes/settings.py:24-54 | Every outcome redirects to the settings page. A failed commit leaves the table unchanged and flashes the error. A successful one flashes success, keeping the row count or creating the single row. |
| SettingsRoutes.UpdateSaves | app/routes/settings.py:29-43 | A save edits only the first row, keeping its id. The row holds the form's values, and `updated_at` moves to now exactly when a value changed. |
| SettingsRoutes.UpdateIdempotent | app/routes/settings.py:35-43 | Saving the same form twice leaves the same table as saving it once. |
| SettingsRoutes.UpdateCreates | app/routes/settings.py:29-33 | Saving into an empty table creates one row: the form's values over the defaults, stamped now. |
| SettingsRoutes.WebhookUrl | app/routes/settings.py:56-61 | The URL is the host URL with its trailing `/` removed, followed by `/webhook/notta`: what precedes the path is a prefix of the host URL that does not end in `/`, and every character of the host URL after it is `/`. |
| SettingsRoutes.WebhookUrlSlashes | app/routes/settings.py:60 | Trailing slashes on the host URL make no difference, and the base never ends in `/`. |
| ClientScript.Prefix | app/static/js/script.js:170 | `substring(0, end)` is a prefix whose length is `end` clamped to the string. |
| ClientScript.TruncateText | app/static/js/script.js:166-171 | The result is `''` exactly for falsy text. |
| ClientScript.TruncateTextShape | app/static/js/script.js:168-170 | Text no longer than `maxLength` comes back unchanged, so truncating again changes nothing. Longer text gives its first `maxLength` characters followed by `...`, `maxLength + 3` characters in all. |
| ClientScript.TruncateTextDefault | app/static/js/script.js:166 | Without `maxLength` the cut is at 50 characters. |
| ClientScript.FormatDate | app/static/js/script.js:150-154 | Falsy input gives `''`, and a string that does not parse comes back unchanged. |
| ClientScript.FormatDateSources | app/static/js/script.js:150-163 | The result is always `''`, the input itself, or the input's `ja-JP` rendering. |

## Left out

- Vendor SDKs and the Notion client are not modelled. Their replies, and what they raise, are the parameters `minutesReply`, `titleReply`, `create` and `appendFailure`.
- Prompt prose is not modelled. The fixed minutes instructions are a marker (`MinutesInstructions`), and the meeting and title prompts are records of the values they interpolate.
- Clocks are parameters: `datetime.now()`, `datetime.utcnow()` and the receipt time.
- `strptime`, the browser's `new Date` and `toLocaleString('ja-JP')` are parameters that may fail.
- `str()` of a non-string `creation_time`, and of a Gemini reply without `text`, are not rendered: they are an opaque value and a given string.
- Flask plumbing is not modelled: request parsing (a body that is not JSON, or the wrong content type), `jsonify` (whose key sorting means the HTTP body lists keys alphabetically, not in the order of the dict literals), templates, `flash` storage, redirects and blueprints. The body arrives decoded, and a response is a code plus a JSON value.
- The HTML body of `get_history`'s 404 page is not modelled; the lookup returns `None`.
- Webhook.ReceiveWebhook: a title that is not a string is modelled as a 500 carrying the driver's error as a parameter. The database would actually coerce some scalar titles.
- Pipeline.ProcessMinutesGeneration: only the error handler's commit (webhook.py:294) may fail. The other commits are assumed to succeed.
- Webhook.WebhookStores: when the error handler's commit fails (webhook.py:294-296), the model still answers 200 with the record's id. That holds when the final COMMIT fails and `history.id` stays readable. When the failure happens at flush (a locked database on the UPDATE, say), the session is rolled back, reading `history.id` at webhook.py:72 raises, and the source answers 500 (webhook.py:75-77). That flush case is not modelled; Webhook.WebhookAccepts and Webhook.ReceiveWebhook inherit the same assumption.
- Webhook.WebhookAccepts: the 200 it promises after a failed handler commit rests on the assumption above.
- Results.GetStatus: ids are unbounded. The SQLite driver cannot bind an integer outside [-2^63, 2^63 - 1] and raises `OverflowError`, so `/api/status/<id>` with a larger id answers 500 in the source, where the model answers 404.
- Results.GetHistories: `page` and `per_page` are unbounded. A `per_page`, or an offset `(page - 1) * per_page`, outside the 64-bit range makes the LIMIT/OFFSET bind at results.py:36 raise `OverflowError`, and the source answers 500 where the model answers with a page. Results.Window and Results.HistoriesRoute share this assumption.
- The not-found branch at webhook.py:89-91 cannot be reached, because the record was inserted just before. It is not modelled.
- `int()` conversion of query parameters is abstract: `page` and `per_page` arrive as `Option<int>`, with `None` for an absent or non-integer value.
- SQLite does not fix the order of records with equal `received_at`. The model lists them in insertion order.
- JSON floating-point numbers, `NaN` and `Infinity` are not represented, so the decoder rejects them.
- Lone surrogate escapes are rejected too, since a string of Unicode scalar values cannot hold one.
- Python's `RecursionError` on deeply nested payloads is not modelled.
- Duplicate keys in a payload: `dict.get` reads the last occurrence, as Python does. But the stored text keeps every member, where Python's `json.dumps` of the dict writes each key once.
- JavaScript string lengths count UTF-16 code units. The model counts characters, so `truncateText` differs on text beyond the BMP.
- OpenAI's `message.content` of `None` (on which `.strip()` raises) is not modelled, nor is a Claude content block without `text`. Replies carry a string or no text at all.
- Constructing the vendor and Notion clients with a missing API key is not modelled. A missing Notion key shows up in the pipeline as the `create` outcome; a missing vendor key shows up as the `minutesReply` outcome.
- AiService.Generate: the speakers line is computed before any vendor client exists. For Claude the source builds the client first (ai_service.py:152) and the speakers line after it (ai_service.py:155). Client construction is not modelled, so an error from it cannot pre-empt an error from the speakers line.
- Models.HistoryToDict: the contract states the member count only. The key names and values are fixed by the body; `Models.HistoryToDictFaithful` states that nothing but `raw_data` is lost.
- Models.SettingsToDict: the contract states the member count only. The key names and values are fixed by the body; `Models.SettingsToDictFaithful` states that nothing is lost.
- DateTimes.FormatJaDate: `%Y` is always padded to four digits, as CPython 3.12.5 and later do on every platform. Earlier versions on glibc write years below 1000 without padding.
- The settings row is read once per run. A concurrent settings update is out of scope, because everything runs inside one request.
- Logging, the DOM code of the browser script, and the diagnostic scripts are not modelled.
