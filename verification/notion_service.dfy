/** Publishing minutes to Notion: the page-creation call with its three
    metadata blocks, then the minutes text appended in chunks. The Notion
    API is not modelled; each call's outcome is a parameter, and the model
    records the calls made, in order. */
module NotionService {
  import opened Text
  import opened Wrappers
  import opened DateTimes
  import opened Chunking
  import opened Blocks
  import opened PageIds

  /** Where the page is created. */
  datatype Parent = PageParent(pageId: string) | WorkspaceParent

  /** A request sent to the Notion API. */
  datatype NotionCall =
    | CreatePage(parent: Parent, title: string, children: seq<Block>)
    | AppendChildren(blockId: string, children: seq<Block>)

  /** What a successful `pages.create` returns: the page id, and its URL
      when the response carries one. */
  datatype CreatedPage = CreatedPage(id: string, url: Option<string>)

  /** The append call number `index` (from 0) raises `message`. */
  datatype AppendFailure = AppendFailure(index: nat, message: string)

  /** The `{id, url}` the service returns. */
  datatype PageRef = PageRef(id: string, url: string)

  /** The calls made and the outcome. */
  datatype NotionRun = NotionRun(calls: seq<NotionCall>, result: Result<PageRef>)

  /** The calls made by a page creation and its appends, and the created
      page, or what a call raised. */
  datatype Upload = Upload(calls: seq<NotionCall>, page: Result<CreatedPage>)

  /** The creation-time argument: absent, a `datetime`, or a string. */
  datatype Stamp = NoStamp | StampDate(dt: DateTime) | StampText(text: string)

  const MissingKeyMessage: string := "Notion APIキーが設定されていません"
  const OriginalTitleLabel: string := "元の録音タイトル: "
  const GeneratedAtLabel: string := "生成日時: "

  /** The metadata blocks every page starts with: the original recording
      title in bold, the local time of generation, and a divider. */
  function InitialBlocks(nottaTitle: string, now: DateTime): (bs: seq<Block>)
    ensures |bs| == 3 && bs[2] == Divider
    ensures bs[0] == Paragraph([RichText(OriginalTitleLabel + nottaTitle, true)])
    ensures bs[1].Paragraph? && |bs[1].richText| == 1 && !bs[1].richText[0].bold
    ensures GeneratedAtLabel <= bs[1].richText[0].content
  {
    var stamp := GeneratedAtLabel + FormatJaMinute(now);
    [ Paragraph([RichText(OriginalTitleLabel + nottaTitle, true)]),
      Paragraph([RichText(stamp, false)]),
      Divider ]
  }

  /** The date suffix: `%Y年%m月%d日` of a datetime, a string as it is. */
  function StampSuffix(stamp: Stamp): string {
    match stamp
    case NoStamp => ""
    case StampDate(dt) => FormatJaDate(dt)
    case StampText(t) => t
  }

  /** `"{title} - {date}"`, or the title alone when there is no date. */
  function PageTitle(title: string, stamp: Stamp): string {
    var date := StampSuffix(stamp);
    if date != "" then title + " - " + date else title
  }

  /** The page title starts with the generated title and carries a date
      suffix exactly when a non-empty creation time was given. */
  lemma PageTitleShape(title: string, stamp: Stamp)
    ensures var r := PageTitle(title, stamp);
      && |r| >= |title| && r[..|title|] == title
      && (r == title <==> stamp.NoStamp? || stamp == StampText(""))
      && (stamp.StampDate? ==> r == title + " - " + FormatJaDate(stamp.dt))
  {
    var r := PageTitle(title, stamp);
    if stamp.StampDate? {
      assert |FormatJaDate(stamp.dt)| > 0;
    }
    if StampSuffix(stamp) != "" {
      assert |r| > |title|;
    }
  }

  /** The parent: a given id, normalised, or the workspace top level. */
  function ParentFor(parentPageId: Option<string>): (p: Parent)
    ensures parentPageId.None? || parentPageId == Some("") <==> p == WorkspaceParent
  {
    match parentPageId
    case Some(id) => if id != "" then PageParent(NormalizeParentId(id)) else WorkspaceParent
    case None => WorkspaceParent
  }

  /** The number of append calls made before one raises, or all of them. */
  function Attempted(count: nat, failure: Option<AppendFailure>): (n: nat)
    ensures n <= count
  {
    match failure
    case Some(f) => if f.index < count then f.index + 1 else count
    case None => count
  }

  /** The error an append raises, if one does. */
  function AppendError(count: nat, failure: Option<AppendFailure>): (e: Option<string>) {
    match failure
    case Some(f) => if f.index < count then Some(f.message) else None
    case None => None
  }

  /** Appending each chunk in order to page `pageId`, stopping at the first
      call that raises: nothing is retried or rolled back. */
  function AppendChunks(pageId: string, chunks: seq<seq<Block>>, failure: Option<AppendFailure>): (calls: seq<NotionCall>)
    ensures |calls| == Attempted(|chunks|, failure)
    ensures forall k :: 0 <= k < |calls| ==> calls[k] == AppendChildren(pageId, chunks[k])
  {
    var n := Attempted(|chunks|, failure);
    seq(n, k requires 0 <= k < n => AppendChildren(pageId, chunks[k]))
  }

  /** The blocks carried by the append calls of a trace, in order. */
  function AppendedBlocks(calls: seq<NotionCall>): seq<Block> {
    if |calls| == 0 then []
    else (if calls[0].AppendChildren? then calls[0].children else []) + AppendedBlocks(calls[1..])
  }

  /** Sending `createCall`, then, once the page exists, appending the
      content's blocks to it in chunks of 100, stopping at the first call
      that raises. */
  function UploadPage(createCall: NotionCall, create: Result<CreatedPage>, content: string, appendFailure: Option<AppendFailure>): (u: Upload)
    ensures |u.calls| >= 1 && u.calls[0] == createCall
  {
    match create
    case Err(e) => Upload([createCall], Err(e))
    case Ok(page) =>
      var chunks := ServiceChunks(BodyToBlocks(content));
      var appends := AppendChunks(page.id, chunks, appendFailure);
      match AppendError(|chunks|, appendFailure)
      case Some(e) => Upload([createCall] + appends, Err(e))
      case None => Upload([createCall] + appends, Ok(page))
  }

  /** `create_notion_page`: page creation, then the chunked appends. */
  function CreateNotionPage(
    title: string, content: string, nottaTitle: string, stamp: Stamp,
    parentPageId: Option<string>, apiKey: Option<string>, now: DateTime,
    create: Result<CreatedPage>, appendFailure: Option<AppendFailure>): (run: NotionRun)
    ensures apiKey.None? || apiKey == Some("") ==> run == NotionRun([], Err(MissingKeyMessage))
    ensures run.result.Ok? ==> create.Ok? && run.result.value.id == create.value.id
  {
    if apiKey.None? || apiKey == Some("") then NotionRun([], Err(MissingKeyMessage))
    else
      var createCall := CreatePage(ParentFor(parentPageId), PageTitle(title, stamp), InitialBlocks(nottaTitle, now));
      var u := UploadPage(createCall, create, content, appendFailure);
      match u.page
      case Err(e) => NotionRun(u.calls, Err(e))
      case Ok(page) => NotionRun(u.calls, Ok(PageRef(page.id, page.url.GetOr(""))))
  }

  /** The blocks carried by the first `k` chunks' append calls. */
  lemma {:induction false} AppendedPrefix(pageId: string, chunks: seq<seq<Block>>, k: nat)
    requires k <= |chunks|
    ensures AppendedBlocks(seq(k, i requires 0 <= i < k => AppendChildren(pageId, chunks[i])))
      == Flatten(chunks[..k])
  {
    var calls := seq(k, i requires 0 <= i < k => AppendChildren(pageId, chunks[i]));
    if k > 0 {
      AppendedPrefix(pageId, chunks[1..], k - 1);
      assert calls[1..] == seq(k - 1, i requires 0 <= i < k - 1 => AppendChildren(pageId, chunks[1..][i]));
      assert chunks[..k][1..] == chunks[1..][..k - 1];
    }
  }

  /** With a key, the service makes the creation call first, with the
      metadata blocks, and appends only after a successful creation. On
      success the appended blocks are exactly the minutes' blocks and the
      result is the created page's id and URL (empty when absent). When
      append `k` raises, the blocks of chunks `0..k-1` stay appended and the
      error propagates unchanged. */
  lemma CreateNotionPageOutcome(
    title: string, content: string, nottaTitle: string, stamp: Stamp,
    parentPageId: Option<string>, apiKey: Option<string>, now: DateTime,
    create: Result<CreatedPage>, appendFailure: Option<AppendFailure>)
    requires apiKey.Some? && apiKey.value != ""
    ensures var run := CreateNotionPage(title, content, nottaTitle, stamp, parentPageId, apiKey, now, create, appendFailure);
      var bs := BodyToBlocks(content);
      && |run.calls| >= 1
      && run.calls[0] == CreatePage(ParentFor(parentPageId), PageTitle(title, stamp), InitialBlocks(nottaTitle, now))
      && (create.Err? ==> run == NotionRun(run.calls[..1], Err(create.error)))
      && (create.Ok? && run.result.Ok? ==>
            && AppendedBlocks(run.calls[1..]) == bs
            && run.result.value == PageRef(create.value.id, create.value.url.GetOr("")))
      && (create.Ok? && appendFailure.Some? && appendFailure.value.index < |ServiceChunks(bs)| ==>
            var k := appendFailure.value.index;
            && run.result == Err(appendFailure.value.message)
            && |run.calls| == k + 2
            && AppendedBlocks(run.calls[1..k + 1]) == bs[..ChunkSize * k])
  {
    var createCall := CreatePage(ParentFor(parentPageId), PageTitle(title, stamp), InitialBlocks(nottaTitle, now));
    UploadOutcome(createCall, create, content, appendFailure);
  }

  /** The creation call goes first; the appends follow only a successful
      creation. The upload succeeds, with the created page, exactly when no
      append raises, and then the appends carry exactly the content's
      blocks. When append `k` raises, the blocks of chunks `0..k-1` stay
      appended and the error propagates unchanged. */
  lemma UploadOutcome(createCall: NotionCall, create: Result<CreatedPage>, content: string, appendFailure: Option<AppendFailure>)
    ensures var u := UploadPage(createCall, create, content, appendFailure);
      var bs := BodyToBlocks(content);
      var n := |ServiceChunks(bs)|;
      && (create.Err? ==> u == Upload([createCall], Err(create.error)))
      && (u.page.Ok? <==> create.Ok? && (appendFailure.None? || appendFailure.value.index >= n))
      && (u.page.Ok? ==> u.page.value == create.value && AppendedBlocks(u.calls[1..]) == bs)
      && (create.Ok? && appendFailure.Some? && appendFailure.value.index < n ==>
            var k := appendFailure.value.index;
            && u.page == Err(appendFailure.value.message)
            && |u.calls| == k + 2
            && AppendedBlocks(u.calls[1..k + 1]) == bs[..ChunkSize * k])
  {
    var u := UploadPage(createCall, create, content, appendFailure);
    var bs := BodyToBlocks(content);
    if create.Ok? {
      var appends := AppendChunks(create.value.id, ServiceChunks(bs), appendFailure);
      assert u.calls[1..] == appends;
      AppendsComplete(create.value.id, bs, appendFailure);
      AppendsInterrupted(create.value.id, bs, appendFailure);
      if appendFailure.Some? && appendFailure.value.index < |ServiceChunks(bs)| {
        var k := appendFailure.value.index;
        assert u.calls[1..k + 1] == appends[..k];
      }
    }
  }

  /** When no append raises, the append calls carry exactly the blocks. */
  lemma AppendsComplete(pageId: string, bs: seq<Block>, failure: Option<AppendFailure>)
    ensures var chunks := ServiceChunks(bs);
      AppendError(|chunks|, failure).None? ==> AppendedBlocks(AppendChunks(pageId, chunks, failure)) == bs
  {
    var chunks := ServiceChunks(bs);
    var appends := AppendChunks(pageId, chunks, failure);
    if AppendError(|chunks|, failure).None? {
      ServiceChunksShape(bs);
      assert appends == seq(|chunks|, i requires 0 <= i < |chunks| => AppendChildren(pageId, chunks[i]));
      AppendedPrefix(pageId, chunks, |chunks|);
      assert chunks[..|chunks|] == chunks;
    }
  }

  /** When append `k` raises, the `k + 1` calls made carry the error, and the
      `k` that succeeded carry the first `100 * k` blocks. */
  lemma AppendsInterrupted(pageId: string, bs: seq<Block>, failure: Option<AppendFailure>)
    ensures var chunks := ServiceChunks(bs);
      var appends := AppendChunks(pageId, chunks, failure);
      failure.Some? && failure.value.index < |chunks| ==>
        var k := failure.value.index;
        && AppendError(|chunks|, failure) == Some(failure.value.message)
        && |appends| == k + 1
        && AppendedBlocks(appends[..k]) == bs[..ChunkSize * k]
  {
    var chunks := ServiceChunks(bs);
    var appends := AppendChunks(pageId, chunks, failure);
    if failure.Some? && failure.value.index < |chunks| {
      var k := failure.value.index;
      ServiceChunksShape(bs);
      assert appends[..k] == seq(k, i requires 0 <= i < k => AppendChildren(pageId, chunks[i]));
      AppendedPrefix(pageId, chunks, k);
      FlattenFullChunks(chunks, bs, k);
    }
  }

  /** The first `k` chunks, all full, hold the first `100 * k` blocks. */
  lemma {:induction false} FlattenFullChunks(chunks: seq<seq<Block>>, bs: seq<Block>, k: nat)
    requires k < |chunks|
    requires WellChunked(chunks, ChunkSize) && Flatten(chunks) == bs
    ensures ChunkSize * k <= |bs| && Flatten(chunks[..k]) == bs[..ChunkSize * k]
  {
    if k > 0 {
      assert |chunks[0]| == ChunkSize;
      assert bs == chunks[0] + Flatten(chunks[1..]);
      assert WellChunked(chunks[1..], ChunkSize) by {
        forall j | 0 <= j < |chunks[1..]|
          ensures 1 <= |chunks[1..][j]| <= ChunkSize && (j < |chunks[1..]| - 1 ==> |chunks[1..][j]| == ChunkSize)
        {
          assert chunks[1..][j] == chunks[j + 1];
        }
      }
      FlattenFullChunks(chunks[1..], Flatten(chunks[1..]), k - 1);
      assert chunks[..k][1..] == chunks[1..][..k - 1];
      var rest := Flatten(chunks[1..]);
      assert Flatten(chunks[..k]) == chunks[0] + Flatten(chunks[1..][..k - 1]);
      assert bs[..ChunkSize * k] == chunks[0] + rest[..ChunkSize * (k - 1)];
    }
  }
}
