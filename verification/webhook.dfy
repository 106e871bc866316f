/** `notta_webhook`: validating a posted transcript, storing it as a pending
    history record, and running the minutes pipeline on it synchronously.
    The request body arrives already decoded; the history table is a
    sequence of rows, and the settings snapshot is its first row. */
module Webhook {
  import opened Wrappers
  import opened DateTimes
  import opened Json
  import opened PyValues
  import opened Models
  import opened Responses
  import opened Pipeline

  /** The response, the history table afterwards, and the pipeline run
      when one was started. */
  datatype WebhookResult = WebhookResult(response: Response, rows: seq<History>, run: Option<PipelineRun>)

  const NoDataMessage: string := "No data received"
  const MissingFieldPrefix: string := "Missing required field: "

  /** `{"status": "success", "message": ..., "history_id": id}`. */
  function AcceptedBody(id: nat): (j: Json)
    ensures j.JObject? && |j.members| == 3 && j.members[2] == Member("history_id", JInt(id))
  {
    JObject([
      Member("status", JString("success")),
      Member("message", JString("Webhook received successfully")),
      Member("history_id", JInt(id))])
  }

  /** The required fields, `content` first: the first one `data` lacks, or
      the error `in` raises for a value that is not a container. */
  function MissingField(data: Json): (r: Result<Option<string>>)
    ensures data.JObject? ==> r.Ok?
    ensures data.JObject? ==>
      (r.value.None? <==> HasKey(data.members, "content") && HasKey(data.members, "title"))
    ensures data.JObject? && !HasKey(data.members, "content") ==> r == Ok(Some("content"))
  {
    match Contains(data, "content")
    case Err(e) => Err(e)
    case Ok(false) => Ok(Some("content"))
    case Ok(true) =>
      match Contains(data, "title")
      case Err(e) => Err(e)
      case Ok(false) => Ok(Some("title"))
      case Ok(true) => Ok(None)
  }

  /** `notta_creation_time`: parsed when the payload has a truthy
      `creation_time`; a string that does not parse gives `None`, and a
      value that is not a string makes `strptime` raise. */
  function CreationTime(members: seq<Member>, parse: string -> Option<DateTime>): (r: Result<Option<DateTime>>)
    ensures Lookup(members, "creation_time").None? ==> r == Ok(None)
    ensures Lookup(members, "creation_time").Some? && !Truthy(Lookup(members, "creation_time").value) ==> r == Ok(None)
    ensures r.Err? <==> Lookup(members, "creation_time").Some?
                        && Truthy(Lookup(members, "creation_time").value)
                        && !Lookup(members, "creation_time").value.JString?
  {
    match Lookup(members, "creation_time")
    case None => Ok(None)
    case Some(v) =>
      if !Truthy(v) then Ok(None)
      else match v
        case JString(s) => Ok(parse(s))
        case _ => Err("strptime() argument 1 must be str, not " + TypeName(v))
  }

  /** The route. `titleStoreError` is what the database driver raises for a
      title that is not a string; `receivedNow` is `utcnow()` at insertion. */
  function ReceiveWebhook(
    rows: seq<History>, settingsRows: seq<Settings>, data: Json,
    titleStoreError: string, receivedNow: DateTime, o: Oracles): (w: WebhookResult)
    ensures w.response.code == 200 || (w.rows == rows && w.run.None?)
  {
    if !Truthy(data) then WebhookResult(Response(400, ErrorBody(NoDataMessage)), rows, None)
    else match MissingField(data)
      case Err(e) => WebhookResult(Response(500, ErrorBody(e)), rows, None)
      case Ok(Some(field)) => WebhookResult(Response(400, ErrorBody(MissingFieldPrefix + field)), rows, None)
      case Ok(None) =>
        match Get(data, "content", JString(""))
        case Err(e) => WebhookResult(Response(500, ErrorBody(e)), rows, None)
        case Ok(content) =>
          match Len(content)
          case Err(e) => WebhookResult(Response(500, ErrorBody(e)), rows, None)
          case Ok(_) =>
            match CreationTime(data.members, o.parse)
            case Err(e) => WebhookResult(Response(500, ErrorBody(e)), rows, None)
            case Ok(created) =>
              var title := Lookup(data.members, "title").value;
              if !title.JString? then WebhookResult(Response(500, ErrorBody(titleStoreError)), rows, None)
              else
                var id := NextId(HistoryIds(rows));
                var inserted := NewHistory(id, title.s, created, Dumps(data), receivedNow);
                var run := ProcessMinutesGeneration(inserted, FirstSettings(settingsRows), o);
                WebhookResult(Response(200, AcceptedBody(id)), rows + [Final(run)], Some(run))
  }

  /** The record as inserted by an accepted request. */
  function Inserted(rows: seq<History>, data: Json, created: Option<DateTime>, receivedNow: DateTime): History
    requires data.JObject? && Lookup(data.members, "title").Some? && Lookup(data.members, "title").value.JString?
  {
    NewHistory(NextId(HistoryIds(rows)), Lookup(data.members, "title").value.s, created, Dumps(data), receivedNow)
  }

  /** Rejections, in the order they are checked: an empty body, then a
      missing `content`, then a missing `title`. No record is created. */
  lemma WebhookRejections(
    rows: seq<History>, settingsRows: seq<Settings>, data: Json,
    titleStoreError: string, receivedNow: DateTime, o: Oracles)
    ensures var w := ReceiveWebhook(rows, settingsRows, data, titleStoreError, receivedNow, o);
      && (!Truthy(data) ==> w == WebhookResult(Response(400, ErrorBody(NoDataMessage)), rows, None))
      && (Truthy(data) && data.JObject? && !HasKey(data.members, "content") ==>
            w == WebhookResult(Response(400, ErrorBody(MissingFieldPrefix + "content")), rows, None))
      && (Truthy(data) && data.JObject? && HasKey(data.members, "content") && !HasKey(data.members, "title") ==>
            w == WebhookResult(Response(400, ErrorBody(MissingFieldPrefix + "title")), rows, None))
      && (Truthy(data) && !(data.JObject? || data.JString? || data.JArray?) ==>
            w.response == Response(500, ErrorBody("argument of type '" + TypeName(data) + "' is not iterable")))
  {
  }

  /** A request is accepted exactly when the body is a non-empty dict with
      `content` and `title`, the content has a length, any truthy
      `creation_time` is a string, and the title is a string. */
  lemma WebhookAccepts(
    rows: seq<History>, settingsRows: seq<Settings>, data: Json,
    titleStoreError: string, receivedNow: DateTime, o: Oracles)
    ensures var w := ReceiveWebhook(rows, settingsRows, data, titleStoreError, receivedNow, o);
      w.response.code == 200 <==>
        && data.JObject? && Truthy(data)
        && HasKey(data.members, "content") && HasKey(data.members, "title")
        && Len(Lookup(data.members, "content").value).Ok?
        && CreationTime(data.members, o.parse).Ok?
        && Lookup(data.members, "title").value.JString?
  {
    if data.JObject? && HasKey(data.members, "content") {
      assert Get(data, "content", JString("")) == Ok(Lookup(data.members, "content").value);
    }
  }

  /** An accepted request (see `WebhookAccepts`; a dict with both keys is
      never empty) is answered 200 and appends exactly one record with a
      fresh id, the one the response names. It was inserted pending with the payload
      stored as `json.dumps(data)`, which decodes back to the payload, and
      the pipeline ran on it; the stored row is the pipeline's final state. */
  lemma WebhookStores(
    rows: seq<History>, settingsRows: seq<Settings>, data: Json,
    titleStoreError: string, receivedNow: DateTime, o: Oracles)
    requires data.JObject? && Lookup(data.members, "content").Some? && Lookup(data.members, "title").Some?
    requires Len(Lookup(data.members, "content").value).Ok? && Lookup(data.members, "title").value.JString?
    requires CreationTime(data.members, o.parse).Ok?
    ensures var w := ReceiveWebhook(rows, settingsRows, data, titleStoreError, receivedNow, o);
      var created := CreationTime(data.members, o.parse).value;
      var h := Inserted(rows, data, created, receivedNow);
      && w.response.code == 200
      && |w.rows| == |rows| + 1 && w.rows[..|rows|] == rows
      && (forall i :: 0 <= i < |rows| ==> rows[i].id != h.id)
      && w.response.body == AcceptedBody(h.id)
      && h.status == Pending && h.receivedAt == Some(receivedNow)
      && GetRawDataDict(h.rawData) == data
      && w.run == Some(ProcessMinutesGeneration(h, FirstSettings(settingsRows), o))
      && w.rows[|rows|] == Final(w.run.value)
      && SameIdentity(w.rows[|rows|], h)
  {
    WebhookAccepts(rows, settingsRows, data, titleStoreError, receivedNow, o);
    var created := CreationTime(data.members, o.parse).value;
    var h := Inserted(rows, data, created, receivedNow);
    assert HistoryIds(rows)[..] == HistoryIds(rows);
    forall i | 0 <= i < |rows|
      ensures rows[i].id != h.id
    {
      assert HistoryIds(rows)[i] == rows[i].id;
    }
    RawDataRoundTrip(data);
    PipelineKeepsIdentity(h, FirstSettings(settingsRows), o);
  }

  /** The stored creation time: `None` when absent, empty, or not in the
      `%Y-%m-%d %H:%M:%S` layout — never an error for a string. */
  lemma WebhookCreationTime(members: seq<Member>, parse: string -> Option<DateTime>, s: string)
    requires Lookup(members, "creation_time") == Some(JString(s))
    ensures s == "" ==> CreationTime(members, parse) == Ok(None)
    ensures s != "" ==> CreationTime(members, parse) == Ok(parse(s))
  {
  }
}
