/** Minutes generation: the pure preparation around the two vendor calls
    (minutes, then a title) made to one of three LLM providers. The vendor
    SDKs are not modelled: each call's outcome is a parameter, prompts are
    recorded as structured values, and the fixed instruction prose is
    represented by a marker rather than its wording. */
module AiService {
  import opened Text
  import opened Wrappers
  import opened DateTimes
  import opened Json
  import opened PyValues

  datatype Provider = Gemini | Claude | OpenAi

  /** The tag stored in the settings for each provider. */
  function ProviderTag(p: Provider): string {
    match p
    case Gemini => "google_gemini"
    case Claude => "anthropic_claude"
    case OpenAi => "openai_chatgpt"
  }

  /** The provider a tag selects; other tags select none. */
  function ParseProvider(tag: string): Option<Provider> {
    if tag == "google_gemini" then Some(Gemini)
    else if tag == "anthropic_claude" then Some(Claude)
    else if tag == "openai_chatgpt" then Some(OpenAi)
    else None
  }

  /** Tags and providers correspond one to one. */
  lemma ProviderTagRoundTrip(p: Provider, tag: string)
    ensures ParseProvider(ProviderTag(p)) == Some(p)
    ensures ParseProvider(tag) == Some(p) <==> tag == ProviderTag(p)
  {
  }

  /** The `creation_time` argument: a `datetime`, or a value taken from the
      webhook payload. */
  datatype CreationTime = TimeValue(dt: DateTime) | TimeJson(v: Json)

  /** `formatted_date`: a string computed here, or `str()` of a payload
      value that is not a string (its rendering is not modelled). */
  datatype DateText = Formatted(text: string) | StrOf(value: Json)

  /** The date line of the prompts. A datetime, or a string `parse`
      (`strptime` with `%Y-%m-%d %H:%M:%S`) accepts, is written
      `%Y年%m月%d日 %H:%M`; a string it rejects is used as it is; another
      truthy value is rendered with `str()`; a falsy one gives "". Nothing
      here raises. */
  function FormatCreationTime(t: CreationTime, parse: string -> Option<DateTime>): (d: DateText)
    ensures d == Formatted("") <==> t.TimeJson? && !Truthy(t.v)
  {
    match t
    case TimeValue(dt) => Formatted(FormatJaMinute(dt))
    case TimeJson(v) =>
      if !Truthy(v) then Formatted("")
      else match v
        case JString(s) =>
          (match parse(s)
           case Some(dt) => Formatted(FormatJaMinute(dt))
           case None => Formatted(s))
        case _ => StrOf(v)
  }

  /** A date is written in the Japanese layout whenever one is available,
      and an unparsable string falls back to itself. */
  lemma FormatCreationTimeCases(t: CreationTime, parse: string -> Option<DateTime>)
    ensures t.TimeValue? ==> FormatCreationTime(t, parse) == Formatted(FormatJaMinute(t.dt))
    ensures t.TimeJson? && t.v.JString? && t.v.s != "" ==>
      FormatCreationTime(t, parse) == Formatted(
        match parse(t.v.s) case Some(dt) => FormatJaMinute(dt) case None => t.v.s)
    ensures FormatCreationTime(t, parse).StrOf? <==>
      t.TimeJson? && Truthy(t.v) && !t.v.JString?
  {
  }

  const UnknownSpeakers: string := "不明"

  /** `", ".join([s for s in speakers if s]) if speakers else "不明"`. */
  function SpeakersText(speakers: Json): (r: Result<string>)
    ensures !Truthy(speakers) ==> r == Ok(UnknownSpeakers)
  {
    if !Truthy(speakers) then Ok(UnknownSpeakers)
    else match Iterate(speakers)
      case Err(e) => Err(e)
      case Ok(items) => JoinStrs(KeepTruthy(items), ", ")
  }

  /** The non-empty strings, in order. */
  function NonEmpty(ss: seq<string>): (r: seq<string>)
    ensures forall i :: 0 <= i < |r| ==> r[i] != ""
    ensures |r| == 0 <==> forall i :: 0 <= i < |ss| ==> ss[i] == ""
  {
    if |ss| == 0 then []
    else
      var rest := NonEmpty(ss[1..]);
      assert forall i :: 1 <= i < |ss| ==> ss[i] == ss[1..][i - 1];
      if ss[0] != "" then [ss[0]] + rest else rest
  }

  function JsonStrings(ss: seq<string>): (r: seq<Json>)
    ensures |r| == |ss| && forall i :: 0 <= i < |ss| ==> r[i] == JString(ss[i])
  {
    seq(|ss|, i requires 0 <= i < |ss| => JString(ss[i]))
  }

  lemma {:induction false} KeepTruthyStrings(ss: seq<string>)
    ensures KeepTruthy(JsonStrings(ss)) == JsonStrings(NonEmpty(ss))
  {
    if |ss| > 0 {
      var tail := ss[1..];
      JsonStringsHead(ss);
      KeepTruthyStrings(tail);
      if ss[0] != "" {
        JsonStringsHead([ss[0]] + NonEmpty(tail));
        assert ([ss[0]] + NonEmpty(tail))[1..] == NonEmpty(tail);
      }
    }
  }

  /** `JsonStrings` split after its first item. */
  lemma JsonStringsHead(ss: seq<string>)
    requires |ss| > 0
    ensures JsonStrings(ss)[0] == JString(ss[0]) && JsonStrings(ss)[1..] == JsonStrings(ss[1..])
  {
    assert JsonStrings(ss)[1..] == JsonStrings(ss[1..]);
  }

  /** For a list of speaker names: the non-empty names joined with ", ",
      or "不明" for an empty list. A list of empty names only gives "". */
  lemma SpeakersOfStrings(ss: seq<string>)
    ensures SpeakersText(JArray(JsonStrings(ss)))
      == Ok(if |ss| == 0 then UnknownSpeakers else Join(NonEmpty(ss), ", "))
    ensures |ss| > 0 ==>
      (SpeakersText(JArray(JsonStrings(ss))) == Ok("") <==> forall i :: 0 <= i < |ss| ==> ss[i] == "")
  {
    var items := JsonStrings(ss);
    if |ss| > 0 {
      assert Truthy(JArray(items));
      KeepTruthyStrings(ss);
      var kept := JsonStrings(NonEmpty(ss));
      JoinStrsJoin(kept, ", ");
      assert Strs(kept) == NonEmpty(ss);
      var ps := NonEmpty(ss);
      if |ps| == 1 {
        assert Join(ps, ", ") == ps[0];
      } else if |ps| > 1 {
        assert |Join(ps, ", ")| > 0;
      }
    }
  }

  /** The generated title: stripped, then cut to its first 30 characters. */
  function TruncateTitle(raw: string): (r: string)
    ensures |r| <= 30
    ensures r <= Strip(raw)
    ensures |Strip(raw)| <= 30 ==> r == Strip(raw)
    ensures |Strip(raw)| > 30 ==> r == Strip(raw)[..30]
    ensures r == "" || !IsSpace(r[0])
  {
    var t := Strip(raw);
    if |t| > 30 then t[..30] else t
  }

  /** `minutes_content[:500]`, the part of the minutes the title prompt shows. */
  function Excerpt(minutes: string): (r: string)
    ensures |r| <= 500
    ensures r <= minutes
    ensures |minutes| <= 500 ==> r == minutes
    ensures |minutes| > 500 ==> r == minutes[..500]
  {
    if |minutes| > 500 then minutes[..500] else minutes
  }

  /** The sentence appended to Claude's system prompt in thinking mode. */
  const ThinkingSuffix: string :=
    "\n\n思考プロセスを示すために、まず文字起こしを分析し、重要なポイントを抽出し、それから最終的な議事録を作成してください。"

  /** Gemini's separator between instructions and meeting prompt: a
      backslash, `n`, a backslash, `n` (not two newlines). */
  const GeminiSeparator: string := "\\n\\n"

  /** The meeting prompt's fields: title, date line, speakers and transcript. */
  datatype UserPrompt = UserPrompt(title: Json, date: DateText, speakers: string, content: Json)

  /** The title prompt's fields: original title, date line, minutes excerpt. */
  datatype TitlePrompt = TitlePrompt(title: Json, date: DateText, excerpt: string)

  /** A part of a prompt: literal text, the fixed minutes instructions, or
      one of the two templates filled in. */
  datatype PromptPiece =
    | Lit(text: string)
    | MinutesInstructions
    | MeetingPrompt(user: UserPrompt)
    | TitleRequest(request: TitlePrompt)

  /** A vendor request: provider, model, system prompt (empty when none is
      sent), the user prompt, and the token limit when one is sent. */
  datatype AiCall = AiCall(
    provider: Provider, model: Option<string>,
    system: seq<PromptPiece>, prompt: seq<PromptPiece>, maxTokens: Option<nat>)

  /** A vendor reply: its text, or none (Gemini's reply without `text`,
      Claude's empty `content`, OpenAI's empty `choices`) with the reply's
      `str()`. */
  datatype Reply = Text(text: string) | NoText(repr: string)

  /** `{minutes_content, generated_title}`. */
  datatype AiResponse = AiResponse(minutesContent: string, generatedTitle: string)

  /** The calls made and the outcome. */
  datatype AiRun = AiRun(calls: seq<AiCall>, result: Result<AiResponse>)

  /** The system prompt a provider sends with the minutes request. */
  function MinutesSystem(p: Provider, thinking: bool): seq<PromptPiece> {
    match p
    case Gemini => []
    case Claude => [MinutesInstructions] + (if thinking then [Lit(ThinkingSuffix)] else [])
    case OpenAi => [MinutesInstructions]
  }

  /** The minutes request. Gemini receives the instructions and the meeting
      prompt as one text. */
  function MinutesCall(p: Provider, model: Option<string>, thinking: bool, up: UserPrompt): AiCall {
    match p
    case Gemini => AiCall(Gemini, model, [], [MinutesInstructions, Lit(GeminiSeparator), MeetingPrompt(up)], None)
    case _ => AiCall(p, model, MinutesSystem(p, thinking), [MeetingPrompt(up)], Some(4000))
  }

  /** The title request. */
  function TitleCall(p: Provider, model: Option<string>, tp: TitlePrompt): AiCall {
    AiCall(p, model, [], [TitleRequest(tp)], if p == Gemini then None else Some(50))
  }

  /** The text taken from a reply: a reply without text gives its `str()`
      for Gemini and "" for the others. */
  function ReplyText(p: Provider, r: Reply): string {
    match r
    case Text(t) => t
    case NoText(repr) => if p == Gemini then repr else ""
  }

  /** One provider's `_generate_with_*`: speakers text, minutes request,
      title request, title clean-up; a raising call ends the run with its
      error unchanged. */
  function Generate(
    p: Provider, content: Json, title: Json, date: DateText, speakers: Json,
    model: Option<string>, thinking: bool,
    minutesReply: Result<Reply>, titleReply: Result<Reply>): (run: AiRun)
    ensures |run.calls| <= 2
    ensures forall i :: 0 <= i < |run.calls| ==> run.calls[i].provider == p
  {
    match SpeakersText(speakers)
    case Err(e) => AiRun([], Err(e))
    case Ok(st) =>
      var first := MinutesCall(p, model, thinking, UserPrompt(title, date, st, content));
      match minutesReply
      case Err(e) => AiRun([first], Err(e))
      case Ok(r1) =>
        var minutes := ReplyText(p, r1);
        var second := TitleCall(p, model, TitlePrompt(title, date, Excerpt(minutes)));
        match titleReply
        case Err(e) => AiRun([first, second], Err(e))
        case Ok(r2) => AiRun([first, second], Ok(AiResponse(minutes, TruncateTitle(ReplyText(p, r2)))))
  }

  /** `generate_minutes`. `len(content)` and `len(speakers)` are evaluated
      first and raise for values without a length; an unknown provider tag
      raises before any call. */
  function GenerateMinutes(
    content: Json, title: Json, creationTime: CreationTime, speakers: Json,
    providerTag: string, model: Option<string>, thinking: bool,
    parse: string -> Option<DateTime>,
    minutesReply: Result<Reply>, titleReply: Result<Reply>): (run: AiRun)
    ensures run.result.Ok? ==> |run.calls| == 2 && ParseProvider(providerTag).Some?
  {
    match Len(content)
    case Err(e) => AiRun([], Err(e))
    case Ok(_) =>
      match Len(speakers)
      case Err(e) => AiRun([], Err(e))
      case Ok(_) =>
        var date := FormatCreationTime(creationTime, parse);
        match ParseProvider(providerTag)
        case None => AiRun([], Err("不明なAIプロバイダー: " + providerTag))
        case Some(p) => Generate(p, content, title, date, speakers, model, thinking, minutesReply, titleReply)
  }

  /** Dispatch: an unknown tag raises `不明なAIプロバイダー: <tag>` with no
      call made; a known tag sends every call to that one provider, the
      minutes request first. */
  lemma GenerateMinutesDispatch(
    content: Json, title: Json, creationTime: CreationTime, speakers: Json,
    providerTag: string, model: Option<string>, thinking: bool,
    parse: string -> Option<DateTime>,
    minutesReply: Result<Reply>, titleReply: Result<Reply>)
    requires Len(content).Ok? && Len(speakers).Ok?
    ensures var run := GenerateMinutes(content, title, creationTime, speakers, providerTag, model, thinking,
                                       parse, minutesReply, titleReply);
      && (ParseProvider(providerTag).None? ==>
            run == AiRun([], Err("不明なAIプロバイダー: " + providerTag)))
      && (ParseProvider(providerTag).Some? ==>
            var p := ParseProvider(providerTag).value;
            && (forall i :: 0 <= i < |run.calls| ==> run.calls[i].provider == p)
            && (SpeakersText(speakers).Ok? <==> |run.calls| > 0)
            && (|run.calls| > 0 ==> run.calls[0] == MinutesCall(p, model, thinking,
                  UserPrompt(title, FormatCreationTime(creationTime, parse), SpeakersText(speakers).value, content))))
  {
  }

  /** A successful run: the minutes are the first reply's text, the title
      request shows at most its first 500 characters, and the title is at
      most 30 characters of the stripped second reply. */
  lemma GenerateMinutesSuccess(
    content: Json, title: Json, creationTime: CreationTime, speakers: Json,
    providerTag: string, model: Option<string>, thinking: bool,
    parse: string -> Option<DateTime>,
    minutesReply: Result<Reply>, titleReply: Result<Reply>)
    ensures var run := GenerateMinutes(content, title, creationTime, speakers, providerTag, model, thinking,
                                       parse, minutesReply, titleReply);
      run.result.Ok? ==>
        var p := ParseProvider(providerTag).value;
        var minutes := run.result.value.minutesContent;
        && minutesReply.Ok? && titleReply.Ok?
        && minutes == ReplyText(p, minutesReply.value)
        && run.calls[1] == TitleCall(p, model,
             TitlePrompt(title, FormatCreationTime(creationTime, parse), Excerpt(minutes)))
        && |run.calls[1].prompt[0].request.excerpt| <= 500
        && run.result.value.generatedTitle == TruncateTitle(ReplyText(p, titleReply.value))
        && |run.result.value.generatedTitle| <= 30
  {
    var run := GenerateMinutes(content, title, creationTime, speakers, providerTag, model, thinking,
                               parse, minutesReply, titleReply);
    if run.result.Ok? {
      var p := ParseProvider(providerTag).value;
      var date := FormatCreationTime(creationTime, parse);
      assert run == Generate(p, content, title, date, speakers, model, thinking, minutesReply, titleReply);
      var st := SpeakersText(speakers).value;
      var minutes := ReplyText(p, minutesReply.value);
      assert run.calls[1] == TitleCall(p, model, TitlePrompt(title, date, Excerpt(minutes)));
    }
  }

  /** A vendor error is re-raised unchanged: a failing minutes request ends
      the run after one call, a failing title request after two. */
  lemma GenerateMinutesVendorError(
    content: Json, title: Json, creationTime: CreationTime, speakers: Json,
    providerTag: string, model: Option<string>, thinking: bool,
    parse: string -> Option<DateTime>,
    minutesReply: Result<Reply>, titleReply: Result<Reply>)
    requires Len(content).Ok? && Len(speakers).Ok? && SpeakersText(speakers).Ok?
    requires ParseProvider(providerTag).Some?
    ensures var run := GenerateMinutes(content, title, creationTime, speakers, providerTag, model, thinking,
                                       parse, minutesReply, titleReply);
      && (minutesReply.Err? ==> |run.calls| == 1 && run.result == Err(minutesReply.error))
      && (minutesReply.Ok? && titleReply.Err? ==> |run.calls| == 2 && run.result == Err(titleReply.error))
  {
  }

  /** Claude's system prompt is the instructions, followed by the
      thinking-mode sentence exactly when thinking mode is on; the other
      providers never receive it. Gemini's one prompt puts the literal
      four characters `\n\n` between the instructions and the meeting. */
  lemma SystemPrompts(p: Provider, model: Option<string>, thinking: bool, up: UserPrompt)
    ensures var c := MinutesCall(p, model, thinking, up);
      && (p == Claude ==> c.system == (if thinking then [MinutesInstructions, Lit(ThinkingSuffix)] else [MinutesInstructions]))
      && (Lit(ThinkingSuffix) in c.system <==> p == Claude && thinking)
      && (p == Gemini ==> c.system == [] && c.prompt[1] == Lit(['\\', 'n', '\\', 'n']))
  {
  }
}
