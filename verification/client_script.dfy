/** The two text helpers of the browser script: `truncateText` and
    `formatDate`. A JavaScript string argument is `Some(s)`; `undefined`
    and `null` are `None`. Date parsing and locale rendering are a
    parameter that may fail. */
module ClientScript {
  import opened Wrappers

  const DefaultMaxLength: int := 50
  const Ellipsis: string := "..."

  function Max(a: int, b: int): int {
    if a >= b then a else b
  }

  /** JavaScript's `s.substring(0, end)`: `end` is clamped to the string. */
  function Prefix(s: string, end: int): (r: string)
    ensures r <= s
    ensures |r| == if end <= 0 then 0 else if end >= |s| then |s| else end
  {
    if end <= 0 then "" else if end >= |s| then s else s[..end]
  }

  /** `truncateText(text, maxLength = 50)`: falsy text gives '', text no
      longer than `maxLength` is returned as it is, and longer text is cut
      to its first `maxLength` characters followed by '...'. */
  function TruncateText(text: Option<string>, maxLength: Option<int>): (r: string)
    ensures r == "" <==> text.None? || text == Some("")
  {
    match text
    case None => ""
    case Some(t) =>
      if t == "" then ""
      else
        var m := maxLength.GetOr(DefaultMaxLength);
        if |t| <= m then t else Prefix(t, m) + Ellipsis
  }

  /** A truncated text is the start of the text, then '...': exactly
      `maxLength + 3` characters for a non-negative `maxLength`. Short
      text comes back unchanged, so truncating it again changes nothing. */
  lemma TruncateTextShape(t: string, maxLength: Option<int>)
    requires t != ""
    ensures var m := maxLength.GetOr(DefaultMaxLength);
      var r := TruncateText(Some(t), maxLength);
      && (|t| <= m ==> r == t && TruncateText(Some(r), maxLength) == r)
      && (|t| > m ==>
            && |r| == Max(m, 0) + |Ellipsis|
            && r[..Max(m, 0)] == t[..Max(m, 0)]
            && r[Max(m, 0)..] == Ellipsis)
  {
    var m := maxLength.GetOr(DefaultMaxLength);
    var r := TruncateText(Some(t), maxLength);
    if |t| > m {
      var p := Prefix(t, m);
      assert r == p + Ellipsis;
      assert |p| == Max(m, 0);
      assert r[..|p|] == p;
    }
  }

  /** Without `maxLength` the cut is at 50 characters. */
  lemma TruncateTextDefault(t: string)
    requires |t| > 50
    ensures TruncateText(Some(t), None) == t[..50] + Ellipsis
  {
  }

  /** `formatDate`: falsy input gives ''; a string that does not parse as
      a date is returned unchanged; otherwise its `ja-JP` rendering. */
  function FormatDate(s: Option<string>, render: string -> Option<string>): (r: string)
    ensures s.None? || s == Some("") ==> r == ""
    ensures s.Some? && s.value != "" && render(s.value).None? ==> r == s.value
  {
    match s
    case None => ""
    case Some(d) =>
      if d == "" then ""
      else match render(d)
        case None => d
        case Some(local) => local
  }

  /** `formatDate` invents nothing: its result is empty, the input, or the
      input's rendering. */
  lemma FormatDateSources(s: Option<string>, render: string -> Option<string>)
    ensures var r := FormatDate(s, render);
      r == "" || (s.Some? && (r == s.value || render(s.value) == Some(r)))
  {
  }
}
