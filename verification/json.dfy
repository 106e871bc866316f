/** The JSON text the application stores in `MinutesHistory.raw_data`:
    Python's `json.dumps` with its defaults (`ensure_ascii=True`, item
    separator `", "`, key separator `": "`) and `json.loads` in strict mode.
    Floating-point numbers (and `NaN`/`Infinity`) are not represented, so
    the decoder rejects them, and so it does lone surrogate escapes, which a
    string of Unicode scalar values cannot hold. */
module Json {
  import opened Text
  import opened Wrappers

  /** A decoded JSON value. Objects keep their members in text order. */
  datatype Json =
    | JNull
    | JBool(b: bool)
    | JInt(i: int)
    | JString(s: string)
    | JArray(items: seq<Json>)
    | JObject(members: seq<Member>)

  datatype Member = Member(key: string, value: Json)

  /* ---------------- encoding (json.dumps) ---------------- */

  /** Every character is 7-bit ASCII. */
  predicate Ascii(s: string) {
    forall i :: 0 <= i < |s| ==> s[i] as int < 0x80
  }

  function HexDigit(d: nat): (c: char)
    requires d < 16
    ensures c as int < 0x80
  {
    if d < 10 then ('0' as int + d) as char else ('a' as int + d - 10) as char
  }

  /** Four lower-case hex digits, as `'\\u{0:04x}'` writes them. */
  function Hex4(n: nat): (r: string)
    requires n < 0x10000
    ensures |r| == 4
  {
    var q1 := n / 16;
    var q2 := q1 / 16;
    [HexDigit(q2 / 16), HexDigit(q2 % 16), HexDigit(q1 % 16), HexDigit(n % 16)]
  }

  /** The escape `ensure_ascii` writes for one character: the short escapes
      for quote, backslash and five control characters, the character itself
      when it is printable ASCII, otherwise `\uXXXX`, as a UTF-16 surrogate
      pair beyond the Basic Multilingual Plane. */
  function EscapeChar(c: char): (r: string)
    ensures |r| >= 1
  {
    if c == '"' then "\\\""
    else if c == '\\' then "\\\\"
    else if c == '\n' then "\\n"
    else if c == '\r' then "\\r"
    else if c == '\t' then "\\t"
    else if c == '\U{8}' then "\\b"
    else if c == '\U{C}' then "\\f"
    else if ' ' <= c <= '~' then [c]
    else if c as int < 0x10000 then "\\u" + Hex4(c as int)
    else
      var n := c as int - 0x10000;
      "\\u" + Hex4(0xD800 + n / 0x400) + "\\u" + Hex4(0xDC00 + n % 0x400)
  }

  function Escape(s: string): string {
    if |s| == 0 then "" else EscapeChar(s[0]) + Escape(s[1..])
  }

  /** A JSON string literal. */
  function Quote(s: string): string {
    "\"" + Escape(s) + "\""
  }

  /** Python's `json.dumps(v)`. The first character tells the kind of
      value: a quote for a string, a bracket for an array, a brace for an
      object, a digit or a minus sign for an integer. */
  function Dumps(v: Json): (r: string)
    ensures |r| > 0
    ensures v.JString? <==> r[0] == '"'
    ensures v.JArray? <==> r[0] == '['
    ensures v.JObject? <==> r[0] == '{'
    ensures v.JInt? <==> r[0] == '-' || IsDigit(r[0])
    decreases v
  {
    match v
    case JNull => "null"
    case JBool(b) => if b then "true" else "false"
    case JInt(i) => IntToString(i)
    case JString(s) => Quote(s)
    case JArray(items) => "[" + DumpItems(items) + "]"
    case JObject(members) => "{" + DumpMembers(members) + "}"
  }

  function DumpItems(items: seq<Json>): string
    decreases items
  {
    if |items| == 0 then ""
    else if |items| == 1 then Dumps(items[0])
    else Dumps(items[0]) + ", " + DumpItems(items[1..])
  }

  function DumpMember(m: Member): string
    decreases m
  {
    Quote(m.key) + ": " + Dumps(m.value)
  }

  function DumpMembers(members: seq<Member>): string
    decreases members
  {
    if |members| == 0 then ""
    else if |members| == 1 then DumpMember(members[0])
    else DumpMember(members[0]) + ", " + DumpMembers(members[1..])
  }

  /** Joining ASCII texts gives ASCII text. */
  lemma AsciiConcat(a: string, b: string)
    requires Ascii(a) && Ascii(b)
    ensures Ascii(a + b)
  {
    forall i | 0 <= i < |a + b|
      ensures (a + b)[i] as int < 0x80
    {
      if i >= |a| {
        assert (a + b)[i] == b[i - |a|];
      }
    }
  }

  lemma EscapeCharAscii(c: char)
    ensures Ascii(EscapeChar(c))
  {
  }

  /** `ensure_ascii`: every escape is ASCII, whatever the string holds. */
  lemma {:induction false} EscapeAscii(s: string)
    ensures Ascii(Escape(s))
  {
    if |s| > 0 {
      EscapeCharAscii(s[0]);
      EscapeAscii(s[1..]);
      AsciiConcat(EscapeChar(s[0]), Escape(s[1..]));
    }
  }

  /** With `ensure_ascii`, the encoding of any value is pure ASCII. */
  lemma {:induction false} DumpsAscii(v: Json)
    ensures Ascii(Dumps(v))
    decreases v, 1
  {
    match v
    case JInt(i) =>
    case JString(t) =>
      EscapeAscii(t);
      AsciiConcat("\"", Escape(t));
      AsciiConcat("\"" + Escape(t), "\"");
    case JArray(items) =>
      ItemsAscii(items);
      AsciiConcat("[", DumpItems(items));
      AsciiConcat("[" + DumpItems(items), "]");
    case JObject(members) =>
      MembersAscii(members);
      AsciiConcat("{", DumpMembers(members));
      AsciiConcat("{" + DumpMembers(members), "}");
    case _ =>
  }

  lemma {:induction false} ItemsAscii(items: seq<Json>)
    ensures Ascii(DumpItems(items))
    decreases items, 0
  {
    if |items| > 0 {
      DumpsAscii(items[0]);
      if |items| > 1 {
        ItemsAscii(items[1..]);
        AsciiConcat(Dumps(items[0]), ", ");
        AsciiConcat(Dumps(items[0]) + ", ", DumpItems(items[1..]));
      }
    }
  }

  lemma {:induction false} MemberAscii(m: Member)
    ensures Ascii(DumpMember(m))
    decreases m, 0
  {
    EscapeAscii(m.key);
    DumpsAscii(m.value);
    AsciiConcat("\"", Escape(m.key));
    AsciiConcat("\"" + Escape(m.key), "\"");
    AsciiConcat("\"" + Escape(m.key) + "\"", ": ");
    AsciiConcat("\"" + Escape(m.key) + "\"" + ": ", Dumps(m.value));
  }

  lemma {:induction false} MembersAscii(members: seq<Member>)
    ensures Ascii(DumpMembers(members))
    decreases members, 1
  {
    if |members| > 0 {
      MemberAscii(members[0]);
      if |members| > 1 {
        MembersAscii(members[1..]);
        AsciiConcat(DumpMember(members[0]), ", ");
        AsciiConcat(DumpMember(members[0]) + ", ", DumpMembers(members[1..]));
      }
    }
  }

  /* ---------------- decoding (json.loads) ---------------- */

  /** The whitespace JSON allows between tokens. */
  predicate IsJsonSpace(c: char) {
    c == ' ' || c == '\t' || c == '\n' || c == '\r'
  }

  function SkipWs(s: string): (r: string)
    ensures |r| <= |s|
    ensures |r| > 0 ==> !IsJsonSpace(r[0])
  {
    if |s| > 0 && IsJsonSpace(s[0]) then SkipWs(s[1..]) else s
  }

  predicate IsHexDigit(c: char) {
    ('0' <= c <= '9') || ('a' <= c <= 'f') || ('A' <= c <= 'F')
  }

  function HexDigitValue(c: char): (d: nat)
    requires IsHexDigit(c)
    ensures d < 16
  {
    if '0' <= c <= '9' then c as int - '0' as int
    else if 'a' <= c <= 'f' then c as int - 'a' as int + 10
    else c as int - 'A' as int + 10
  }

  /** The value of four hex digits at the start of `s`, if they are there. */
  function ReadHex4(s: string): (r: Option<nat>)
    ensures r.Some? ==> r.value < 0x10000
  {
    if |s| >= 4 && IsHexDigit(s[0]) && IsHexDigit(s[1]) && IsHexDigit(s[2]) && IsHexDigit(s[3])
    then Some(((HexDigitValue(s[0]) * 16 + HexDigitValue(s[1])) * 16
               + HexDigitValue(s[2])) * 16 + HexDigitValue(s[3]))
    else None
  }

  predicate IsHighSurrogate(n: int) { 0xD800 <= n <= 0xDBFF }
  predicate IsLowSurrogate(n: int) { 0xDC00 <= n <= 0xDFFF }

  /** The character an escape denotes, `s` being the text after the backslash. */
  function ParseEscape(s: string): (r: Option<(char, string)>)
    ensures r.Some? ==> |r.value.1| < |s|
  {
    if |s| == 0 then None
    else if s[0] == '"' then Some(('"', s[1..]))
    else if s[0] == '\\' then Some(('\\', s[1..]))
    else if s[0] == '/' then Some(('/', s[1..]))
    else if s[0] == 'b' then Some(('\U{8}', s[1..]))
    else if s[0] == 'f' then Some(('\U{C}', s[1..]))
    else if s[0] == 'n' then Some(('\n', s[1..]))
    else if s[0] == 'r' then Some(('\r', s[1..]))
    else if s[0] == 't' then Some(('\t', s[1..]))
    else if s[0] == 'u' then ParseUnicodeEscape(s[1..])
    else None
  }

  /** The character a `\uXXXX` escape denotes, `s` being the text after `\u`;
      a high surrogate must be followed by an escaped low surrogate. */
  function ParseUnicodeEscape(s: string): (r: Option<(char, string)>)
    ensures r.Some? ==> |r.value.1| < |s|
  {
    match ReadHex4(s)
    case None => None
    case Some(h) =>
      if IsHighSurrogate(h) then ParseLowSurrogate(h, s[4..])
      else if IsLowSurrogate(h) then None
      else Some((h as char, s[4..]))
  }

  /** The second half of a surrogate pair, `s` being the text after the first. */
  function ParseLowSurrogate(h: int, s: string): (r: Option<(char, string)>)
    requires IsHighSurrogate(h)
    ensures r.Some? ==> |r.value.1| < |s|
  {
    if |s| >= 2 && s[0] == '\\' && s[1] == 'u' then
      match ReadHex4(s[2..])
      case Some(l) =>
        if IsLowSurrogate(l) then Some((CombineSurrogates(h, l) as char, s[6..])) else None
      case None => None
    else None
  }

  /** The code point a surrogate pair encodes. */
  function CombineSurrogates(h: int, l: int): (c: int)
    requires IsHighSurrogate(h) && IsLowSurrogate(l)
    ensures 0x10000 <= c < 0x110000
  {
    0x10000 + (h - 0xD800) * 0x400 + (l - 0xDC00)
  }

  /** The body of a string literal, `s` being the text after the opening
      quote; raw control characters are refused, as in strict mode. */
  function ParseStringBody(s: string): (r: Option<(string, string)>)
    ensures r.Some? ==> |r.value.1| < |s|
    decreases |s|
  {
    if |s| == 0 then None
    else if s[0] == '"' then Some(("", s[1..]))
    else if s[0] == '\\' then
      match ParseEscape(s[1..])
      case None => None
      case Some((c, rest)) =>
        match ParseStringBody(rest)
        case None => None
        case Some((t, rest')) => Some(([c] + t, rest'))
    else if s[0] < ' ' then None
    else
      match ParseStringBody(s[1..])
      case None => None
      case Some((t, rest')) => Some(([s[0]] + t, rest'))
  }

  /** The longest run of digits at the start of `s`. */
  function DigitRun(s: string): (n: nat)
    ensures n <= |s|
    ensures forall i :: 0 <= i < n ==> IsDigit(s[i])
    ensures n < |s| ==> !IsDigit(s[n])
  {
    if |s| > 0 && IsDigit(s[0]) then 1 + DigitRun(s[1..]) else 0
  }

  /** A natural number at the start of `t`: `0`, or a digit run not
      starting with `0`. */
  function ParseNat(t: string): (r: (nat, string))
    requires |t| > 0 && IsDigit(t[0])
    ensures |r.1| < |t|
  {
    var n := if t[0] == '0' then 1 else DigitRun(t);
    (DigitsValue(t[..n]), t[n..])
  }

  /** An integer: an optional minus sign, then a natural number. */
  function ParseInt(s: string): (r: Option<(Json, string)>)
    ensures r.Some? ==> |r.value.1| < |s|
  {
    var neg := |s| > 0 && s[0] == '-';
    var t := if neg then s[1..] else s;
    if |t| == 0 || !IsDigit(t[0]) then None
    else
      var (m, rest) := ParseNat(t);
      Some((JInt(if neg then -(m as int) else m), rest))
  }

  /** One value at the start of `s` (no leading whitespace), and the text after it. */
  function ParseValue(s: string): (r: Option<(Json, string)>)
    ensures r.Some? ==> |r.value.1| < |s|
    decreases |s|, 0
  {
    if |s| == 0 then None
    else if s[0] == '"' then
      match ParseStringBody(s[1..])
      case None => None
      case Some((t, rest)) => Some((JString(t), rest))
    else if s[0] == '[' then ParseArray(s[1..])
    else if s[0] == '{' then ParseObject(s[1..])
    else if s[0] == 'n' then (if |s| >= 4 && s[..4] == "null" then Some((JNull, s[4..])) else None)
    else if s[0] == 't' then (if |s| >= 4 && s[..4] == "true" then Some((JBool(true), s[4..])) else None)
    else if s[0] == 'f' then (if |s| >= 5 && s[..5] == "false" then Some((JBool(false), s[5..])) else None)
    else if s[0] == '-' || IsDigit(s[0]) then ParseInt(s)
    else None
  }

  /** An array, `s` being the text after `[`. */
  function ParseArray(s: string): (r: Option<(Json, string)>)
    ensures r.Some? ==> |r.value.1| < |s| && r.value.0.JArray?
    decreases |s|, 3
  {
    var t := SkipWs(s);
    if |t| > 0 && t[0] == ']' then Some((JArray([]), t[1..]))
    else
      match ParseItems(t)
      case None => None
      case Some((items, rest)) => Some((JArray(items), rest))
  }

  /** One or more comma-separated values and the closing `]`. */
  function ParseItems(s: string): (r: Option<(seq<Json>, string)>)
    ensures r.Some? ==> |r.value.1| < |s|
    decreases |s|, 1
  {
    match ParseValue(s)
    case None => None
    case Some((v, rest)) =>
      var t := SkipWs(rest);
      if |t| == 0 then None
      else if t[0] == ']' then Some(([v], t[1..]))
      else if t[0] == ',' then
        match ParseItems(SkipWs(t[1..]))
        case None => None
        case Some((vs, rest')) => Some(([v] + vs, rest'))
      else None
  }

  /** An object, `s` being the text after `{`. */
  function ParseObject(s: string): (r: Option<(Json, string)>)
    ensures r.Some? ==> |r.value.1| < |s| && r.value.0.JObject?
    decreases |s|, 3
  {
    var t := SkipWs(s);
    if |t| > 0 && t[0] == '}' then Some((JObject([]), t[1..]))
    else
      match ParseMembers(t)
      case None => None
      case Some((ms, rest)) => Some((JObject(ms), rest))
  }

  /** One `"key": value` member, `s` starting at its opening quote. */
  function ParseMember(s: string): (r: Option<(Member, string)>)
    ensures r.Some? ==> |r.value.1| < |s|
    decreases |s|, 1
  {
    if |s| == 0 || s[0] != '"' then None
    else match ParseStringBody(s[1..])
      case None => None
      case Some((key, r1)) =>
        var t := SkipWs(r1);
        if |t| == 0 || t[0] != ':' then None
        else match ParseValue(SkipWs(t[1..]))
          case None => None
          case Some((v, r2)) => Some((Member(key, v), r2))
  }

  /** One or more comma-separated members and the closing `}`. */
  function ParseMembers(s: string): (r: Option<(seq<Member>, string)>)
    ensures r.Some? ==> |r.value.1| < |s|
    decreases |s|, 2
  {
    match ParseMember(s)
    case None => None
    case Some((m, rest)) =>
      var t := SkipWs(rest);
      if |t| == 0 then None
      else if t[0] == '}' then Some(([m], t[1..]))
      else if t[0] == ',' then
        match ParseMembers(SkipWs(t[1..]))
        case None => None
        case Some((ms, rest')) => Some(([m] + ms, rest'))
      else None
  }

  /** Python's `json.loads(s)`; `None` where it raises `JSONDecodeError`
      (or would produce a float). Whitespace-only text is not JSON, and the
      first character after leading whitespace tells the kind of value. */
  function Loads(s: string): (r: Option<Json>)
    ensures r.Some? ==> |SkipWs(s)| > 0
    ensures r.Some? ==> (r.value.JString? <==> SkipWs(s)[0] == '"')
    ensures r.Some? ==> (r.value.JArray? <==> SkipWs(s)[0] == '[')
    ensures r.Some? ==> (r.value.JObject? <==> SkipWs(s)[0] == '{')
  {
    match ParseValue(SkipWs(s))
    case None => None
    case Some((v, rest)) => if SkipWs(rest) == "" then Some(v) else None
  }

  /* ---------------- round trip ---------------- */

  lemma HexDigitRoundTrip(d: nat)
    requires d < 16
    ensures IsHexDigit(HexDigit(d)) && HexDigitValue(HexDigit(d)) == d
  {
  }

  lemma Hex4RoundTrip(n: nat, tail: string)
    requires n < 0x10000
    ensures ReadHex4(Hex4(n) + tail) == Some(n)
  {
    var s := Hex4(n) + tail;
    var q1 := n / 16;
    var q2 := q1 / 16;
    HexDigitRoundTrip(q2 / 16);
    HexDigitRoundTrip(q2 % 16);
    HexDigitRoundTrip(q1 % 16);
    HexDigitRoundTrip(n % 16);
    assert s[0] == HexDigit(q2 / 16) && s[1] == HexDigit(q2 % 16);
    assert s[2] == HexDigit(q1 % 16) && s[3] == HexDigit(n % 16);
  }

  /** A character of the Basic Multilingual Plane escaped as `\uXXXX`, read back. */
  lemma BmpEscapeRoundTrip(c: char, tail: string)
    requires c as int < 0x10000
    ensures ParseUnicodeEscape(Hex4(c as int) + tail) == Some((c, tail))
  {
    Hex4RoundTrip(c as int, tail);
    assert (Hex4(c as int) + tail)[4..] == tail;
  }

  /** The UTF-16 surrogate pair of a character beyond the Basic Multilingual
      Plane, `n` being its offset from `0x10000`, recombines to the character. */
  lemma SurrogatePair(n: int)
    requires 0 <= n < 0x100000
    ensures IsHighSurrogate(0xD800 + n / 0x400) && IsLowSurrogate(0xDC00 + n % 0x400)
    ensures CombineSurrogates(0xD800 + n / 0x400, 0xDC00 + n % 0x400) == 0x10000 + n
  {
  }

  /** A surrogate pair written as two `\uXXXX` escapes, read back. */
  lemma PairEscapeRoundTrip(hi: nat, lo: nat, tail: string)
    requires IsHighSurrogate(hi) && IsLowSurrogate(lo)
    ensures ParseUnicodeEscape(Hex4(hi) + ("\\u" + Hex4(lo) + tail))
      == Some((CombineSurrogates(hi, lo) as char, tail))
  {
    var low := "\\u" + Hex4(lo) + tail;
    Hex4RoundTrip(hi, low);
    assert (Hex4(hi) + low)[4..] == low;
    Hex4RoundTrip(lo, tail);
    assert low[2..] == Hex4(lo) + tail;
    assert low[6..] == tail;
    assert ParseLowSurrogate(hi, low) == Some((CombineSurrogates(hi, lo) as char, tail));
  }

  /** A character beyond the Basic Multilingual Plane escaped as a surrogate pair, read back. */
  lemma AstralEscapeRoundTrip(c: char, tail: string)
    requires c as int >= 0x10000
    ensures var n := c as int - 0x10000;
      ParseUnicodeEscape(Hex4(0xD800 + n / 0x400) + "\\u" + Hex4(0xDC00 + n % 0x400) + tail) == Some((c, tail))
  {
    var n := c as int - 0x10000;
    SurrogatePair(n);
    var hi, lo := 0xD800 + n / 0x400, 0xDC00 + n % 0x400;
    PairEscapeRoundTrip(hi, lo, tail);
    assert (c as int) as char == c;
    assert Hex4(hi) + "\\u" + Hex4(lo) + tail == Hex4(hi) + ("\\u" + Hex4(lo) + tail);
  }

  /** A character escaped with `\u`, read back. */
  lemma UnicodeEscapeRoundTrip(c: char, tail: string)
    requires !(' ' <= c <= '~')
    requires c != '\n' && c != '\r' && c != '\t' && c != '\U{8}' && c != '\U{C}'
    ensures ParseEscape(EscapeChar(c)[1..] + tail) == Some((c, tail))
  {
    if c as int < 0x10000 {
      var body := Hex4(c as int) + tail;
      BmpEscapeText(c, tail);
      BmpEscapeRoundTrip(c, tail);
      UnicodeEscapeOf(body);
    } else {
      var n := c as int - 0x10000;
      var body := Hex4(0xD800 + n / 0x400) + "\\u" + Hex4(0xDC00 + n % 0x400) + tail;
      AstralEscapeText(c, tail);
      AstralEscapeRoundTrip(c, tail);
      UnicodeEscapeOf(body);
    }
  }

  /** The text after the backslash of a `\uXXXX` escape. */
  lemma BmpEscapeText(c: char, tail: string)
    requires !(' ' <= c <= '~') && c as int < 0x10000
    requires c != '\n' && c != '\r' && c != '\t' && c != '\U{8}' && c != '\U{C}'
    ensures EscapeChar(c)[1..] + tail == "u" + (Hex4(c as int) + tail)
  {
    var x := "u" + Hex4(c as int);
    assert EscapeChar(c) == ['\\'] + x;
    AfterHead('\\', x, tail);
    Assoc("u", Hex4(c as int), tail);
  }

  /** The text after the first backslash of a surrogate-pair escape. */
  lemma AstralEscapeText(c: char, tail: string)
    requires c as int >= 0x10000
    ensures var n := c as int - 0x10000;
      EscapeChar(c)[1..] + tail == "u" + (Hex4(0xD800 + n / 0x400) + "\\u" + Hex4(0xDC00 + n % 0x400) + tail)
  {
    var n := c as int - 0x10000;
    EscapeAstral(c);
    PairText(Hex4(0xD800 + n / 0x400), Hex4(0xDC00 + n % 0x400), tail);
  }

  /** A character beyond the basic plane is escaped as a surrogate pair. */
  lemma EscapeAstral(c: char)
    requires c as int >= 0x10000
    ensures var n := c as int - 0x10000;
      EscapeChar(c) == "\\u" + Hex4(0xD800 + n / 0x400) + "\\u" + Hex4(0xDC00 + n % 0x400)
  {
  }

  /** The text after the first backslash of `\\u<a>\\u<b>`, then `tail`. */
  lemma PairText(a: string, b: string, tail: string)
    ensures ("\\u" + a + "\\u" + b)[1..] + tail == "u" + (a + "\\u" + b + tail)
  {
    var x := "u" + a + "\\u" + b;
    assert "\\u" + a + "\\u" + b == ['\\'] + x;
    AfterHead('\\', x, tail);
    Assoc("u", a, "\\u");
    Assoc("u", a + "\\u", b);
    Assoc("u", a + "\\u" + b, tail);
  }

  /** Dropping the first character of `[h] + x`, then appending `tail`. */
  lemma AfterHead(h: char, x: string, tail: string)
    ensures ([h] + x)[1..] + tail == x + tail
  {
    assert ([h] + x)[1..] == x;
  }

  /** `ParseEscape` on a `u` hands the rest to `ParseUnicodeEscape`. */
  lemma UnicodeEscapeOf(body: string)
    ensures ParseEscape("u" + body) == ParseUnicodeEscape(body)
  {
    assert ("u" + body)[1..] == body;
  }

  /** A short escape (`\"`, `\\`, `\n`, `\r`, `\t`, `\b`, `\f`), read back. */
  lemma ShortEscapeRoundTrip(c: char, tail: string)
    requires c == '"' || c == '\\' || c == '\n' || c == '\r' || c == '\t' || c == '\U{8}' || c == '\U{C}'
    ensures ParseEscape(EscapeChar(c)[1..] + tail) == Some((c, tail))
  {
    var e := EscapeChar(c);
    assert |e| == 2;
    assert (e[1..] + tail)[1..] == tail;
  }

  /** `ParseStringBody` on an unescaped character. */
  lemma StringBodyPlain(t: string, u: string, r: string)
    requires |t| > 0 && t[0] != '"' && t[0] != '\\' && t[0] >= ' '
    requires ParseStringBody(t[1..]) == Some((u, r))
    ensures ParseStringBody(t) == Some(([t[0]] + u, r))
  {
  }

  /** `ParseStringBody` on an escape sequence. */
  lemma StringBodyEscaped(t: string, c: char, after: string, u: string, r: string)
    requires |t| > 0 && t[0] == '\\'
    requires ParseEscape(t[1..]) == Some((c, after))
    requires ParseStringBody(after) == Some((u, r))
    ensures ParseStringBody(t) == Some(([c] + u, r))
  {
  }

  /** One escaped character in front of a readable body. */
  lemma EscapeCharRoundTrip(c: char, tail: string, u: string, r: string)
    requires ParseStringBody(tail) == Some((u, r))
    ensures ParseStringBody(EscapeChar(c) + tail) == Some(([c] + u, r))
  {
    var e := EscapeChar(c);
    var t := e + tail;
    if ' ' <= c <= '~' && c != '"' && c != '\\' {
      assert e == [c];
      assert t[0] == c && t[1..] == tail;
      StringBodyPlain(t, u, r);
    } else {
      assert e[0] == '\\';
      assert t[0] == '\\' && t[1..] == e[1..] + tail;
      if c == '"' || c == '\\' || c == '\n' || c == '\r' || c == '\t' || c == '\U{8}' || c == '\U{C}' {
        ShortEscapeRoundTrip(c, tail);
      } else {
        UnicodeEscapeRoundTrip(c, tail);
      }
      StringBodyEscaped(t, c, tail, u, r);
    }
  }

  /** Decoding an escaped body followed by the closing quote gives back the string. */
  lemma {:induction false} EscapeRoundTrip(s: string, rest: string)
    ensures ParseStringBody(Escape(s) + "\"" + rest) == Some((s, rest))
  {
    var t := Escape(s) + "\"" + rest;
    if |s| == 0 {
      assert t == "\"" + rest;
      assert t[1..] == rest;
    } else {
      var tail := Escape(s[1..]) + "\"" + rest;
      assert t == EscapeChar(s[0]) + tail by {
        assert Escape(s) == EscapeChar(s[0]) + Escape(s[1..]);
      }
      EscapeRoundTrip(s[1..], rest);
      EscapeCharRoundTrip(s[0], tail, s[1..], rest);
      assert [s[0]] + s[1..] == s;
    }
  }

  /** What may follow an encoded value without changing how it decodes: a
      digit would extend a number. */
  predicate SafeFollower(rest: string) {
    |rest| == 0 || !IsDigit(rest[0])
  }

  /** Every encoding starts with a character that is not whitespace. */
  lemma DumpsStart(v: Json)
    ensures |Dumps(v)| > 0 && !IsJsonSpace(Dumps(v)[0])
  {
    match v
    case JInt(i) =>
      assert IsDigit(NatDigits(if i < 0 then -i else i)[0]);
    case _ =>
  }

  /** Reading the digits of `m` followed by a non-digit. */
  lemma NatRoundTrip(m: nat, rest: string)
    requires SafeFollower(rest)
    ensures var t := NatDigits(m) + rest;
      IsDigit(t[0]) && ParseNat(t) == (m, rest)
  {
    var d := NatDigits(m);
    var t := d + rest;
    NatDigitsValue(m);
    if m < 10 {
      assert t[..1] == d;
    } else {
      DigitRunPrefix(d, rest);
      assert t[..|d|] == d;
    }
  }

  lemma IntRoundTrip(i: int, rest: string)
    requires SafeFollower(rest)
    ensures ParseValue(IntToString(i) + rest) == Some((JInt(i), rest))
  {
    var s := IntToString(i) + rest;
    calc {
      ParseValue(s);
      { IntOf(i, rest); ValueOfNumber(s); }
      ParseInt(s);
      { IntOf(i, rest); }
      Some((JInt(i), rest));
    }
  }

  /** A minus sign or a digit starts a number. */
  lemma ValueOfNumber(s: string)
    requires |s| > 0 && (s[0] == '-' || IsDigit(s[0]))
    ensures ParseValue(s) == ParseInt(s)
  {
    assert s[0] != '"' && s[0] != '[' && s[0] != '{' && s[0] != 'n' && s[0] != 't' && s[0] != 'f';
  }

  /** `ParseInt` reads back the decimal text of `i`, which starts with a
      minus sign or a digit. */
  lemma IntOf(i: int, rest: string)
    requires SafeFollower(rest)
    ensures var s := IntToString(i) + rest;
      |s| > 0 && (s[0] == '-' || IsDigit(s[0])) && ParseInt(s) == Some((JInt(i), rest))
  {
    if i < 0 {
      MinusOf(-i, rest);
    } else {
      DigitsOf(i, rest);
    }
  }

  /** The non-negative case of `IntOf`: the digits of `m` alone. */
  lemma DigitsOf(m: nat, rest: string)
    requires SafeFollower(rest)
    ensures var s := NatDigits(m) + rest;
      |s| > 0 && IsDigit(s[0]) && ParseInt(s) == Some((JInt(m), rest))
  {
    NatRoundTrip(m, rest);
    PositiveInt(NatDigits(m) + rest, m, rest);
  }

  /** The negative case of `IntOf`: a minus sign, then the digits of `m`. */
  lemma MinusOf(m: nat, rest: string)
    requires SafeFollower(rest)
    ensures var s := "-" + NatDigits(m) + rest;
      |s| > 1 && s[0] == '-' && ParseInt(s) == Some((JInt(-(m as int)), rest))
  {
    var s := "-" + NatDigits(m) + rest;
    var t := NatDigits(m) + rest;
    NatRoundTrip(m, rest);
    Assoc("-", NatDigits(m), rest);
    assert s[1..] == t;
    NegativeInt(s, m, rest);
  }

  lemma NegativeInt(s: string, m: nat, rest: string)
    requires |s| > 1 && s[0] == '-' && IsDigit(s[1]) && ParseNat(s[1..]) == (m, rest)
    ensures ParseInt(s) == Some((JInt(-(m as int)), rest))
  {
  }

  lemma PositiveInt(s: string, m: nat, rest: string)
    requires |s| > 0 && s[0] != '-' && IsDigit(s[0]) && ParseNat(s) == (m, rest)
    ensures ParseInt(s) == Some((JInt(m), rest))
  {
  }

  /** The digit run of digits followed by a non-digit is exactly those digits. */
  lemma {:induction false} DigitRunPrefix(d: string, rest: string)
    requires forall i :: 0 <= i < |d| ==> IsDigit(d[i])
    requires SafeFollower(rest)
    ensures DigitRun(d + rest) == |d|
  {
    if |d| > 0 {
      DigitRunPrefix(d[1..], rest);
      assert (d + rest)[1..] == d[1..] + rest;
    } else {
      assert d + rest == rest;
    }
  }

  /** Decoding the encoding of `v` followed by `rest` gives back `v` and `rest`. */
  lemma {:induction false} ValueRoundTrip(v: Json, rest: string)
    requires SafeFollower(rest)
    ensures ParseValue(Dumps(v) + rest) == Some((v, rest))
    decreases v, 1
  {
    match v
    case JNull => LiteralRoundTrip(v, rest);
    case JBool(_) => LiteralRoundTrip(v, rest);
    case JInt(i) =>
      IntRoundTrip(i, rest);
    case JString(t) =>
      StringRoundTrip(t, rest);
    case JArray(items) =>
      ArrayRoundTrip(items, rest);
    case JObject(members) =>
      ObjectRoundTrip(members, rest);
  }

  /** `null`, `true` and `false` read back. */
  lemma LiteralRoundTrip(v: Json, rest: string)
    requires v.JNull? || v.JBool?
    requires SafeFollower(rest)
    ensures ParseValue(Dumps(v) + rest) == Some((v, rest))
  {
    var s := Dumps(v) + rest;
    if v.JNull? {
      assert s[..4] == "null" && s[4..] == rest;
    } else if v.b {
      assert s[..4] == "true" && s[4..] == rest;
    } else {
      assert s[..5] == "false" && s[5..] == rest;
    }
  }

  /** An encoded string read back. */
  lemma StringRoundTrip(t: string, rest: string)
    ensures ParseValue(Dumps(JString(t)) + rest) == Some((JString(t), rest))
  {
    var s := Dumps(JString(t)) + rest;
    assert s == "\"" + (Escape(t) + "\"" + rest);
    EscapeRoundTrip(t, rest);
  }

  /** `[` hands over to the array parser. */
  lemma ValueOpensArray(body: string)
    ensures ParseValue("[" + body) == ParseArray(body)
  {
    assert ("[" + body)[1..] == body;
  }

  /** `{` hands over to the object parser. */
  lemma ValueOpensObject(body: string)
    ensures ParseValue("{" + body) == ParseObject(body)
  {
    assert ("{" + body)[1..] == body;
  }

  /** Text that starts with a non-space character is left as it is. */
  lemma SkipWsNone(s: string)
    requires |s| > 0 && !IsJsonSpace(s[0])
    ensures SkipWs(s) == s
  {
  }

  lemma {:induction false} ArrayRoundTrip(items: seq<Json>, rest: string)
    requires SafeFollower(rest)
    ensures ParseValue(Dumps(JArray(items)) + rest) == Some((JArray(items), rest))
    decreases items, 2
  {
    var body := DumpItems(items) + "]" + rest;
    calc {
      ParseValue(Dumps(JArray(items)) + rest);
      { assert Dumps(JArray(items)) + rest == "[" + body; }
      ParseValue("[" + body);
      { ValueOpensArray(body); }
      ParseArray(body);
      { ArrayBodyRoundTrip(items, rest); }
      Some((JArray(items), rest));
    }
  }

  /** The text after `[` read back as the array. */
  lemma {:induction false} ArrayBodyRoundTrip(items: seq<Json>, rest: string)
    ensures ParseArray(DumpItems(items) + "]" + rest) == Some((JArray(items), rest))
    decreases items, 1
  {
    var body := DumpItems(items) + "]" + rest;
    if |items| == 0 {
      assert body == "]" + rest;
      SkipWsNone(body);
      assert body[1..] == rest;
    } else {
      DumpsStart(items[0]);
      assert body[0] == Dumps(items[0])[0];
      SkipWsNone(body);
      ItemsRoundTrip(items, rest);
    }
  }

  lemma {:induction false} ObjectRoundTrip(members: seq<Member>, rest: string)
    requires SafeFollower(rest)
    ensures ParseValue(Dumps(JObject(members)) + rest) == Some((JObject(members), rest))
    decreases members, 3
  {
    var body := DumpMembers(members) + "}" + rest;
    calc {
      ParseValue(Dumps(JObject(members)) + rest);
      { assert Dumps(JObject(members)) + rest == "{" + body; }
      ParseValue("{" + body);
      { ValueOpensObject(body); }
      ParseObject(body);
      { ObjectBodyRoundTrip(members, rest); }
      Some((JObject(members), rest));
    }
  }

  /** The text after `{` read back as the object. */
  lemma {:induction false} ObjectBodyRoundTrip(members: seq<Member>, rest: string)
    ensures ParseObject(DumpMembers(members) + "}" + rest) == Some((JObject(members), rest))
    decreases members, 2
  {
    var body := DumpMembers(members) + "}" + rest;
    if |members| == 0 {
      assert body == "}" + rest;
      SkipWsNone(body);
      assert body[1..] == rest;
    } else {
      MembersStart(members);
      assert body[0] == '"';
      SkipWsNone(body);
      MembersRoundTrip(members, rest);
    }
  }

  /** `, ` then a token: the separator is consumed up to the token. */
  lemma CommaThen(tail: string)
    requires |tail| > 0 && !IsJsonSpace(tail[0])
    ensures var t := SkipWs(", " + tail); |t| > 0 && t[0] == ',' && SkipWs(t[1..]) == tail
  {
    SkipWsNone(", " + tail);
    assert (", " + tail)[1..] == " " + tail;
    assert (" " + tail)[1..] == tail;
    SkipWsNone(tail);
  }

  /** A closing bracket or brace is its own token. */
  lemma CloserThen(c: char, rest: string)
    requires c == ']' || c == '}'
    ensures var t := SkipWs([c] + rest); |t| > 0 && t[0] == c && t[1..] == rest
  {
    SkipWsNone([c] + rest);
    assert ([c] + rest)[1..] == rest;
  }

  /** `ParseItems` on the last item. */
  lemma ItemsLast(s: string, v: Json, r1: string, rest: string)
    requires ParseValue(s) == Some((v, r1))
    requires var t := SkipWs(r1); |t| > 0 && t[0] == ']' && t[1..] == rest
    ensures ParseItems(s) == Some(([v], rest))
  {
  }

  /** `ParseItems` on an item followed by a comma and more items. */
  lemma ItemsMore(s: string, v: Json, r1: string, vs: seq<Json>, rest: string)
    requires ParseValue(s) == Some((v, r1))
    requires var t := SkipWs(r1); |t| > 0 && t[0] == ',' && ParseItems(SkipWs(t[1..])) == Some((vs, rest))
    ensures ParseItems(s) == Some(([v] + vs, rest))
  {
  }

  /** `ParseMembers` on the last member. */
  lemma MembersLast(s: string, m: Member, r1: string, rest: string)
    requires ParseMember(s) == Some((m, r1))
    requires var t := SkipWs(r1); |t| > 0 && t[0] == '}' && t[1..] == rest
    ensures ParseMembers(s) == Some(([m], rest))
  {
  }

  /** `ParseMembers` on a member followed by a comma and more members. */
  lemma MembersMore(s: string, m: Member, r1: string, ms: seq<Member>, rest: string)
    requires ParseMember(s) == Some((m, r1))
    requires var t := SkipWs(r1); |t| > 0 && t[0] == ',' && ParseMembers(SkipWs(t[1..])) == Some((ms, rest))
    ensures ParseMembers(s) == Some(([m] + ms, rest))
  {
  }

  /** `ParseMember` from its three parts: key, colon, value. */
  lemma MemberOf(s: string, key: string, r1: string, v: Json, r2: string)
    requires |s| > 0 && s[0] == '"'
    requires ParseStringBody(s[1..]) == Some((key, r1))
    requires var t := SkipWs(r1); |t| > 0 && t[0] == ':' && ParseValue(SkipWs(t[1..])) == Some((v, r2))
    ensures ParseMember(s) == Some((Member(key, v), r2))
  {
  }

  lemma {:induction false} ItemsRoundTrip(items: seq<Json>, rest: string)
    requires |items| > 0
    ensures ParseItems(DumpItems(items) + "]" + rest) == Some((items, rest))
    decreases items, 0
  {
    var s := DumpItems(items) + "]" + rest;
    if |items| == 1 {
      ItemsText(items, rest);
      ValueRoundTrip(items[0], "]" + rest);
      assert "]" + rest == [']'] + rest;
      CloserThen(']', rest);
      ItemsLast(s, items[0], "]" + rest, rest);
      assert [items[0]] == items;
    } else {
      var tail := DumpItems(items[1..]) + "]" + rest;
      ItemsText(items, rest);
      ValueRoundTrip(items[0], ", " + tail);
      DumpsStart(items[1]);
      assert tail[0] == Dumps(items[1])[0];
      CommaThen(tail);
      ItemsRoundTrip(items[1..], rest);
      ItemsMore(s, items[0], ", " + tail, items[1..], rest);
      assert [items[0]] + items[1..] == items;
    }
  }

  /** The encoding of items, split after the first. */
  lemma ItemsText(items: seq<Json>, rest: string)
    requires |items| > 0
    ensures |items| == 1 ==> DumpItems(items) + "]" + rest == Dumps(items[0]) + ("]" + rest)
    ensures |items| > 1 ==>
      DumpItems(items) + "]" + rest == Dumps(items[0]) + (", " + (DumpItems(items[1..]) + "]" + rest))
  {
    if |items| > 1 {
      assert DumpItems(items) == Dumps(items[0]) + ", " + DumpItems(items[1..]);
      RegroupRight(Dumps(items[0]), ", ", DumpItems(items[1..]), "]", rest);
    }
  }

  lemma MembersStart(members: seq<Member>)
    requires |members| > 0
    ensures |DumpMembers(members)| > 0 && DumpMembers(members)[0] == '"'
  {
    var q := Quote(members[0].key);
    var d := DumpMember(members[0]);
    assert q[0] == '"' by {
      assert q == ("\"" + Escape(members[0].key)) + "\"";
    }
    assert d[0] == '"' by {
      assert d == q + ": " + Dumps(members[0].value);
    }
    if |members| > 1 {
      assert DumpMembers(members) == d + ", " + DumpMembers(members[1..]);
    }
  }

  /** One encoded member read back, leaving what follows it. */
  lemma {:induction false} MemberRoundTrip(m: Member, after: string)
    requires SafeFollower(after)
    ensures ParseMember(DumpMember(m) + after) == Some((m, after))
    decreases m, 0
  {
    var valueText := Dumps(m.value) + after;
    var afterKey := ": " + valueText;
    var s := "\"" + (Escape(m.key) + "\"" + afterKey);
    MemberTextSplit(m, after);
    assert ParseStringBody(s[1..]) == Some((m.key, afterKey)) by {
      assert s[1..] == Escape(m.key) + "\"" + afterKey;
      EscapeRoundTrip(m.key, afterKey);
    }
    assert var t := SkipWs(afterKey); |t| > 0 && t[0] == ':' && ParseValue(SkipWs(t[1..])) == Some((m.value, after)) by {
      DumpsStart(m.value);
      ColonThen(valueText);
      ValueRoundTrip(m.value, after);
    }
    MemberOf(s, m.key, afterKey, m.value, after);
  }

  /** An encoded member followed by `after`, grouped from the right. */
  lemma MemberTextSplit(m: Member, after: string)
    ensures DumpMember(m) + after == "\"" + (Escape(m.key) + "\"" + (": " + (Dumps(m.value) + after)))
  {
  }

  /** `: ` then a token: the separator is consumed up to the token. */
  lemma ColonThen(tail: string)
    requires |tail| > 0 && !IsJsonSpace(tail[0])
    ensures var t := SkipWs(": " + tail); |t| > 0 && t[0] == ':' && SkipWs(t[1..]) == tail
  {
    SkipWsNone(": " + tail);
    assert (": " + tail)[1..] == " " + tail;
    assert (" " + tail)[1..] == tail;
    SkipWsNone(tail);
  }

  /** The encoding of several members, split after the first. */
  lemma MembersText(members: seq<Member>, rest: string)
    requires |members| > 1
    ensures DumpMembers(members) + "}" + rest
         == DumpMember(members[0]) + (", " + (DumpMembers(members[1..]) + "}" + rest))
  {
    assert DumpMembers(members) == DumpMember(members[0]) + ", " + DumpMembers(members[1..]);
    RegroupRight(DumpMember(members[0]), ", ", DumpMembers(members[1..]), "}", rest);
  }

  lemma {:induction false} MembersRoundTrip(members: seq<Member>, rest: string)
    requires |members| > 0
    ensures ParseMembers(DumpMembers(members) + "}" + rest) == Some((members, rest))
    decreases members, 1
  {
    if |members| == 1 {
      LastMemberRoundTrip(members[0], rest);
      assert [members[0]] == members;
    } else {
      MoreMembersRoundTrip(members, rest);
    }
  }

  /** `MembersRoundTrip` for the last member. */
  lemma {:induction false} LastMemberRoundTrip(m: Member, rest: string)
    ensures ParseMembers(DumpMembers([m]) + "}" + rest) == Some(([m], rest))
    decreases m, 1
  {
    var s := DumpMembers([m]) + "}" + rest;
    assert s == DumpMember(m) + ("}" + rest);
    assert "}" + rest == ['}'] + rest;
    MemberRoundTrip(m, "}" + rest);
    CloserThen('}', rest);
    MembersLast(s, m, "}" + rest, rest);
  }

  /** `MembersRoundTrip` for a member followed by more. */
  lemma {:induction false} MoreMembersRoundTrip(members: seq<Member>, rest: string)
    requires |members| > 1
    ensures ParseMembers(DumpMembers(members) + "}" + rest) == Some((members, rest))
    decreases members, 0
  {
    var s := DumpMembers(members) + "}" + rest;
    var m := members[0];
    var tail := DumpMembers(members[1..]) + "}" + rest;
    MembersText(members, rest);
    MemberRoundTrip(m, ", " + tail);
    MembersStart(members[1..]);
    assert tail[0] == '"';
    CommaThen(tail);
    MembersRoundTrip(members[1..], rest);
    MembersMore(s, m, ", " + tail, members[1..], rest);
    assert [m] + members[1..] == members;
  }

  /** `json.loads(json.dumps(v)) == v`. */
  lemma LoadsDumps(v: Json)
    ensures Loads(Dumps(v)) == Some(v)
  {
    DumpsStart(v);
    assert Dumps(v) + "" == Dumps(v);
    ValueRoundTrip(v, "");
  }

  /* ---------------- dict access ---------------- */

  /** Python's `d.get(key)` on a decoded object: the value of the last
      member with that key, as duplicate keys overwrite earlier ones. */
  function Lookup(members: seq<Member>, key: string): (r: Option<Json>)
    ensures r.None? <==> forall i :: 0 <= i < |members| ==> members[i].key != key
    ensures r.Some? ==> exists i :: 0 <= i < |members| && members[i].key == key && members[i].value == r.value
  {
    if |members| == 0 then None
    else
      var last := members[|members| - 1];
      if last.key == key then Some(last.value) else Lookup(members[..|members| - 1], key)
  }
}
