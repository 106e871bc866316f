/** String operations of Python's `str` that the application relies on:
    `strip`, `split`, `join`, `rstrip`, `replace`, `count` and `str(int)`.
    Strings are sequences of Unicode scalar values, as Python's are
    sequences of code points. */
module Text {

  /** Python's `str.isspace` on one character: exactly the characters that
      `str.strip()` with no argument removes. */
  predicate IsSpace(c: char) {
    || ('\t' <= c <= '\r')
    || ('\U{1C}' <= c <= '\U{1F}')
    || c == ' '
    || c == '\U{85}'
    || c == '\U{A0}'
    || c == '\U{1680}'
    || ('\U{2000}' <= c <= '\U{200A}')
    || c == '\U{2028}'
    || c == '\U{2029}'
    || c == '\U{202F}'
    || c == '\U{205F}'
    || c == '\U{3000}'
  }

  /** Every character is whitespace (so `s.strip()` is empty and falsy). */
  predicate IsBlank(s: string) {
    forall i :: 0 <= i < |s| ==> IsSpace(s[i])
  }

  /** Number of whitespace characters at the start of `s`. */
  function LeadingSpaces(s: string): (n: nat)
    ensures n <= |s|
    ensures forall i :: 0 <= i < n ==> IsSpace(s[i])
    ensures n < |s| ==> !IsSpace(s[n])
  {
    if |s| == 0 || !IsSpace(s[0]) then 0 else 1 + LeadingSpaces(s[1..])
  }

  /** Number of whitespace characters at the end of `s`. */
  function TrailingSpaces(s: string): (n: nat)
    ensures n <= |s|
    ensures forall i :: |s| - n <= i < |s| ==> IsSpace(s[i])
    ensures n < |s| ==> !IsSpace(s[|s| - 1 - n])
  {
    if |s| == 0 || !IsSpace(s[|s| - 1]) then 0 else 1 + TrailingSpaces(s[..|s| - 1])
  }

  /** Python's `s.strip()`: the infix of `s` that starts after its leading
      whitespace and leaves only whitespace behind it. */
  function Strip(s: string): (r: string)
    ensures |r| <= |s|
    ensures r == "" <==> IsBlank(s)
    ensures r != "" ==> !IsSpace(r[0]) && !IsSpace(r[|r| - 1])
    ensures LeadingSpaces(s) + |r| <= |s|
    ensures r == s[LeadingSpaces(s)..LeadingSpaces(s) + |r|]
    ensures IsBlank(s[LeadingSpaces(s) + |r|..])
  {
    var t := s[LeadingSpaces(s)..];
    t[..|t| - TrailingSpaces(t)]
  }

  /** Number of occurrences of `c` in `s` (Python's `s.count(c)`). */
  function Count(s: string, c: char): (n: nat)
    ensures n <= |s|
    ensures n == 0 <==> c !in s
  {
    if |s| == 0 then 0 else (if s[0] == c then 1 else 0) + Count(s[1..], c)
  }

  /** Concatenation is associative. */
  lemma Assoc(a: string, b: string, c: string)
    ensures (a + b) + c == a + (b + c)
  {
  }

  /** Regrouping a concatenation to the right. */
  lemma RegroupRight(a: string, b: string, c: string, d: string, e: string)
    ensures a + b + c + d + e == a + (b + (c + d + e))
  {
  }

  /** Python's `sep.join(parts)`. */
  function Join(parts: seq<string>, sep: string): string {
    if |parts| == 0 then ""
    else if |parts| == 1 then parts[0]
    else parts[0] + sep + Join(parts[1..], sep)
  }

  /** Python's `s.split(c)` with an explicit one-character separator: the
      pieces between separators, empty pieces included. */
  function Split(s: string, c: char): (r: seq<string>)
    ensures |r| == Count(s, c) + 1
    ensures forall i :: 0 <= i < |r| ==> c !in r[i]
  {
    if |s| == 0 then [""]
    else
      var rest := Split(s[1..], c);
      if s[0] == c then [""] + rest
      else [[s[0]] + rest[0]] + rest[1..]
  }

  /** Joining the pieces of a split with the separator gives back the string. */
  lemma {:induction false} JoinSplit(s: string, c: char)
    ensures Join(Split(s, c), [c]) == s
  {
    if |s| > 0 {
      var rest := Split(s[1..], c);
      JoinSplit(s[1..], c);
      SplitCons(s, c);
      assert [s[0]] + s[1..] == s;
      if s[0] == c {
        JoinEmptyHead(rest, [c]);
      } else {
        JoinHead(rest, [s[0]], [c]);
      }
    }
  }

  /** An empty first part leaves the separator at the front. */
  lemma JoinEmptyHead(parts: seq<string>, sep: string)
    requires |parts| > 0
    ensures Join([""] + parts, sep) == sep + Join(parts, sep)
  {
    assert ([""] + parts)[1..] == parts;
  }

  /** Prefixing the first part prefixes the joined text. */
  lemma JoinHead(parts: seq<string>, p: string, sep: string)
    requires |parts| > 0
    ensures Join([p + parts[0]] + parts[1..], sep) == p + Join(parts, sep)
  {
    var q := [p + parts[0]] + parts[1..];
    assert q[1..] == parts[1..];
    if |parts| > 1 {
      assert p + parts[0] + sep + Join(parts[1..], sep) == p + (parts[0] + sep + Join(parts[1..], sep));
    }
  }

  /** Splitting a piece free of the separator, followed by the separator,
      peels that piece off. */
  lemma {:induction false} SplitPeel(p: string, c: char, t: string)
    requires c !in p
    ensures Split(p + [c] + t, c) == [p] + Split(t, c)
  {
    var s := p + [c] + t;
    if |p| > 0 {
      assert s[1..] == p[1..] + [c] + t;
      var rest := Split(s[1..], c);
      assert rest == [p[1..]] + Split(t, c) by {
        SplitPeel(p[1..], c, t);
      }
      SplitCons(s, c);
      assert [p[0]] + p[1..] == p;
    } else {
      assert s == [c] + t;
      SplitCons(s, c);
      assert s[1..] == t;
    }
  }

  /** One step of `Split`. */
  lemma SplitCons(s: string, c: char)
    requires |s| > 0
    ensures var rest := Split(s[1..], c);
      Split(s, c) == if s[0] == c then [""] + rest else [[s[0]] + rest[0]] + rest[1..]
  {
  }

  /** A string free of the separator splits into itself alone. */
  lemma {:induction false} SplitNoSeparator(p: string, c: char)
    requires c !in p
    ensures Split(p, c) == [p]
  {
    if |p| > 0 {
      SplitNoSeparator(p[1..], c);
      assert [p[0]] + p[1..] == p;
    }
  }

  /** Splitting a join of separator-free pieces gives back the pieces. */
  lemma {:induction false} SplitJoin(parts: seq<string>, c: char)
    requires |parts| >= 1
    requires forall i :: 0 <= i < |parts| ==> c !in parts[i]
    ensures Split(Join(parts, [c]), c) == parts
  {
    if |parts| == 1 {
      SplitNoSeparator(parts[0], c);
    } else {
      SplitJoin(parts[1..], c);
      SplitPeel(parts[0], c, Join(parts[1..], [c]));
      assert [parts[0]] + parts[1..] == parts;
    }
  }

  /** Python's `s.rstrip(c)`: `s` without its trailing run of `c`. */
  function TrimTrailing(s: string, c: char): (r: string)
    ensures |r| <= |s| && r == s[..|r|]
    ensures |r| == 0 || r[|r| - 1] != c
    ensures forall i :: |r| <= i < |s| ==> s[i] == c
  {
    if |s| > 0 && s[|s| - 1] == c then TrimTrailing(s[..|s| - 1], c) else s
  }

  /** Python's `s.replace(c, "")` for a one-character `c`. */
  function Remove(s: string, c: char): string
  {
    if |s| == 0 then ""
    else (if s[0] == c then "" else [s[0]]) + Remove(s[1..], c)
  }

  /** The result holds no `c`, is `Count(s, c)` shorter, and is `s` itself
      when `s` holds no `c`. */
  lemma {:induction false} RemoveSpec(s: string, c: char)
    ensures c !in Remove(s, c)
    ensures |Remove(s, c)| == |s| - Count(s, c)
    ensures c !in s ==> Remove(s, c) == s
  {
    if |s| > 0 {
      RemoveSpec(s[1..], c);
      RemoveCons(s, c);
      assert [s[0]] + s[1..] == s;
    }
  }

  /** One step of `Remove`. */
  lemma RemoveCons(s: string, c: char)
    requires |s| > 0
    ensures Remove(s, c) == (if s[0] == c then "" else [s[0]]) + Remove(s[1..], c)
  {
  }

  /** Removing `c` from a concatenation removes it from each side. */
  lemma {:induction false} RemoveAppend(a: string, b: string, c: char)
    ensures Remove(a + b, c) == Remove(a, c) + Remove(b, c)
  {
    if |a| > 0 {
      var h: string := if a[0] == c then "" else [a[0]];
      calc {
        Remove(a + b, c);
        { assert (a + b)[0] == a[0] && (a + b)[1..] == a[1..] + b;
          RemoveCons(a + b, c); }
        h + Remove(a[1..] + b, c);
        { RemoveAppend(a[1..], b, c); }
        h + (Remove(a[1..], c) + Remove(b, c));
        h + Remove(a[1..], c) + Remove(b, c);
        { RemoveCons(a, c); }
        Remove(a, c) + Remove(b, c);
      }
    } else {
      assert a + b == b;
    }
  }



  predicate IsDigit(c: char) {
    '0' <= c <= '9'
  }

  function DigitChar(d: nat): (c: char)
    requires d < 10
    ensures IsDigit(c)
  {
    ('0' as int + d) as char
  }

  function DigitValue(c: char): (d: nat)
    requires IsDigit(c)
    ensures d < 10 && DigitChar(d) == c
  {
    c as int - '0' as int
  }

  /** Decimal digits of `n`, most significant first, without leading zeros. */
  function NatDigits(n: nat): (r: string)
    ensures |r| >= 1
    ensures forall i :: 0 <= i < |r| ==> IsDigit(r[i])
    ensures n >= 10 ==> r[0] != '0'
    ensures n < 10 ==> |r| == 1
  {
    if n < 10 then [DigitChar(n)] else NatDigits(n / 10) + [DigitChar(n % 10)]
  }

  /** The number a string of decimal digits denotes. */
  function DigitsValue(s: string): nat
    requires forall i :: 0 <= i < |s| ==> IsDigit(s[i])
  {
    if |s| == 0 then 0 else DigitsValue(s[..|s| - 1]) * 10 + DigitValue(s[|s| - 1])
  }

  /** Reading back the digits of `n` gives `n`. */
  lemma {:induction false} NatDigitsValue(n: nat)
    ensures DigitsValue(NatDigits(n)) == n
  {
    var r := NatDigits(n);
    if n >= 10 {
      NatDigitsValue(n / 10);
      assert r[..|r| - 1] == NatDigits(n / 10);
    }
  }

  /** `k` zeros. */
  function Zeros(k: nat): (r: string)
    ensures |r| == k
    ensures forall i :: 0 <= i < k ==> r[i] == '0'
  {
    seq(k, _ => '0')
  }

  /** Leading zeros do not change the value of a digit string. */
  lemma {:induction false} ZerosValue(k: nat, t: string)
    requires forall i :: 0 <= i < |t| ==> IsDigit(t[i])
    ensures DigitsValue(Zeros(k) + t) == DigitsValue(t)
    decreases |t|, k
  {
    var s := Zeros(k) + t;
    if |t| > 0 {
      ZerosValue(k, t[..|t| - 1]);
      assert s[..|s| - 1] == Zeros(k) + t[..|t| - 1];
    } else if k > 0 {
      ZerosValue(k - 1, t);
      assert s[..|s| - 1] == Zeros(k - 1) + t;
    } else {
      assert s == t;
    }
  }

  /** `n` in decimal, left-padded with zeros to at least `width` digits
      (C's `%0<width>d`). */
  function Pad(n: nat, width: nat): (r: string)
    ensures |r| >= width
    ensures forall i :: 0 <= i < |r| ==> IsDigit(r[i])
  {
    var d := NatDigits(n);
    (if |d| < width then Zeros(width - |d|) else "") + d
  }

  /** Reading back a padded number gives the number. */
  lemma PadValue(n: nat, width: nat)
    ensures DigitsValue(Pad(n, width)) == n
  {
    var d := NatDigits(n);
    NatDigitsValue(n);
    if |d| < width {
      ZerosValue(width - |d|, d);
    } else {
      assert Pad(n, width) == d;
    }
  }

  /** Python's `str(i)` for an integer. */
  function IntToString(i: int): (r: string)
    ensures |r| >= 1
    ensures i >= 0 ==> r == NatDigits(i)
    ensures i < 0 ==> r == "-" + NatDigits(-i)
  {
    if i < 0 then "-" + NatDigits(-i) else NatDigits(i)
  }
}
