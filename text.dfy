/** String rules the panels apply to what the user types: dropping
    characters (`replace` with a global character-class pattern), `trim`,
    and the decimal text of list indices (`String(i)` and `Number(s)`). */
module Text {
  import opened Common

  /** The characters of `s` that satisfy `keep`, in their original order:
      what `s.replace(/[^k]/g, '')` leaves for a character class `k`. */
  function Filter(keep: char -> bool, s: string): (r: string)
    ensures |r| <= |s|
    ensures forall i :: 0 <= i < |r| ==> keep(r[i])
  {
    if s == [] then []
    else (if keep(s[0]) then [s[0]] else []) + Filter(keep, s[1..])
  }

  /** Filtering works piece by piece, so the kept characters stay in order. */
  lemma {:induction false} FilterConcat(keep: char -> bool, a: string, b: string)
    ensures Filter(keep, a + b) == Filter(keep, a) + Filter(keep, b)
  {
    if a == [] {
      assert a + b == b;
    } else {
      assert (a + b)[0] == a[0];
      assert (a + b)[1..] == a[1..] + b;
      FilterConcat(keep, a[1..], b);
    }
  }

  /** A string all of whose characters are kept is left as it is. */
  lemma {:induction false} FilterKeepsKept(keep: char -> bool, s: string)
    requires forall i :: 0 <= i < |s| ==> keep(s[i])
    ensures Filter(keep, s) == s
  {
    if s != [] {
      FilterKeepsKept(keep, s[1..]);
    }
  }

  /** Filtering a second time changes nothing. */
  lemma FilterIdempotent(keep: char -> bool, s: string)
    ensures Filter(keep, Filter(keep, s)) == Filter(keep, s)
  {
    FilterKeepsKept(keep, Filter(keep, s));
  }

  /** Exactly the kept characters of `s` survive. */
  lemma {:induction false} FilterMembers(keep: char -> bool, s: string, c: char)
    ensures c in Filter(keep, s) <==> c in s && keep(c)
  {
    if s != [] {
      FilterMembers(keep, s[1..], c);
      assert s == [s[0]] + s[1..];
    }
  }

  /** JavaScript's `\s`, which is also what `trim` removes: the WhiteSpace
      and LineTerminator characters of ECMAScript (tab, line feed, vertical
      tab, form feed, carriage return, space, no-break space, the byte order
      mark, the Unicode space separators, line and paragraph separator). */
  predicate IsWhitespace(c: char) {
    c == '\t' || c == '\n' || c == '\U{000B}' || c == '\U{000C}' || c == '\r'
    || c == ' ' || c == '\U{00A0}' || c == '\U{1680}' || ('\U{2000}' <= c <= '\U{200A}')
    || c == '\U{2028}' || c == '\U{2029}' || c == '\U{202F}' || c == '\U{205F}'
    || c == '\U{3000}' || c == '\U{FEFF}'
  }

  predicate IsVisible(c: char) {
    !IsWhitespace(c)
  }

  /** The number of UTF-16 code units that encode `c`: JavaScript's
      `.length` counts these, so a character outside the Basic
      Multilingual Plane counts twice. */
  function CodeUnits(c: char): nat {
    if c as int < 0x1_0000 then 1 else 2
  }

  /** JavaScript's `s.length`. */
  function Utf16Length(s: string): (n: nat)
    ensures |s| <= n <= 2 * |s|
  {
    if s == [] then 0 else CodeUnits(s[0]) + Utf16Length(s[1..])
  }

  /** Dropping characters never adds code units. */
  lemma {:induction false} FilterUtf16Length(keep: char -> bool, s: string)
    ensures Utf16Length(Filter(keep, s)) <= Utf16Length(s)
  {
    if s != [] {
      FilterUtf16Length(keep, s[1..]);
      var head := if keep(s[0]) then [s[0]] else [];
      var rest := Filter(keep, s[1..]);
      if keep(s[0]) {
        assert (head + rest)[0] == s[0];
        assert (head + rest)[1..] == rest;
      } else {
        assert head + rest == rest;
      }
    }
  }

  /** An ASCII string is as long in code units as in characters. */
  lemma {:induction false} AsciiUtf16Length(s: string)
    requires forall i :: 0 <= i < |s| ==> s[i] as int < 0x80
    ensures Utf16Length(s) == |s|
  {
    if s != [] {
      AsciiUtf16Length(s[1..]);
    }
  }

  /** `s.replace(/\s+/g, '')`: every whitespace character goes, and the
      code-unit length can only shrink. */
  function RemoveWhitespace(s: string): (r: string)
    ensures forall i :: 0 <= i < |r| ==> !IsWhitespace(r[i])
    ensures Utf16Length(r) <= Utf16Length(s)
  {
    FilterUtf16Length(IsVisible, s);
    Filter(IsVisible, s)
  }

  /** `trimStart`: the string from its first non-whitespace character. */
  function TrimStart(s: string): (r: string)
    ensures |r| <= |s| && r == s[|s| - |r|..]
    ensures forall k :: 0 <= k < |s| - |r| ==> IsWhitespace(s[k])
    ensures r != [] ==> !IsWhitespace(r[0])
  {
    if s != [] && IsWhitespace(s[0]) then TrimStart(s[1..]) else s
  }

  /** `trimEnd`: the string up to its last non-whitespace character. */
  function TrimEnd(s: string): (r: string)
    ensures |r| <= |s| && r == s[..|r|]
    ensures forall k :: |r| <= k < |s| ==> IsWhitespace(s[k])
    ensures r != [] ==> !IsWhitespace(r[|r| - 1])
  {
    if s != [] && IsWhitespace(s[|s| - 1]) then TrimEnd(s[..|s| - 1]) else s
  }

  /** `s.trim()`: no whitespace is left at either end, and the result is
      never longer; `TrimMiddle` shows that it is the contiguous middle of
      `s`. */
  function Trim(s: string): (r: string)
    ensures |r| <= |s|
    ensures r != [] ==> !IsWhitespace(r[0]) && !IsWhitespace(r[|r| - 1])
  {
    var t := TrimStart(s);
    assert TrimEnd(t) != [] ==> TrimEnd(t)[0] == t[0];
    TrimEnd(t)
  }

  /** `trim` removes only the whitespace at the two ends: the result is the
      slice of `s` after its leading whitespace, and everything after the
      slice is whitespace too. */
  lemma TrimMiddle(s: string)
    ensures var r := Trim(s); var lead := |s| - |TrimStart(s)|;
            lead + |r| <= |s| && r == s[lead..lead + |r|]
            && (forall k :: 0 <= k < lead ==> IsWhitespace(s[k]))
            && (forall k :: lead + |r| <= k < |s| ==> IsWhitespace(s[k]))
  {
    var t := TrimStart(s);
    var lead := |s| - |t|;
    var r := TrimEnd(t);
    assert Trim(s) == r;
    assert t == s[lead..];
    assert r == t[..|r|] == s[lead..lead + |r|];
    forall k | 0 <= k < lead
      ensures IsWhitespace(s[k])
    {
    }
    forall k | lead + |r| <= k < |s|
      ensures IsWhitespace(s[k])
    {
      assert s[k] == t[k - lead];
    }
  }

  lemma {:induction false} TrimStartKeepsVisible(s: string)
    ensures RemoveWhitespace(TrimStart(s)) == RemoveWhitespace(s)
  {
    if s != [] && IsWhitespace(s[0]) {
      TrimStartKeepsVisible(s[1..]);
    }
  }

  lemma {:induction false} TrimEndKeepsVisible(s: string)
    ensures RemoveWhitespace(TrimEnd(s)) == RemoveWhitespace(s)
  {
    if s != [] && IsWhitespace(s[|s| - 1]) {
      var init, last := s[..|s| - 1], s[|s| - 1];
      TrimEndKeepsVisible(init);
      assert s == init + [last];
      FilterConcat(IsVisible, init, [last]);
      assert Filter(IsVisible, [last]) == [] + Filter(IsVisible, []);
    }
  }

  /** Trimming only removes whitespace, so it keeps every visible character. */
  lemma TrimKeepsVisible(s: string)
    ensures RemoveWhitespace(Trim(s)) == RemoveWhitespace(s)
  {
    TrimStartKeepsVisible(s);
    TrimEndKeepsVisible(TrimStart(s));
  }

  /** A string with at least `n` code units left once all whitespace is
      removed has at least `n` code units once trimmed. */
  lemma VisibleAtMostTrimmed(s: string)
    ensures Utf16Length(RemoveWhitespace(s)) <= Utf16Length(Trim(s))
  {
    TrimKeepsVisible(s);
  }

  /** The class `[0-9]`: ASCII digits only. */
  predicate IsDigit(c: char) {
    '0' <= c <= '9'
  }

  /** `s.replace(/[^0-9]/g, '')`. */
  function DigitsOnly(s: string): string {
    Filter(IsDigit, s)
  }

  predicate AllDigits(s: string) {
    forall i :: 0 <= i < |s| ==> IsDigit(s[i])
  }

  function DigitChar(d: nat): (c: char)
    requires d < 10
    ensures IsDigit(c)
  {
    ('0' as int + d) as char
  }

  function DigitValue(c: char): nat
    requires IsDigit(c)
  {
    c as int - '0' as int
  }

  /** `String(n)` for a non-negative integer: its decimal digits, no sign,
      no leading zero. */
  function NatToString(n: nat): (r: string)
    ensures r != [] && AllDigits(r)
    ensures r[0] == '0' <==> n == 0
  {
    if n < 10 then [DigitChar(n)] else NatToString(n / 10) + [DigitChar(n % 10)]
  }

  function DecimalValue(s: string): nat
    requires AllDigits(s)
  {
    if s == [] then 0 else DecimalValue(s[..|s| - 1]) * 10 + DigitValue(s[|s| - 1])
  }

  /** `Number(s)` used as a list index, on the decimal strings that the
      panels write as indices: `Some(i)` for a non-empty run of digits,
      `None` for anything else. */
  function ParseIndex(s: string): (r: Option<nat>)
    ensures r.Some? <==> s != [] && AllDigits(s)
  {
    if s != [] && AllDigits(s) then Some(DecimalValue(s)) else None
  }

  lemma {:induction false} DecimalValueOfNatToString(n: nat)
    ensures DecimalValue(NatToString(n)) == n
  {
    if n >= 10 {
      var front := NatToString(n / 10);
      DecimalValueOfNatToString(n / 10);
      assert (front + [DigitChar(n % 10)])[..|front|] == front;
    }
  }

  /** Reading back the index text that `String(i)` wrote gives `i`. */
  lemma ParseIndexOfNatToString(n: nat)
    ensures ParseIndex(NatToString(n)) == Some(n)
  {
    DecimalValueOfNatToString(n);
  }

  /** Different indices have different texts. */
  lemma NatToStringInjective(m: nat, n: nat)
    requires NatToString(m) == NatToString(n)
    ensures m == n
  {
    ParseIndexOfNatToString(m);
    ParseIndexOfNatToString(n);
  }
}
