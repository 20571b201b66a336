/** Character-level string helpers: decimal rendering and parsing, prefixes
    and infixes, and ASCII case mapping. */
module Text {
  import opened Wrappers

  predicate IsDigit(c: char) { '0' <= c <= '9' }

  predicate AllDigits(s: string) { forall i :: 0 <= i < |s| ==> IsDigit(s[i]) }

  function DigitChar(d: nat): (c: char)
    requires d < 10
    ensures IsDigit(c) && c as int - '0' as int == d
  {
    (('0' as int) + d) as char
  }

  /** Decimal rendering of a natural number, without leading zeros. */
  function NatToString(n: nat): (s: string)
    ensures |s| >= 1 && AllDigits(s)
    decreases n
  {
    if n < 10 then [DigitChar(n)] else NatToString(n / 10) + [DigitChar(n % 10)]
  }

  /** Decimal rendering of an integer, as Rust's `{}` and JavaScript's `toString()` write it. */
  function IntToString(n: int): string {
    if n < 0 then "-" + NatToString(-n) else NatToString(n)
  }

  /** The value of a string of decimal digits. */
  function DigitsValue(s: string): nat
    requires AllDigits(s)
  {
    if s == [] then 0 else DigitsValue(s[..|s| - 1]) * 10 + (s[|s| - 1] as int - '0' as int)
  }

  /** Reads an optionally negative decimal integer; anything else is rejected. */
  function ParseInt(s: string): Option<int> {
    if |s| >= 2 && s[0] == '-' && AllDigits(s[1..]) then Some(0 - DigitsValue(s[1..]) as int)
    else if |s| >= 1 && AllDigits(s) then Some(DigitsValue(s))
    else None
  }

  lemma {:induction false} NatToStringValue(n: nat)
    ensures DigitsValue(NatToString(n)) == n
    decreases n
  {
    if n >= 10 {
      var s := NatToString(n);
      assert s[..|s| - 1] == NatToString(n / 10);
      NatToStringValue(n / 10);
    }
  }

  /** Rendering an integer and reading it back gives the integer: `IntToString` is injective. */
  lemma ParseIntToString(n: int)
    ensures ParseInt(IntToString(n)) == Some(n)
  {
    if n < 0 {
      NegativeParses(-n);
    } else {
      NatToStringValue(n);
      assert IsDigit(NatToString(n)[0]);
    }
  }

  lemma NegativeParses(m: nat)
    requires m > 0
    ensures ParseInt("-" + NatToString(m)) == Some(0 - m)
  {
    var s := "-" + NatToString(m);
    assert s[1..] == NatToString(m);
    NatToStringValue(m);
  }

  lemma IntToStringInjective(a: int, b: int)
    ensures IntToString(a) == IntToString(b) <==> a == b
  {
    ParseIntToString(a);
    ParseIntToString(b);
  }

  predicate IsPrefix(p: string, s: string) { |p| <= |s| && s[..|p|] == p }

  /** `s.includes(w)` / `s.contains(w)`. */
  predicate IsSuffix(x: string, s: string) { |x| <= |s| && s[|s| - |x|..] == x }

  predicate IsInfix(w: string, s: string) {
    exists i :: 0 <= i <= |s| && IsPrefix(w, s[i..])
  }

  predicate ContainsChar(s: string, c: char) { exists i :: 0 <= i < |s| && s[i] == c }

  /** Two strings that differ at an index both have are unequal, and neither is
      a prefix of the other. */
  lemma DifferAt(p: string, u: string, i: nat)
    requires i < |p| && i < |u| && p[i] != u[i]
    ensures p != u && !IsPrefix(p, u)
  {
  }

  /** No occurrence of `c` after index `j`. */
  lemma NotInSuffix(s: string, j: int, c: char)
    requires -1 <= j < |s| && !ContainsChar(s[j + 1..], c)
    ensures forall i :: j < i < |s| ==> s[i] != c
  {
    forall i | j < i < |s| ensures s[i] != c {
      assert s[j + 1..][i - j - 1] == s[i];
    }
  }

  /** Index of the first occurrence of `c` in `s`. */
  function IndexOf(s: string, c: char): (r: Option<nat>)
    ensures r.Some? ==> r.value < |s| && s[r.value] == c && forall j :: 0 <= j < r.value ==> s[j] != c
    ensures r.None? <==> !ContainsChar(s, c)
  {
    if |s| == 0 then None
    else if s[0] == c then Some(0)
    else match IndexOf(s[1..], c)
      case None => None
      case Some(k) => Some(k + 1)
  }

  lemma {:induction false} InfixTransitive(q: string, w: string, s: string)
    requires IsInfix(q, w) && IsInfix(w, s)
    ensures IsInfix(q, s)
  {
    var i :| 0 <= i <= |w| && IsPrefix(q, w[i..]);
    var j :| 0 <= j <= |s| && IsPrefix(w, s[j..]);
    forall k | 0 <= k < |q|
      ensures s[j + i..][k] == q[k]
    {
      assert q[k] == w[i..][k] == w[i + k];
      assert w[i + k] == s[j..][i + k];
    }
    assert s[j + i..][..|q|] == q;
  }

  lemma PrefixIsInfix(p: string, s: string)
    requires IsPrefix(p, s)
    ensures IsInfix(p, s)
  {
    assert s[0..] == s;
  }

  predicate IsUpperAscii(c: char) { 'A' <= c <= 'Z' }
  predicate IsLowerAscii(c: char) { 'a' <= c <= 'z' }

  function ToLowerChar(c: char): (r: char)
    ensures !IsUpperAscii(r)
  {
    if IsUpperAscii(c) then (c as int + 32) as char else c
  }

  function ToUpperChar(c: char): (r: char)
    ensures !IsLowerAscii(r)
  {
    if IsLowerAscii(c) then (c as int - 32) as char else c
  }

  /** `toLowerCase()`, restricted to ASCII letters. */
  function ToLower(s: string): (r: string)
    ensures |r| == |s| && forall i :: 0 <= i < |s| ==> r[i] == ToLowerChar(s[i])
  {
    if s == [] then [] else [ToLowerChar(s[0])] + ToLower(s[1..])
  }

  /** `toUpperCase()`, restricted to ASCII letters. */
  function ToUpper(s: string): (r: string)
    ensures |r| == |s| && forall i :: 0 <= i < |s| ==> r[i] == ToUpperChar(s[i])
  {
    if s == [] then [] else [ToUpperChar(s[0])] + ToUpper(s[1..])
  }

  /** The characters JavaScript's `\s` and `trim()` treat as white space:
      WhiteSpace and LineTerminator of the ECMAScript grammar. */
  predicate IsWhitespace(c: char) {
    c == ' ' || c == '\t' || c == '\n' || c == '\r' || c == '\U{000B}' || c == '\U{000C}'
    || c == '\U{00A0}' || c == '\U{1680}' || ('\U{2000}' <= c <= '\U{200A}')
    || c == '\U{2028}' || c == '\U{2029}' || c == '\U{202F}' || c == '\U{205F}'
    || c == '\U{3000}' || c == '\U{FEFF}'
  }

  function TrimStart(s: string): (r: string)
    ensures IsSuffix(r, s)
    ensures r == [] || !IsWhitespace(r[0])
    ensures forall i :: 0 <= i < |s| - |r| ==> IsWhitespace(s[i])
  {
    if s != [] && IsWhitespace(s[0]) then TrimStart(s[1..]) else s
  }

  function TrimEnd(s: string): (r: string)
    ensures IsPrefix(r, s)
    ensures r == [] || !IsWhitespace(r[|r| - 1])
    ensures forall i :: |r| <= i < |s| ==> IsWhitespace(s[i])
  {
    if s != [] && IsWhitespace(s[|s| - 1]) then TrimEnd(s[..|s| - 1]) else s
  }

  /** `trim()`. */
  function Trim(s: string): (r: string)
    ensures r == [] || (!IsWhitespace(r[0]) && !IsWhitespace(r[|r| - 1]))
    ensures |r| <= |s|
  {
    TrimEnd(TrimStart(s))
  }

  /** `split(sep)` for a one-character separator: the pieces between separators,
      empty pieces included. */
  function Split(s: string, sep: char): (words: seq<string>)
    ensures |words| >= 1
    decreases |s|
  {
    match IndexOf(s, sep)
    case None => [s]
    case Some(k) => [s[..k]] + Split(s[k + 1..], sep)
  }

  /** No piece holds the separator. */
  lemma {:induction false} SplitPiecesClean(s: string, sep: char)
    ensures forall i :: 0 <= i < |Split(s, sep)| ==> !ContainsChar(Split(s, sep)[i], sep)
    decreases |s|
  {
    match IndexOf(s, sep)
    case None =>
    case Some(k) =>
      SplitPiecesClean(s[k + 1..], sep);
      assert Split(s, sep)[1..] == Split(s[k + 1..], sep);
      assert !ContainsChar(s[..k], sep);
  }

  /** Joins pieces with a separator. */
  function Join(words: seq<string>, sep: char): string
    requires |words| >= 1
  {
    if |words| == 1 then words[0] else words[0] + [sep] + Join(words[1..], sep)
  }

  /** Splitting loses nothing: joining the pieces gives back the string. */
  lemma {:induction false} SplitJoin(s: string, sep: char)
    ensures Join(Split(s, sep), sep) == s
    decreases |s|
  {
    match IndexOf(s, sep)
    case None =>
    case Some(k) =>
      var rest := s[k + 1..];
      var w := Split(s, sep);
      assert w == [s[..k]] + Split(rest, sep);
      assert w[1..] == Split(rest, sep);
      assert Join(w, sep) == s[..k] + [sep] + Join(Split(rest, sep), sep);
      SplitJoin(rest, sep);
      assert s == s[..k] + [sep] + rest;
  }

  /** The first piece runs up to the first separator, and without one the
      string is a single piece. */
  lemma SplitFirst(s: string, sep: char)
    ensures IndexOf(s, sep).None? ==> Split(s, sep) == [s]
    ensures IndexOf(s, sep).Some? ==> |Split(s, sep)| >= 2 && Split(s, sep)[0] == s[..IndexOf(s, sep).value]
  {
  }

  /** What follows the last separator (the whole string without one). */
  function AfterLast(s: string, sep: char): string
    decreases |s|
  {
    match IndexOf(s, sep)
    case None => s
    case Some(k) => AfterLast(s[k + 1..], sep)
  }

  /** The last piece of a split is what follows the last separator. */
  lemma {:induction false} SplitLast(s: string, sep: char)
    ensures Split(s, sep)[|Split(s, sep)| - 1] == AfterLast(s, sep)
    decreases |s|
  {
    match IndexOf(s, sep)
    case None =>
    case Some(k) =>
      SplitLast(s[k + 1..], sep);
      assert Split(s, sep) == [s[..k]] + Split(s[k + 1..], sep);
  }

  /** `AfterLast` is a suffix. */
  lemma {:induction false} AfterLastSuffix(s: string, sep: char)
    ensures IsSuffix(AfterLast(s, sep), s)
    decreases |s|
  {
    match IndexOf(s, sep)
    case None =>
      assert s[|s| - |s|..] == s;
    case Some(k) =>
      var rest := s[k + 1..];
      AfterLastSuffix(rest, sep);
      var x := AfterLast(rest, sep);
      assert AfterLast(s, sep) == x;
      assert s[|s| - |x|..] == rest[|rest| - |x|..];
  }

  /** With a separator present, `AfterLast` is preceded by one. */
  lemma {:induction false} AfterLastSeparated(s: string, sep: char)
    requires IndexOf(s, sep).Some?
    ensures |AfterLast(s, sep)| < |s| && s[|s| - |AfterLast(s, sep)| - 1] == sep
    decreases |s|
  {
    var k := IndexOf(s, sep).value;
    var rest := s[k + 1..];
    var x := AfterLast(rest, sep);
    assert AfterLast(s, sep) == x;
    if IndexOf(rest, sep).Some? {
      AfterLastSeparated(rest, sep);
      assert s[|s| - |x| - 1] == rest[|rest| - |x| - 1];
    } else {
      assert x == rest;
    }
  }
}
