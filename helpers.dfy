/** src/utils/helpers.ts: display helpers. Dates enter as the difference, in
    milliseconds, between now and the date. */
module Helpers {
  import opened Wrappers
  import opened Text

  /** `formatTrackCount` (French labels). */
  function FormatTrackCount(count: int): string {
    if count == 0 then "Aucun titre"
    else if count == 1 then "1 titre"
    else IntToString(count) + " titres"
  }

  /** Reads a track-count label back. */
  function ParseTrackCount(s: string): Option<int> {
    if s == "Aucun titre" then Some(0)
    else if s == "1 titre" then Some(1)
    else if IsSuffix(" titres", s) then ParseInt(s[..|s| - 7])
    else None
  }

  /** Every count has its own label. */
  lemma TrackCountRoundTrip(count: int)
    ensures ParseTrackCount(FormatTrackCount(count)) == Some(count)
  {
    if count != 0 && count != 1 {
      var digits := IntToString(count);
      assert |digits| >= 1 && (digits[0] == '-' || IsDigit(digits[0]));
      PluralLabel(digits);
      ParseIntToString(count);
    }
  }

  /** A label of more than one track reads back as its number. */
  lemma PluralLabel(digits: string)
    requires |digits| >= 1 && (digits[0] == '-' || IsDigit(digits[0]))
    ensures ParseTrackCount(digits + " titres") == ParseInt(digits)
  {
    var s := digits + " titres";
    assert s[0] == digits[0];
    DifferAt("Aucun titre", s, 0);
    assert |s| >= 8;
    assert s[|s| - 7..] == " titres";
    assert s[..|s| - 7] == digits;
  }

  /** `String.prototype.slice(0, end)`: a negative end counts from the end. */
  function SliceTo(s: string, end: int): (r: string)
    ensures IsPrefix(r, s)
    ensures 0 <= end <= |s| ==> |r| == end
  {
    var e := if end < 0 then (if |s| + end < 0 then 0 else |s| + end) else (if end > |s| then |s| else end);
    s[..e]
  }

  /** `truncate`. */
  function Truncate(text: string, maxLength: int): (r: string)
    ensures |text| <= maxLength ==> r == text
    ensures |text| > maxLength ==> IsSuffix("...", r) && IsPrefix(r[..|r| - 3], text)
    ensures 0 <= maxLength < |text| ==> |r| == maxLength + 3 && r[..maxLength] == text[..maxLength]
  {
    if |text| <= maxLength then text else SliceTo(text, maxLength) + "..."
  }

  /** The output never exceeds the limit by more than the ellipsis. */
  lemma TruncateBound(text: string, maxLength: nat)
    ensures |Truncate(text, maxLength)| <= maxLength + 3
    ensures |Truncate(text, maxLength)| <= |text| || |text| > maxLength
  {
  }

  // ---------------------------------------------------------------------------
  // `isValidEmail`: `^[^\s@]+@[^\s@]+\.[^\s@]+$`

  predicate EmailChar(c: char) { !IsWhitespace(c) && c != '@' }

  predicate EmailRun(s: string) { |s| >= 1 && forall i :: 0 <= i < |s| ==> EmailChar(s[i]) }

  /** The pattern read as a grammar: a local part, `@`, a domain part, a dot and a
      final part, each part non-empty and free of white space and `@`. */
  ghost predicate EmailShape(s: string) {
    exists k, d :: 0 < k && k + 1 < d < |s| - 1 && s[k] == '@' && s[d] == '.'
      && EmailRun(s[..k]) && EmailRun(s[k + 1..d]) && EmailRun(s[d + 1..])
  }

  /** The matcher: split at the (only possible) `@`, then look for a dot that is
      neither the first nor the last character after it. */
  function IsValidEmail(s: string): bool {
    match IndexOf(s, '@')
    case None => false
    case Some(k) =>
      var rest := s[k + 1..];
      EmailRun(s[..k]) && |rest| >= 3 && EmailRun(rest) && ContainsChar(rest[1..|rest| - 1], '.')
  }

  lemma EmailMatchHasShape(s: string)
    requires IsValidEmail(s)
    ensures EmailShape(s)
  {
    var k := IndexOf(s, '@').value;
    var rest := s[k + 1..];
    var inner := rest[1..|rest| - 1];
    var j := IndexOf(inner, '.').value;
    var d := k + 2 + j;
    assert s[d] == inner[j];
    assert s[k + 1..d] == rest[..j + 1];
    assert s[d + 1..] == rest[j + 2..];
    EmailRunSlice(rest, 0, j + 1);
    EmailRunSlice(rest, j + 2, |rest|);
    assert rest[0..j + 1] == rest[..j + 1] && rest[j + 2..|rest|] == rest[j + 2..];
    assert 0 < k && k + 1 < d < |s| - 1 && s[k] == '@' && s[d] == '.'
      && EmailRun(s[..k]) && EmailRun(s[k + 1..d]) && EmailRun(s[d + 1..]);
  }

  /** A non-empty slice of a run is a run. */
  lemma EmailRunSlice(s: string, a: nat, b: nat)
    requires EmailRun(s) && a < b <= |s|
    ensures EmailRun(s[a..b])
  {
    forall i | 0 <= i < b - a ensures EmailChar(s[a..b][i]) {
      assert s[a..b][i] == s[a + i];
    }
  }

  lemma EmailPartsMatch(s: string, k: nat, d: nat)
    requires 0 < k && k + 1 < d < |s| - 1 && s[k] == '@' && s[d] == '.'
    requires EmailRun(s[..k]) && EmailRun(s[k + 1..d]) && EmailRun(s[d + 1..])
    ensures IsValidEmail(s)
  {
    NoAtBefore(s, k);
    assert IndexOf(s, '@') == Some(k);
    var rest := s[k + 1..];
    assert rest == s[k + 1..d] + [s[d]] + s[d + 1..];
    EmailRunJoin(s[k + 1..d], s[d], s[d + 1..]);
    var inner := rest[1..|rest| - 1];
    assert inner[d - k - 2] == '.';
    assert ContainsChar(inner, '.');
  }

  lemma EmailShapeMatches(s: string)
    requires EmailShape(s)
    ensures IsValidEmail(s)
  {
    var k, d :| 0 < k && k + 1 < d < |s| - 1 && s[k] == '@' && s[d] == '.'
      && EmailRun(s[..k]) && EmailRun(s[k + 1..d]) && EmailRun(s[d + 1..]);
    EmailPartsMatch(s, k, d);
  }

  lemma EmailRunJoin(a: string, c: char, b: string)
    requires EmailRun(a) && EmailChar(c) && EmailRun(b)
    ensures EmailRun(a + [c] + b)
  {
    var w := a + [c] + b;
    forall i | 0 <= i < |w| ensures EmailChar(w[i]) {
      if i < |a| { assert w[i] == a[i]; }
      else if i > |a| { assert w[i] == b[i - |a| - 1]; }
    }
  }

  /** The matcher accepts exactly the strings of the grammar. */
  lemma EmailMatchesShape(s: string)
    ensures IsValidEmail(s) <==> EmailShape(s)
  {
    if IsValidEmail(s) { EmailMatchHasShape(s); }
    if EmailShape(s) { EmailShapeMatches(s); }
  }

  lemma NoAtBefore(s: string, k: nat)
    requires k <= |s| && EmailRun(s[..k])
    ensures forall i :: 0 <= i < k ==> s[i] != '@'
  {
    forall i | 0 <= i < k ensures s[i] != '@' {
      assert s[..k][i] == s[i];
    }
  }

  /** `isValidPassword`: at least eight characters. */
  function IsValidPassword(password: string): (ok: bool)
    ensures ok <==> |password| >= 8
  {
    |password| >= 8
  }

  // ---------------------------------------------------------------------------
  // `getUserInitials`

  /** `charAt(0)`: the first character, or "" for the empty string. */
  function FirstChar(w: string): (r: string)
    ensures |r| <= 1 && (w != [] ==> r == [w[0]])
  {
    if w == [] then [] else [w[0]]
  }

  function GetUserInitials(username: string): (r: string)
    ensures username == [] ==> r == "?"
    ensures |r| <= 2
  {
    if username == [] then "?" else InitialsOfWords(Split(Trim(username), ' '))
  }

  /** The initials of the words a name splits into. */
  function InitialsOfWords(words: seq<string>): (r: string)
    requires |words| >= 1
    ensures |r| <= 2
  {
    if |words| == 1 then ToUpper(FirstChar(words[0]))
    else ToUpper(FirstChar(words[0]) + FirstChar(words[|words| - 1]))
  }

  /** The pieces of a trimmed string around its spaces: the first starts with the
      string's first character, and the last is what follows the last space. */
  lemma {:induction false} WordsOfTrimmed(t: string)
    requires t != [] && !IsWhitespace(t[0]) && !IsWhitespace(t[|t| - 1]) && ContainsChar(t, ' ')
    ensures |Split(t, ' ')| >= 2 && Split(t, ' ')[0] != [] && Split(t, ' ')[0][0] == t[0]
    ensures Split(t, ' ')[|Split(t, ' ')| - 1] != []
    ensures forall j :: 0 <= j < |t| - 1 && t[j] == ' ' && !ContainsChar(t[j + 1..], ' ') ==> Split(t, ' ')[|Split(t, ' ')| - 1][0] == t[j + 1]
  {
    var words := Split(t, ' ');
    SplitFirst(t, ' ');
    SplitLast(t, ' ');
    AfterLastSuffix(t, ' ');
    AfterLastSeparated(t, ' ');
    SplitPiecesClean(t, ' ');
    var k := IndexOf(t, ' ').value;
    assert k != 0;
    assert words[0] == t[..k];
    assert words[0][0] == t[0];
    var last := words[|words| - 1];
    var p := |t| - |last| - 1;
    assert t[p] == ' ';
    assert last == t[p + 1..];
    assert last != [];
    NotInSuffix(t, p, ' ');
    forall j | 0 <= j < |t| - 1 && t[j] == ' ' && !ContainsChar(t[j + 1..], ' ')
      ensures last[0] == t[j + 1]
    {
      NotInSuffix(t, j, ' ');
    }
  }

  /** The initials are the upper-cased first characters of the first and the last
      space-separated words of the trimmed name; a single word gives one initial,
      and a name of white space only gives none. */
  lemma InitialsOfFirstAndLastWord(username: string)
    requires username != []
    ensures var t := Trim(username); var r := GetUserInitials(username);
      && (t == [] ==> r == "")
      && (t != [] && !ContainsChar(t, ' ') ==> r == [ToUpperChar(t[0])])
      && (t != [] && ContainsChar(t, ' ') ==>
            |r| == 2 && r[0] == ToUpperChar(t[0])
            && forall j :: 0 <= j < |t| - 1 && t[j] == ' ' && !ContainsChar(t[j + 1..], ' ') ==> r[1] == ToUpperChar(t[j + 1]))
  {
    var t := Trim(username);
    if t != [] && ContainsChar(t, ' ') {
      InitialsOfSeveralWords(username);
    } else if t != [] {
      InitialsOfOneWord(username);
    } else {
      assert Split(t, ' ') == [[]];
    }
  }

  lemma InitialsOfSeveralWords(username: string)
    requires username != [] && Trim(username) != [] && ContainsChar(Trim(username), ' ')
    ensures var t := Trim(username); var r := GetUserInitials(username);
      |r| == 2 && r[0] == ToUpperChar(t[0])
      && forall j :: 0 <= j < |t| - 1 && t[j] == ' ' && !ContainsChar(t[j + 1..], ' ') ==> r[1] == ToUpperChar(t[j + 1])
  {
    var t := Trim(username);
    var words := Split(t, ' ');
    WordsOfTrimmed(t);
    assert GetUserInitials(username) == InitialsOfWords(words);
    InitialsOfManyWords(words);
  }

  /** Two or more words give the first letters of the first and the last. */
  lemma InitialsOfManyWords(words: seq<string>)
    requires |words| >= 2 && words[0] != [] && words[|words| - 1] != []
    ensures |InitialsOfWords(words)| == 2
    ensures InitialsOfWords(words)[0] == ToUpperChar(words[0][0])
    ensures InitialsOfWords(words)[1] == ToUpperChar(words[|words| - 1][0])
  {
    var init := FirstChar(words[0]) + FirstChar(words[|words| - 1]);
    assert |init| == 2 && init[0] == words[0][0] && init[1] == words[|words| - 1][0];
  }

  lemma InitialsOfOneWord(username: string)
    requires username != [] && Trim(username) != [] && !ContainsChar(Trim(username), ' ')
    ensures GetUserInitials(username) == [ToUpperChar(Trim(username)[0])]
  {
    var t := Trim(username);
    assert IndexOf(t, ' ').None?;
    assert Split(t, ' ') == [t];
  }

  // ---------------------------------------------------------------------------
  // `formatRelativeTime`

  const MinuteMs: int := 60000
  const HourMs: int := 3600000
  const DayMs: int := 86400000

  /** "N unit(s) ago", with the plural `s` exactly when N is not 1. */
  function Ago(n: int, unit: string): string {
    IntToString(n) + " " + unit + (if n != 1 then "s" else "") + " ago"
  }

  /** `formatRelativeTime` for a date `diffMs` milliseconds in the past; None
      stands for the locale-formatted date shown for a week or more. */
  function FormatRelativeTime(diffMs: int): Option<string> {
    var mins := diffMs / MinuteMs;
    var hours := diffMs / HourMs;
    var days := diffMs / DayMs;
    if mins < 1 then Some("just now")
    else if mins < 60 then Some(Ago(mins, "minute"))
    else if hours < 24 then Some(Ago(hours, "hour"))
    else if days < 7 then Some(Ago(days, "day"))
    else None
  }

  /** The buckets, by elapsed milliseconds: under a minute (future dates too) is
      "just now"; then whole minutes below an hour, whole hours below a day, whole
      days below a week, each count rounded down; a week or more is a date. */
  lemma RelativeTimeBuckets(diffMs: int)
    ensures diffMs < MinuteMs <==> FormatRelativeTime(diffMs) == Some("just now")
    ensures MinuteMs <= diffMs < HourMs ==>
      exists n :: 1 <= n < 60 && n * MinuteMs <= diffMs < (n + 1) * MinuteMs && FormatRelativeTime(diffMs) == Some(Ago(n, "minute"))
    ensures HourMs <= diffMs < DayMs ==>
      exists n :: 1 <= n < 24 && n * HourMs <= diffMs < (n + 1) * HourMs && FormatRelativeTime(diffMs) == Some(Ago(n, "hour"))
    ensures DayMs <= diffMs < 7 * DayMs ==>
      exists n :: 1 <= n < 7 && n * DayMs <= diffMs < (n + 1) * DayMs && FormatRelativeTime(diffMs) == Some(Ago(n, "day"))
    ensures FormatRelativeTime(diffMs).None? <==> diffMs >= 7 * DayMs
  {
    var mins := diffMs / MinuteMs;
    if diffMs >= MinuteMs {
      assert mins >= 1;
      assert Ago(mins, "minute") != "just now" by {
        assert IntToString(mins)[0] != 'j';
      }
    }
    if diffMs >= HourMs {
      assert mins >= 60;
    }
  }
}
