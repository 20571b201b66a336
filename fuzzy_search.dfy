// The fuzzy search used by the list screens: a Levenshtein distance, a
// similarity score of a query against a text, and the filtered, ranked
// list of items.
//
// Scores are DOUBLED throughout so that they are integers: the source's
// 0, 0.5, 1, 2, 3 and distance + 4 are 0, 1, 2, 4, 6 and 2 * (distance + 4)
// here, and its thresholds 3, 4, 5, 6 are 6, 8, 10, 12.

module FuzzySearch {
  import opened Wrappers
  import opened Text
  import opened StableSort

  function Min(a: nat, b: nat): nat { if a <= b then a else b }

  function Min3(a: nat, b: nat, c: nat): (r: nat)
    ensures r <= a && r <= b && r <= c
    ensures r == a || r == b || r == c
  {
    if a <= b && a <= c then a else if b <= c then b else c
  }

  /** Edit distance between the first `i` characters of `s` and the first
      `j` of `t`: insertions, deletions and substitutions of one character
      each cost 1. */
  function Dist(s: string, t: string, i: nat, j: nat): nat
    requires i <= |s| && j <= |t|
    decreases i + j
  {
    if i == 0 then j
    else if j == 0 then i
    else Min3(Dist(s, t, i - 1, j) + 1,
              Dist(s, t, i, j - 1) + 1,
              Dist(s, t, i - 1, j - 1) + (if s[i - 1] == t[j - 1] then 0 else 1))
  }

  /** The Levenshtein distance of two strings. */
  function Lev(s: string, t: string): nat
  {
    Dist(s, t, |s|, |t|)
  }

  /** The table algorithm: row and column 0 hold the distances to the
      empty string, and every other cell the minimum over its neighbours. */
  method LevenshteinDistance(s: string, t: string) returns (d: nat)
    ensures d == Lev(s, t)
  {
    var m := new nat[|s| + 1, |t| + 1];
    var i := 0;
    while i <= |s|
      invariant 0 <= i <= |s| + 1
      invariant forall a :: 0 <= a < i ==> m[a, 0] == a
    {
      m[i, 0] := i;
      i := i + 1;
    }
    var j := 0;
    while j <= |t|
      invariant 0 <= j <= |t| + 1
      invariant forall b :: 0 <= b < j ==> m[0, b] == b
      invariant forall a :: 1 <= a <= |s| ==> m[a, 0] == a
    {
      m[0, j] := j;
      j := j + 1;
    }
    i := 1;
    while i <= |s|
      invariant 1 <= i <= |s| + 1
      invariant forall a, b {:trigger m[a, b]} :: 0 <= a < i && 0 <= b <= |t| ==> m[a, b] == Dist(s, t, a, b)
      invariant forall a :: i <= a <= |s| ==> m[a, 0] == a
    {
      FillRow(m, s, t, i);
      i := i + 1;
    }
    d := m[|s|, |t|];
  }

  /** The inner loop of the table algorithm: fills row `i` from row `i - 1`. */
  method FillRow(m: array2<nat>, s: string, t: string, i: nat)
    requires m.Length0 == |s| + 1 && m.Length1 == |t| + 1 && 1 <= i <= |s|
    requires forall a, b {:trigger m[a, b]} :: 0 <= a < i && 0 <= b <= |t| ==> m[a, b] == Dist(s, t, a, b)
    requires m[i, 0] == i
    modifies m
    ensures forall b {:trigger m[i, b]} :: 0 <= b <= |t| ==> m[i, b] == Dist(s, t, i, b)
    ensures forall a, b :: 0 <= a < m.Length0 && 0 <= b < m.Length1 && a != i ==> m[a, b] == old(m[a, b])
  {
    var j := 1;
    while j <= |t|
      invariant 1 <= j <= |t| + 1
      invariant forall b {:trigger m[i, b]} :: 0 <= b < j ==> m[i, b] == Dist(s, t, i, b)
      invariant forall a, b :: 0 <= a < m.Length0 && 0 <= b < m.Length1 && a != i ==> m[a, b] == old(m[a, b])
    {
      var cost := if s[i - 1] == t[j - 1] then 0 else 1;
      assert m[i - 1, j] == Dist(s, t, i - 1, j) && m[i - 1, j - 1] == Dist(s, t, i - 1, j - 1);
      assert m[i, j - 1] == Dist(s, t, i, j - 1);
      DistStep(s, t, i, j);
      m[i, j] := Min3(m[i - 1, j] + 1, m[i, j - 1] + 1, m[i - 1, j - 1] + cost);
      j := j + 1;
    }
  }

  lemma {:induction false} DistSelf(s: string, i: nat)
    requires i <= |s|
    ensures Dist(s, s, i, i) == 0
  {
    if i > 0 {
      DistSelf(s, i - 1);
    }
  }

  lemma LevSelf(s: string)
    ensures Lev(s, s) == 0
  {
    DistSelf(s, |s|);
  }

  /** One cell in terms of its three neighbours. */
  lemma DistStep(s: string, t: string, i: nat, j: nat)
    requires 1 <= i <= |s| && 1 <= j <= |t|
    ensures Dist(s, t, i, j) == Min3(Dist(s, t, i - 1, j) + 1, Dist(s, t, i, j - 1) + 1,
                                     Dist(s, t, i - 1, j - 1) + (if s[i - 1] == t[j - 1] then 0 else 1))
  {
  }

  lemma {:induction false} DistLower(s: string, t: string, i: nat, j: nat)
    requires i <= |s| && j <= |t|
    ensures i - j <= Dist(s, t, i, j) && j - i <= Dist(s, t, i, j)
    decreases i + j
  {
    if i > 0 && j > 0 {
      DistLower(s, t, i - 1, j);
      DistLower(s, t, i, j - 1);
      DistLower(s, t, i - 1, j - 1);
      DistStep(s, t, i, j);
    }
  }

  lemma {:induction false} DistUpper(s: string, t: string, i: nat, j: nat)
    requires i <= |s| && j <= |t|
    ensures Dist(s, t, i, j) <= if i <= j then j else i
    decreases i + j
  {
    if i > 0 && j > 0 {
      DistUpper(s, t, i - 1, j - 1);
      DistStep(s, t, i, j);
    }
  }

  lemma DistBounds(s: string, t: string, i: nat, j: nat)
    requires i <= |s| && j <= |t|
    ensures i - j <= Dist(s, t, i, j) && j - i <= Dist(s, t, i, j)
    ensures Dist(s, t, i, j) <= if i <= j then j else i
  {
    DistLower(s, t, i, j);
    DistUpper(s, t, i, j);
  }

  /** The distance is at least the difference in length and at most the
      longer length. */
  lemma LevBounds(s: string, t: string)
    ensures |s| - |t| <= Lev(s, t) && |t| - |s| <= Lev(s, t)
    ensures Lev(s, t) <= if |s| <= |t| then |t| else |s|
  {
    DistBounds(s, t, |s|, |t|);
  }

  lemma {:induction false} DistZeroIff(s: string, t: string, i: nat, j: nat)
    requires i <= |s| && j <= |t|
    ensures Dist(s, t, i, j) == 0 <==> i == j && s[..i] == t[..j]
    decreases i + j
  {
    if i > 0 && j > 0 {
      // the first two neighbours cost at least 1, so only the diagonal can give 0
      DistStep(s, t, i, j);
      DistZeroIff(s, t, i - 1, j - 1);
      PrefixesExtend(s, t, i, j);
    }
  }

  lemma PrefixesExtend(s: string, t: string, i: nat, j: nat)
    requires 1 <= i <= |s| && 1 <= j <= |t|
    ensures (i == j && s[..i] == t[..j]) <==> (i - 1 == j - 1 && s[..i - 1] == t[..j - 1] && s[i - 1] == t[j - 1])
  {
    assert s[..i] == s[..i - 1] + [s[i - 1]];
    assert t[..j] == t[..j - 1] + [t[j - 1]];
    if i == j && s[..i] == t[..j] {
      assert s[..i - 1] == s[..i][..i - 1];
      assert t[..j - 1] == t[..j][..j - 1];
      assert s[i - 1] == s[..i][i - 1];
      assert t[j - 1] == t[..j][j - 1];
    }
  }

  /** Distance 0 means equal strings. */
  lemma LevZeroIff(s: string, t: string)
    ensures Lev(s, t) == 0 <==> s == t
  {
    DistZeroIff(s, t, |s|, |t|);
    assert s[..|s|] == s && t[..|t|] == t;
  }

  lemma {:induction false} DistSymmetric(s: string, t: string, i: nat, j: nat)
    requires i <= |s| && j <= |t|
    ensures Dist(s, t, i, j) == Dist(t, s, j, i)
    decreases i + j
  {
    if i > 0 && j > 0 {
      DistSymmetric(s, t, i - 1, j);
      DistSymmetric(s, t, i, j - 1);
      DistSymmetric(s, t, i - 1, j - 1);
      DistStep(s, t, i, j);
      DistStep(t, s, j, i);
    }
  }

  lemma LevSymmetric(s: string, t: string)
    ensures Lev(s, t) == Lev(t, s)
  {
    DistSymmetric(s, t, |s|, |t|);
  }

  /** Index of the first white-space character of `s` at or after `k`, or |s|. */
  function NextWhitespace(s: string, k: nat): (r: nat)
    requires k <= |s|
    ensures k <= r <= |s|
    ensures forall i :: k <= i < r ==> !IsWhitespace(s[i])
    ensures r < |s| ==> IsWhitespace(s[r])
    decreases |s| - k
  {
    if k == |s| || IsWhitespace(s[k]) then k else NextWhitespace(s, k + 1)
  }

  /** Index of the first non-white-space character of `s` at or after `k`, or |s|. */
  function NextNonWhitespace(s: string, k: nat): (r: nat)
    requires k <= |s|
    ensures k <= r <= |s|
    ensures forall i :: k <= i < r ==> IsWhitespace(s[i])
    ensures r < |s| ==> !IsWhitespace(s[r])
    decreases |s| - k
  {
    if k == |s| || !IsWhitespace(s[k]) then k else NextNonWhitespace(s, k + 1)
  }

  /** `split(/\s+/)`: the pieces between maximal runs of white space; white
      space at either end gives an empty first or last piece. */
  function Words(s: string): (ws: seq<string>)
    ensures |ws| >= 1
    ensures forall i, k :: 0 <= i < |ws| && 0 <= k < |ws[i]| ==> !IsWhitespace(ws[i][k])
    decreases |s|
  {
    var i := NextWhitespace(s, 0);
    if i == |s| then [s]
    else [s[..i]] + Words(s[NextNonWhitespace(s, i)..])
  }

  /** Every word is a piece of the text. */
  lemma {:induction false} WordsAreInfixes(s: string)
    ensures forall k :: 0 <= k < |Words(s)| ==> IsInfix(Words(s)[k], s)
    decreases |s|
  {
    var i := NextWhitespace(s, 0);
    if i == |s| {
      SlicesAreInfixes(s, |s|, 0);
    } else {
      var rest := s[NextNonWhitespace(s, i)..];
      var ws := Words(s);
      assert ws == [s[..i]] + Words(rest);
      WordsAreInfixes(rest);
      SlicesAreInfixes(s, i, NextNonWhitespace(s, i));
      forall k | 0 <= k < |ws|
        ensures IsInfix(ws[k], s)
      {
        if k > 0 {
          assert ws[k] == Words(rest)[k - 1];
          InfixTransitive(ws[k], rest, s);
        }
      }
    }
  }

  lemma SlicesAreInfixes(s: string, i: nat, j: nat)
    requires i <= |s| && j <= |s|
    ensures IsInfix(s[..i], s) && IsInfix(s[j..], s)
  {
    assert IsPrefix(s[..i], s[0..]);
    assert IsPrefix(s[j..], s[j..]);
  }

  /** Doubled score of one word against the lower-cased query. */
  function WordScore(q: string, w: string): (score: nat)
    ensures score >= 4
  {
    if IsPrefix(q, w) then 4
    else if IsInfix(q, w) then 6
    else 2 * (Lev(q, w) + 4)
  }

  /** The least word score. */
  function MinScore(q: string, ws: seq<string>): (score: nat)
    requires |ws| >= 1
    ensures score >= 4
  {
    if |ws| == 1 then WordScore(q, ws[0])
    else Min(MinScore(q, ws[..|ws| - 1]), WordScore(q, ws[|ws| - 1]))
  }

  lemma {:induction false} MinScoreIsLeast(q: string, ws: seq<string>)
    requires |ws| >= 1
    ensures forall i :: 0 <= i < |ws| ==> MinScore(q, ws) <= WordScore(q, ws[i])
    ensures exists i :: 0 <= i < |ws| && MinScore(q, ws) == WordScore(q, ws[i])
  {
    if |ws| > 1 {
      var init := ws[..|ws| - 1];
      MinScoreIsLeast(q, init);
      var k :| 0 <= k < |init| && MinScore(q, init) == WordScore(q, init[k]);
      if MinScore(q, ws) == WordScore(q, ws[|ws| - 1]) {
        assert 0 <= |ws| - 1 < |ws|;
      } else {
        assert ws[k] == init[k];
      }
      forall i | 0 <= i < |ws|
        ensures MinScore(q, ws) <= WordScore(q, ws[i])
      {
        if i < |ws| - 1 {
          assert ws[i] == init[i];
        }
      }
    }
  }

  /** Doubled `calculateSimilarity`: 0 for an exact match, 1 for a prefix,
      2 for a substring, otherwise the best word score. Both sides are
      lower-cased first. */
  function Similarity(query: string, text: string): nat
  {
    var q := ToLower(query);
    var t := ToLower(text);
    if t == q then 0
    else if IsPrefix(q, t) then 1
    else if IsInfix(q, t) then 2
    else MinScore(q, Words(t))
  }

  /** `calculateSimilarity`. */
  method CalculateSimilarity(query: string, text: string) returns (score: nat)
    ensures score == Similarity(query, text)
  {
    var q := ToLower(query);
    var t := ToLower(text);
    if t == q {
      return 0;
    }
    if IsPrefix(q, t) {
      return 1;
    }
    if IsInfix(q, t) {
      return 2;
    }
    score := ScoreWords(q, Words(t));
  }

  /** The loop over the words of `calculateSimilarity`: it returns 2
      (doubled: 4) at the first word the query begins, and otherwise keeps
      the least score seen, starting from infinity. */
  method ScoreWords(q: string, words: seq<string>) returns (score: nat)
    requires |words| >= 1
    ensures score == MinScore(q, words)
  {
    var minDistance: Option<nat> := None;
    var k := 0;
    while k < |words|
      invariant 0 <= k <= |words|
      invariant k == 0 <==> minDistance == None
      invariant k > 0 ==> minDistance == Some(MinScore(q, words[..k]))
    {
      var word := words[k];
      if IsPrefix(q, word) {
        MinScoreIsLeast(q, words);
        return 4;
      }
      var d: nat;
      if IsInfix(q, word) {
        d := 6;
      } else {
        var distance := LevenshteinDistance(q, word);
        d := 2 * (distance + 4);
      }
      assert words[..k + 1][..k] == words[..k];
      minDistance := if minDistance == None then Some(d) else Some(Min(minDistance.value, d));
      k := k + 1;
    }
    assert words[..|words|] == words;
    score := minDistance.value;
  }

  /** What the low scores mean: 0 exactly for equal texts, at most 1
      (doubled 0.5) exactly for texts starting with the query, at most 2
      exactly for texts containing it. */
  lemma SimilarityMatchLevels(query: string, text: string)
    ensures Similarity(query, text) == 0 <==> ToLower(text) == ToLower(query)
    ensures Similarity(query, text) <= 1 <==> IsPrefix(ToLower(query), ToLower(text))
    ensures Similarity(query, text) <= 2 <==> IsInfix(ToLower(query), ToLower(text))
  {
    MatchOrder(ToLower(query), ToLower(text));
  }

  /** When the text does not contain the query, neither does any of its
      words, so the per-word prefix and substring branches never fire. */
  lemma WordsFar(q: string, t: string)
    requires !IsInfix(q, t)
    ensures forall i :: 0 <= i < |Words(t)| ==> WordScore(q, Words(t)[i]) == 2 * (Lev(q, Words(t)[i]) + 4)
  {
    var ws := Words(t);
    WordsAreInfixes(t);
    forall i | 0 <= i < |ws|
      ensures WordScore(q, ws[i]) == 2 * (Lev(q, ws[i]) + 4)
    {
      if IsPrefix(q, ws[i]) {
        PrefixIsInfix(q, ws[i]);
      }
      if IsInfix(q, ws[i]) {
        InfixTransitive(q, ws[i], t);
      }
    }
  }

  lemma SimilarityIsMinScore(query: string, text: string)
    requires !IsInfix(ToLower(query), ToLower(text))
    ensures Similarity(query, text) == MinScore(ToLower(query), Words(ToLower(text)))
  {
    MatchOrder(ToLower(query), ToLower(text));
  }

  /** Equal implies prefix implies substring. */
  lemma MatchOrder(q: string, t: string)
    ensures t == q ==> IsPrefix(q, t)
    ensures IsPrefix(q, t) ==> IsInfix(q, t)
  {
    if IsPrefix(q, t) {
      PrefixIsInfix(q, t);
    }
  }

  /** Without a substring match the score is the least doubled
      `distance + 4` over the words. */
  lemma SimilarityFuzzy(query: string, text: string)
    requires !IsInfix(ToLower(query), ToLower(text))
    ensures var q, ws := ToLower(query), Words(ToLower(text));
      && Similarity(query, text) >= 8
      && (forall i :: 0 <= i < |ws| ==> Similarity(query, text) <= 2 * (Lev(q, ws[i]) + 4))
      && (exists i :: 0 <= i < |ws| && Similarity(query, text) == 2 * (Lev(q, ws[i]) + 4))
  {
    var q, t := ToLower(query), ToLower(text);
    var ws := Words(t);
    SimilarityIsMinScore(query, text);
    WordsFar(q, t);
    MinScoreIsLeast(q, ws);
    var k :| 0 <= k < |ws| && MinScore(q, ws) == WordScore(q, ws[k]);
    assert Similarity(query, text) == 2 * (Lev(q, ws[k]) + 4);
  }

  /** `maxDistance`, doubled, chosen by the trimmed query's length. */
  function MaxScore(queryLength: nat): (max: nat)
    ensures max == 6 || max == 8 || max == 10 || max == 12
  {
    2 * (if queryLength <= 2 then 3 else if queryLength <= 4 then 4 else if queryLength <= 6 then 5 else 6)
  }

  predicate Kept(query: string, text: string)
  {
    Similarity(query, text) <= MaxScore(|query|)
  }

  /** An item passes the filter when its text contains the query, or when
      some word is within `maxDistance - 4` edits of it. For queries of at
      most four characters that leaves only texts containing the query:
      a word at distance 0 would itself be the query, inside the text. */
  lemma KeptMeaning(query: string, text: string)
    ensures Kept(query, text) <==>
      var q, ws := ToLower(query), Words(ToLower(text));
      IsInfix(q, ToLower(text)) || exists i :: 0 <= i < |ws| && 2 * (Lev(q, ws[i]) + 4) <= MaxScore(|query|)
    ensures |query| <= 4 ==> (Kept(query, text) <==> IsInfix(ToLower(query), ToLower(text)))
  {
    var q, t := ToLower(query), ToLower(text);
    var ws := Words(t);
    SimilarityMatchLevels(query, text);
    if !IsInfix(q, t) {
      SimilarityFuzzy(query, text);
    }
    if |query| <= 4 {
      WordsAreInfixes(t);
      forall i | 0 <= i < |ws| && 2 * (Lev(q, ws[i]) + 4) <= MaxScore(|query|)
        ensures IsInfix(q, t)
      {
        LevZeroIff(q, ws[i]);
      }
    }
  }

  /** The items paired with their doubled scores, in input order. */
  function Scored<T>(items: seq<T>, query: string, text: T -> string): (r: seq<Keyed<T>>)
    ensures |r| == |items|
    ensures forall i :: 0 <= i < |items| ==> r[i] == Keyed(items[i], Similarity(query, text(items[i])), 0)
  {
    if items == [] then []
    else [Keyed(items[0], Similarity(query, text(items[0])), 0)] + Scored(items[1..], query, text)
  }

  /** The scored items at or under `max`, in input order. */
  function Within<T>(s: seq<Keyed<T>>, max: int): (r: seq<Keyed<T>>)
    ensures forall i :: 0 <= i < |r| ==> r[i] in s && r[i].major <= max
    ensures forall x :: x in s && x.major <= max ==> x in r
  {
    if s == [] then []
    else if s[0].major <= max then [s[0]] + Within(s[1..], max)
    else Within(s[1..], max)
  }

  /** The kept items, stably sorted by score. */
  function Ranked<T>(items: seq<T>, query: string, text: T -> string): seq<Keyed<T>>
  {
    var q := Trim(query);
    Sort(Within(Scored(items, q, text), MaxScore(|q|)))
  }

  /** `filteredItems`. */
  function FilteredItems<T>(items: seq<T>, query: string, text: T -> string): seq<T>
  {
    if Trim(query) == [] then items else Items(Ranked(items, query, text))
  }

  /** A blank query keeps the list as it is; otherwise the result holds
      exactly the items that pass the filter, best score first, items of
      equal score in their input order. */
  lemma FilteredItemsCorrect<T>(items: seq<T>, query: string, text: T -> string)
    ensures Trim(query) == [] ==> FilteredItems(items, query, text) == items
    ensures Trim(query) != [] ==>
      var q, r := Trim(query), Ranked(items, query, text);
      var kept := Within(Scored(items, q, text), MaxScore(|q|));
      && FilteredItems(items, query, text) == Items(r)
      && multiset(r) == multiset(kept)
      && (forall i :: 0 <= i < |r| ==> r[i].major == Similarity(q, text(r[i].item)) && Kept(q, text(r[i].item)))
      && (forall i, j :: 0 <= i < j < |r| ==> r[i].major <= r[j].major)
      && (forall score :: WithKey(r, score, 0) == WithKey(kept, score, 0))
  {
    if Trim(query) != [] {
      var q, r := Trim(query), Ranked(items, query, text);
      var scored := Scored(items, q, text);
      var kept := Within(scored, MaxScore(|q|));
      SortCorrect(kept);
      forall i | 0 <= i < |r|
        ensures r[i].major == Similarity(q, text(r[i].item)) && Kept(q, text(r[i].item))
      {
        assert r[i] in multiset(kept);
        assert r[i] in kept;
        assert r[i] in scored;
        var k :| 0 <= k < |scored| && scored[k] == r[i];
      }
      forall i, j | 0 <= i < j < |r|
        ensures r[i].major <= r[j].major
      {
        assert KeyLe(r[i], r[j]);
      }
    }
  }
}
