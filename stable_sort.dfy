// A stable sort by a two-part key (compared lexicographically), the
// behaviour of JavaScript's Array.prototype.sort (stable since ES2019)
// when its comparator orders elements by such a key. It is used by the
// fuzzy search (key: doubled score) and by the shared-playlists store
// (key: viewed flag, then negated share time).

module StableSort {

  datatype Keyed<T> = Keyed(item: T, major: int, minor: int)

  /** The comparator's "a may stay before b" relation. */
  predicate KeyLe<T>(a: Keyed<T>, b: Keyed<T>)
  {
    a.major < b.major || (a.major == b.major && a.minor <= b.minor)
  }

  predicate SameKey<T>(a: Keyed<T>, b: Keyed<T>)
  {
    a.major == b.major && a.minor == b.minor
  }

  predicate Sorted<T>(s: seq<Keyed<T>>)
  {
    forall i, j :: 0 <= i < j < |s| ==> KeyLe(s[i], s[j])
  }

  /** The elements of `s` whose key is (major, minor), in their order in `s`. */
  function WithKey<T>(s: seq<Keyed<T>>, major: int, minor: int): (r: seq<Keyed<T>>)
    ensures |r| <= |s|
  {
    if s == [] then []
    else if s[0].major == major && s[0].minor == minor then [s[0]] + WithKey(s[1..], major, minor)
    else WithKey(s[1..], major, minor)
  }

  /** Inserts `x` into sorted `s` after every element whose key is not greater. */
  function Insert<T>(x: Keyed<T>, s: seq<Keyed<T>>): (r: seq<Keyed<T>>)
    ensures |r| == |s| + 1
  {
    if s == [] then [x]
    else if !KeyLe(s[0], x) then [x] + s
    else [s[0]] + Insert(x, s[1..])
  }

  /** Insertion sort from left to right. */
  function Sort<T>(s: seq<Keyed<T>>): (r: seq<Keyed<T>>)
    ensures |r| == |s|
  {
    if s == [] then [] else Insert(s[|s| - 1], Sort(s[..|s| - 1]))
  }

  function Items<T>(s: seq<Keyed<T>>): (r: seq<T>)
    ensures |r| == |s|
    ensures forall i :: 0 <= i < |s| ==> r[i] == s[i].item
  {
    if s == [] then [] else [s[0].item] + Items(s[1..])
  }

  lemma {:induction false} InsertSorted<T>(x: Keyed<T>, s: seq<Keyed<T>>)
    requires Sorted(s)
    ensures Sorted(Insert(x, s))
    ensures multiset(Insert(x, s)) == multiset(s) + multiset{x}
  {
    InsertPermutes(x, s);
    if s != [] && KeyLe(s[0], x) {
      InsertSorted(x, s[1..]);
      var r := Insert(x, s[1..]);
      InsertPermutes(x, s[1..]);
      forall k | 0 <= k < |r|
        ensures KeyLe(s[0], r[k])
      {
        assert r[k] in multiset(r);
        if r[k] != x {
          assert r[k] in multiset(s[1..]);
          var m :| 0 <= m < |s[1..]| && s[1..][m] == r[k];
          assert s[m + 1] == r[k];
        }
      }
    }
  }

  /** Insertion adds `x` and keeps every other element. */
  lemma {:induction false} InsertPermutes<T>(x: Keyed<T>, s: seq<Keyed<T>>)
    ensures multiset(Insert(x, s)) == multiset(s) + multiset{x}
  {
    if s == [] {
    } else if !KeyLe(s[0], x) {
      assert multiset([x] + s) == multiset{x} + multiset(s);
    } else {
      InsertPermutes(x, s[1..]);
      assert s == [s[0]] + s[1..];
      assert multiset([s[0]] + Insert(x, s[1..])) == multiset{s[0]} + multiset(Insert(x, s[1..]));
    }
  }

  lemma {:induction false} InsertWithKey<T>(x: Keyed<T>, s: seq<Keyed<T>>, major: int, minor: int)
    requires Sorted(s)
    ensures x.major == major && x.minor == minor ==> WithKey(Insert(x, s), major, minor) == WithKey(s, major, minor) + [x]
    ensures !(x.major == major && x.minor == minor) ==> WithKey(Insert(x, s), major, minor) == WithKey(s, major, minor)
  {
    if s == [] {
    } else if !KeyLe(s[0], x) {
      assert Insert(x, s)[1..] == s;
      if x.major == major && x.minor == minor {
        // every element of s has a key above x's, so none has x's key
        NoneWithKey(s, major, minor);
      }
    } else {
      InsertWithKey(x, s[1..], major, minor);
      assert Insert(x, s)[1..] == Insert(x, s[1..]);
    }
  }

  lemma {:induction false} NoneWithKey<T>(s: seq<Keyed<T>>, major: int, minor: int)
    requires Sorted(s)
    requires s != [] && (s[0].major > major || (s[0].major == major && s[0].minor > minor))
    ensures WithKey(s, major, minor) == []
  {
    if |s| > 1 {
      assert KeyLe(s[0], s[1]);
      NoneWithKey(s[1..], major, minor);
    }
  }

  /** The sort orders by key, keeps the multiset of elements, and keeps
      elements of equal key in their original order. */
  lemma {:induction false} SortCorrect<T>(s: seq<Keyed<T>>)
    ensures Sorted(Sort(s))
    ensures multiset(Sort(s)) == multiset(s)
    ensures forall major, minor :: WithKey(Sort(s), major, minor) == WithKey(s, major, minor)
  {
    if s != [] {
      var init := s[..|s| - 1];
      var x := s[|s| - 1];
      SortCorrect(init);
      InsertSorted(x, Sort(init));
      assert s == init + [x];
      forall major, minor
        ensures WithKey(Sort(s), major, minor) == WithKey(s, major, minor)
      {
        InsertWithKey(x, Sort(init), major, minor);
        WithKeyAppend(init, x, major, minor);
      }
    }
  }

  lemma {:induction false} WithKeyAppend<T>(s: seq<Keyed<T>>, x: Keyed<T>, major: int, minor: int)
    ensures x.major == major && x.minor == minor ==> WithKey(s + [x], major, minor) == WithKey(s, major, minor) + [x]
    ensures !(x.major == major && x.minor == minor) ==> WithKey(s + [x], major, minor) == WithKey(s, major, minor)
  {
    if s != [] {
      assert (s + [x])[1..] == s[1..] + [x];
      WithKeyAppend(s[1..], x, major, minor);
    }
  }

  /** Sortedness, same elements and per-key order determine the result:
      any sequence with these three properties is `Sort(s)`. */
  lemma {:induction false} SortUnique<T>(s: seq<Keyed<T>>, r: seq<Keyed<T>>)
    requires Sorted(r)
    requires forall major, minor :: WithKey(r, major, minor) == WithKey(s, major, minor)
    requires multiset(r) == multiset(s)
    ensures r == Sort(s)
  {
    SortCorrect(s);
    SortedSameGroupsEqual(r, Sort(s));
  }

  lemma {:induction false} SortedSameGroupsEqual<T>(a: seq<Keyed<T>>, b: seq<Keyed<T>>)
    requires Sorted(a) && Sorted(b)
    requires multiset(a) == multiset(b)
    requires forall major, minor :: WithKey(a, major, minor) == WithKey(b, major, minor)
    ensures a == b
  {
    assert |a| == |multiset(a)| == |b|;
    if a != [] {
      SameHead(a, b);
      TailMultiset(a, b);
      forall mj, mn
        ensures WithKey(a[1..], mj, mn) == WithKey(b[1..], mj, mn)
      {
        assert WithKey(a, mj, mn) == WithKey(b, mj, mn);
        if a[0].major == mj && a[0].minor == mn {
          assert WithKey(a, mj, mn) == [a[0]] + WithKey(a[1..], mj, mn);
          assert WithKey(b, mj, mn) == [a[0]] + WithKey(b[1..], mj, mn);
          assert WithKey(a, mj, mn)[1..] == WithKey(a[1..], mj, mn);
        }
      }
      SortedSameGroupsEqual(a[1..], b[1..]);
      assert a == [a[0]] + a[1..] && b == [b[0]] + b[1..];
    }
  }

  lemma SameHead<T>(a: seq<Keyed<T>>, b: seq<Keyed<T>>)
    requires Sorted(a) && Sorted(b) && a != [] && b != []
    requires multiset(a) == multiset(b)
    requires forall major, minor :: WithKey(a, major, minor) == WithKey(b, major, minor)
    ensures a[0] == b[0]
  {
    // the heads share a key: each is minimal in the common multiset
    assert a[0] in multiset(b);
    var i :| 0 <= i < |b| && b[i] == a[0];
    assert b[0] in multiset(a);
    var j :| 0 <= j < |a| && a[j] == b[0];
    assert KeyLe(b[0], b[i]) && KeyLe(a[0], a[j]);
    var major, minor := a[0].major, a[0].minor;
    assert WithKey(a, major, minor) == WithKey(b, major, minor);
    assert WithKey(a, major, minor)[0] == a[0];
    assert WithKey(b, major, minor)[0] == b[0];
  }

  lemma TailMultiset<T>(a: seq<Keyed<T>>, b: seq<Keyed<T>>)
    requires a != [] && b != [] && a[0] == b[0]
    requires multiset(a) == multiset(b)
    ensures multiset(a[1..]) == multiset(b[1..])
  {
    assert a == [a[0]] + a[1..] && b == [b[0]] + b[1..];
    assert multiset(a) == multiset{a[0]} + multiset(a[1..]);
    assert multiset(b) == multiset{b[0]} + multiset(b[1..]);
    assert multiset(a[1..]) == multiset(a) - multiset{a[0]};
  }
}
