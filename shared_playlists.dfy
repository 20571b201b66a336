// The store of playlists other users shared with this one: a throttled
// fetch, the entry added from a notification, marking an entry viewed,
// the count of unviewed entries and the display order.
//
// The backend call is replaced by its outcome and the clock by a
// parameter. A fetch is split at its `await`: `BeginFetch` is what runs
// before the backend answers, `FinishFetch` what runs after.

module SharedPlaylists {
  import opened Wrappers
  import opened Text
  import opened StableSort

  /** An unforced fetch within this many milliseconds of the last one is skipped. */
  const ThrottleMs: int := 30000

  const DefaultSharer := "A friend"

  datatype SharedPlaylist = SharedPlaylist(
    id: int,
    playlistId: Option<int>,   // None: `parseInt` gave NaN
    playlistName: string,
    sharedByUserId: int,
    sharedByUsername: string,
    sharedAt: string,
    viewed: bool)

  /** Length of the run of decimal digits at the start of `s`. */
  function DigitRun(s: string): (n: nat)
    ensures n <= |s| && AllDigits(s[..n])
    ensures n < |s| ==> !IsDigit(s[n])
  {
    if s == [] || !IsDigit(s[0]) then 0
    else
      var n := 1 + DigitRun(s[1..]);
      assert s[..n] == [s[0]] + s[1..][..n - 1];
      n
  }

  /** JavaScript's `parseInt(s, 10)`: leading white space and one sign are
      skipped, then the longest run of digits is read; no digit gives NaN. */
  function ParseIntPrefix(s: string): Option<int>
  {
    var t := TrimStart(s);
    var signed := |t| > 0 && (t[0] == '-' || t[0] == '+');
    var body := if signed then t[1..] else t;
    var n := DigitRun(body);
    if n == 0 then None
    else if signed && t[0] == '-' then Some(0 - DigitsValue(body[..n]))
    else Some(DigitsValue(body[..n]))
  }

  lemma {:induction false} DigitRunOfDigits(s: string)
    requires AllDigits(s)
    ensures DigitRun(s) == |s|
  {
    if s != [] {
      DigitRunOfDigits(s[1..]);
    }
  }

  lemma {:induction false} ParseDigits(body: string)
    requires |body| >= 1 && AllDigits(body)
    ensures DigitRun(body) == |body| && body[..DigitRun(body)] == body
  {
    DigitRunOfDigits(body);
  }

  /** Ids rendered in decimal parse back to themselves. */
  lemma ParseIntPrefixOfDecimal(n: int)
    ensures ParseIntPrefix(IntToString(n)) == Some(n)
  {
    var s := IntToString(n);
    if n < 0 {
      assert s == "-" + NatToString(-n);
      assert s[1..] == NatToString(-n);
      assert TrimStart(s) == s;
      ParseDigits(s[1..]);
      NatToStringValue(-n);
    } else {
      assert IsDigit(s[0]);
      assert TrimStart(s) == s;
      ParseDigits(s);
      NatToStringValue(n);
    }
  }

  /** `unviewedCount`. */
  function UnviewedCount(ps: seq<SharedPlaylist>): (n: nat)
    ensures n <= |ps|
  {
    if ps == [] then 0 else (if ps[0].viewed then 0 else 1) + UnviewedCount(ps[1..])
  }

  /** Index of the first entry with id `id`, if any. */
  function FindIndex(ps: seq<SharedPlaylist>, id: int): (r: Option<nat>)
    ensures r.Some? ==> r.value < |ps| && ps[r.value].id == id && forall k :: 0 <= k < r.value ==> ps[k].id != id
    ensures r.None? ==> forall k :: 0 <= k < |ps| ==> ps[k].id != id
  {
    if ps == [] then None
    else if ps[0].id == id then Some(0)
    else match FindIndex(ps[1..], id)
      case None => None
      case Some(k) => Some(k + 1)
  }

  /** The entries after marking the first one with id `id` as viewed. */
  function MarkFirstViewed(ps: seq<SharedPlaylist>, id: int): (r: seq<SharedPlaylist>)
    ensures |r| == |ps|
  {
    match FindIndex(ps, id)
      case None => ps
      case Some(k) => ps[k := ps[k].(viewed := true)]
  }

  lemma {:induction false} UnviewedCountUpdate(ps: seq<SharedPlaylist>, k: nat, p: SharedPlaylist)
    requires k < |ps|
    ensures UnviewedCount(ps[k := p]) + (if ps[k].viewed then 0 else 1)
         == UnviewedCount(ps) + (if p.viewed then 0 else 1)
  {
    if k > 0 {
      UnviewedCountUpdate(ps[1..], k - 1, p);
      assert ps[k := p][1..] == ps[1..][k - 1 := p];
    }
  }

  /** Marking only touches the first matching entry, and the unviewed count
      drops by one exactly when that entry was unviewed. */
  lemma MarkFirstViewedEffect(ps: seq<SharedPlaylist>, id: int)
    ensures var r := MarkFirstViewed(ps, id);
      match FindIndex(ps, id)
        case None => r == ps
        case Some(k) =>
          && r[k] == ps[k].(viewed := true)
          && (forall j :: 0 <= j < |ps| && j != k ==> r[j] == ps[j])
          && UnviewedCount(r) == UnviewedCount(ps) - (if ps[k].viewed then 0 else 1)
  {
    match FindIndex(ps, id)
      case None =>
      case Some(k) =>
        UnviewedCountUpdate(ps, k, ps[k].(viewed := true));
  }

  /** The sort key of `sortedPlaylists`: unviewed first, then the most
      recent share first. `timeOf` is `new Date(s).getTime()`. */
  function Keys(ps: seq<SharedPlaylist>, timeOf: string -> int): (r: seq<Keyed<SharedPlaylist>>)
    ensures |r| == |ps|
    ensures forall i :: 0 <= i < |ps| ==> r[i] == Keyed(ps[i], if ps[i].viewed then 1 else 0, 0 - timeOf(ps[i].sharedAt))
  {
    if ps == [] then []
    else [Keyed(ps[0], if ps[0].viewed then 1 else 0, 0 - timeOf(ps[0].sharedAt))] + Keys(ps[1..], timeOf)
  }

  /** `sortedPlaylists`: a sorted copy; the state is not touched. */
  function SortedPlaylists(ps: seq<SharedPlaylist>, timeOf: string -> int): seq<SharedPlaylist>
  {
    Items(Sort(Keys(ps, timeOf)))
  }

  /** The sorted copy has the same entries, every unviewed one before every
      viewed one, and among entries of equal viewed state the later share
      first; entries that compare equal keep their order. */
  lemma SortedPlaylistsOrder(ps: seq<SharedPlaylist>, timeOf: string -> int)
    ensures var r := Sort(Keys(ps, timeOf));
      && SortedPlaylists(ps, timeOf) == Items(r)
      && multiset(r) == multiset(Keys(ps, timeOf))
      && (forall i :: 0 <= i < |r| ==> r[i] in Keys(ps, timeOf))
      && (forall i, j :: 0 <= i < j < |r| && !r[j].item.viewed ==> !r[i].item.viewed)
      && (forall i, j :: 0 <= i < j < |r| && r[i].item.viewed == r[j].item.viewed ==>
            timeOf(r[i].item.sharedAt) >= timeOf(r[j].item.sharedAt))
      && (forall v, t :: WithKey(r, v, t) == WithKey(Keys(ps, timeOf), v, t))
  {
    var keyed := Keys(ps, timeOf);
    var r := Sort(keyed);
    SortCorrect(keyed);
    forall i | 0 <= i < |r|
      ensures r[i] in keyed
    {
      assert r[i] in multiset(keyed);
    }
    forall i, j | 0 <= i < j < |r|
      ensures !r[j].item.viewed ==> !r[i].item.viewed
      ensures r[i].item.viewed == r[j].item.viewed ==> timeOf(r[i].item.sharedAt) >= timeOf(r[j].item.sharedAt)
    {
      assert KeyLe(r[i], r[j]);
      assert r[i] in keyed && r[j] in keyed;
    }
  }

  /** What a fetch did. */
  datatype FetchStatus = Skipped | Fetched | Failed(error: string)

  /** JavaScript truthiness of `lastFetch`: null and 0 are falsy. */
  predicate Throttled(lastFetch: Option<int>, force: bool, now: int)
  {
    !force && lastFetch.Some? && lastFetch.value != 0 && now - lastFetch.value < ThrottleMs
  }

  class Store {
    var playlists: seq<SharedPlaylist>
    var loading: bool
    var lastFetch: Option<int>

    constructor ()
      ensures playlists == [] && !loading && lastFetch == None
    {
      playlists := [];
      loading := false;
      lastFetch := None;
    }

    /** The part of `fetchSharedPlaylists` before the backend answers. */
    method BeginFetch(force: bool, now: int) returns (skipped: bool)
      modifies this
      ensures skipped == Throttled(old(lastFetch), force, now)
      ensures playlists == old(playlists) && lastFetch == old(lastFetch)
      ensures loading == (if skipped then old(loading) else true)
    {
      if !force && lastFetch.Some? && lastFetch.value != 0 && now - lastFetch.value < ThrottleMs {
        return true;
      }
      loading := true;
      return false;
    }

    /** The part of `fetchSharedPlaylists` after the backend answers;
        `startedAt` is the time taken when the fetch began. */
    method FinishFetch(startedAt: int, outcome: Result<seq<SharedPlaylist>, string>) returns (status: FetchStatus)
      modifies this
      ensures !loading
      ensures outcome.Ok? ==> playlists == outcome.value && lastFetch == Some(startedAt) && status == Fetched
      ensures outcome.Err? ==> playlists == old(playlists) && lastFetch == old(lastFetch) && status == Failed(outcome.error)
    {
      if outcome.Ok? {
        playlists := outcome.value;
        lastFetch := Some(startedAt);
        status := Fetched;
      } else {
        status := Failed(outcome.error);
      }
      loading := false;
    }

    /** `fetchSharedPlaylists(force)` run to completion. */
    method FetchSharedPlaylists(force: bool, now: int, outcome: Result<seq<SharedPlaylist>, string>) returns (status: FetchStatus)
      modifies this
      ensures Throttled(old(lastFetch), force, now) ==>
        status == Skipped && playlists == old(playlists) && loading == old(loading) && lastFetch == old(lastFetch)
      ensures !Throttled(old(lastFetch), force, now) ==>
        (!loading &&
         if outcome.Ok? then playlists == outcome.value && lastFetch == Some(now) && status == Fetched
         else playlists == old(playlists) && lastFetch == old(lastFetch) && status == Failed(outcome.error))
    {
      var skipped := BeginFetch(force, now);
      if skipped {
        return Skipped;
      }
      status := FinishFetch(now, outcome);
    }

    /** `addSharedPlaylist`: prepends the entry built from a notification
        and starts a forced refetch that is not awaited; when this returns
        that fetch has set `loading` and waits for the backend. */
    method AddSharedPlaylist(playlistId: string, playlistName: string, sharedByUsername: string, now: int, nowIso: string)
      modifies this
      ensures playlists == [SharedPlaylist(now, ParseIntPrefix(playlistId), playlistName, 0,
                                           if sharedByUsername == "" then DefaultSharer else sharedByUsername,
                                           nowIso, false)] + old(playlists)
      ensures UnviewedCount(playlists) == UnviewedCount(old(playlists)) + 1
      ensures loading && lastFetch == old(lastFetch)
    {
      var entry := SharedPlaylist(now, ParseIntPrefix(playlistId), playlistName, 0,
                                  if sharedByUsername == "" then DefaultSharer else sharedByUsername,
                                  nowIso, false);
      playlists := [entry] + playlists;
      assert playlists[1..] == old(playlists);
      var _ := BeginFetch(true, now);
    }

    /** `markAsViewed`: after the backend accepts, the first entry with the
        id is marked; a failure changes nothing and is passed on. */
    method MarkAsViewed(sharedPlaylistId: int, backend: Result<(), string>) returns (r: Result<(), string>)
      modifies this
      ensures r == backend
      ensures playlists == (if backend.Ok? then MarkFirstViewed(old(playlists), sharedPlaylistId) else old(playlists))
      ensures loading == old(loading) && lastFetch == old(lastFetch)
    {
      if backend.Err? {
        return backend;
      }
      var found := FindIndex(playlists, sharedPlaylistId);
      if found.Some? {
        var k := found.value;
        playlists := playlists[k := playlists[k].(viewed := true)];
      }
      return backend;
    }

    method Reset()
      modifies this
      ensures playlists == [] && !loading && lastFetch == None
    {
      playlists := [];
      loading := false;
      lastFetch := None;
    }
  }
}
