// The tracks of a playlist, fetched once per playlist id and kept in a
// per-screen cache. The backend call is replaced by its outcome.

module PlaylistMusics {
  import opened Wrappers

  datatype Music = Music(title: string, artist: string, album: string, releaseDate: string, genre: Option<string>)

  class Loader {
    var loading: bool
    var error: Option<string>
    var musicsCache: map<int, seq<Music>>

    constructor ()
      ensures !loading && error == None && musicsCache == map[]
    {
      loading := false;
      error := None;
      musicsCache := map[];
    }

    /** `getPlaylistMusics`. A cached list, even an empty one (an array is
        truthy), is returned without a backend call and without touching
        `loading` or `error`. Otherwise `fetched` is what the
        `get_playlist_musics` call settles to: its tracks are cached and
        returned, or its error is kept and `[]` returned. */
    method GetPlaylistMusics(playlistId: int, fetched: Result<seq<Music>, string>)
      returns (musics: seq<Music>, called: bool)
      modifies this
      ensures called <==> playlistId !in old(musicsCache)
      ensures !called ==> (musics == old(musicsCache)[playlistId]
        && musicsCache == old(musicsCache) && loading == old(loading) && error == old(error))
      ensures called ==> !loading
      ensures called && fetched.Ok? ==>
        musics == fetched.value && musicsCache == old(musicsCache)[playlistId := fetched.value] && error == None
      ensures called && fetched.Err? ==>
        musics == [] && musicsCache == old(musicsCache) && error == Some(fetched.error)
    {
      if playlistId in musicsCache {
        return musicsCache[playlistId], false;
      }
      called := true;
      loading := true;
      error := None;
      if fetched.Ok? {
        musicsCache := musicsCache[playlistId := fetched.value];
        musics := fetched.value;
      } else {
        error := Some(fetched.error);
        musics := [];
      }
      loading := false;
    }

    /** `clearCache(id?)`: one key, or every key when no id is given. */
    method ClearCache(playlistId: Option<int>)
      modifies this
      ensures playlistId.Some? ==> musicsCache == old(musicsCache) - {playlistId.value}
      ensures playlistId.None? ==> musicsCache == map[]
      ensures loading == old(loading) && error == old(error)
    {
      if playlistId.Some? {
        musicsCache := musicsCache - {playlistId.value};
      } else {
        musicsCache := map[];
      }
    }
  }

  /** A successful fetch is served from the cache on the next call, with no
      second backend call, until that id is cleared. */
  method FetchTwice(loader: Loader, playlistId: int, first: Result<seq<Music>, string>, second: Result<seq<Music>, string>)
    returns (a: seq<Music>, b: seq<Music>)
    requires playlistId !in loader.musicsCache && first.Ok?
    modifies loader
    ensures a == b == first.value
  {
    var calledA, calledB;
    a, calledA := loader.GetPlaylistMusics(playlistId, first);
    b, calledB := loader.GetPlaylistMusics(playlistId, second);
    assert !calledB;
  }

  /** A failed fetch leaves the id uncached, so the next call asks again. */
  method RetryAfterFailure(loader: Loader, playlistId: int, first: Result<seq<Music>, string>, second: Result<seq<Music>, string>)
    returns (a: seq<Music>, b: seq<Music>)
    requires playlistId !in loader.musicsCache && first.Err?
    modifies loader
    ensures a == [] && b == (if second.Ok? then second.value else [])
    ensures loader.error == (if second.Ok? then None else Some(second.error))
  {
    var calledA, calledB;
    a, calledA := loader.GetPlaylistMusics(playlistId, first);
    b, calledB := loader.GetPlaylistMusics(playlistId, second);
  }
}
