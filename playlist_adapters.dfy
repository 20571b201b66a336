// The adapters from the backend's playlist responses to the shapes the
// screens use: numeric ids become decimal strings, a missing track list
// becomes empty, and a shared playlist starts unviewed.
//
// `shared_at` is turned into a `Date` by the source; here the shared
// playlist keeps the ISO text that `Date` is built from.

module PlaylistAdapters {
  import opened Wrappers
  import opened Text

  datatype Music = Music(id: string, title: string, artist: string, album: string, releaseDate: string, genre: Option<string>)

  /** A playlist record as the backend sends it. */
  datatype ApiPlaylistInfo = ApiPlaylistInfo(
    id: int, userId: int, name: string, description: Option<string>,
    origin: string, originId: string, createdOn: string, updatedOn: string)

  /** `musics == None` is a missing or null track list. */
  datatype ApiPlaylist = ApiPlaylist(playlist: ApiPlaylistInfo, musics: Option<seq<Music>>)

  datatype PlaylistInfo = PlaylistInfo(
    id: string, userId: string, name: string, description: Option<string>,
    origin: string, originId: string, createdOn: string, updatedOn: string)

  datatype Playlist = Playlist(playlist: PlaylistInfo, musics: seq<Music>)

  datatype SharedBy = SharedBy(id: int, username: string)

  datatype SharedPlaylistApi = SharedPlaylistApi(id: int, playlist: ApiPlaylist, sharedBy: SharedBy, sharedAt: string)

  datatype SharedPlaylist = SharedPlaylist(id: int, playlist: Playlist, sharedBy: SharedBy, sharedAt: string, viewed: Option<bool>)

  /** One element of `adaptPlaylistResponse`'s `map`. */
  function AdaptPlaylist(item: ApiPlaylist): (p: Playlist)
    ensures ParseInt(p.playlist.id) == Some(item.playlist.id)
    ensures ParseInt(p.playlist.userId) == Some(item.playlist.userId)
    ensures p.playlist.name == item.playlist.name && p.playlist.description == item.playlist.description
    ensures p.playlist.origin == item.playlist.origin && p.playlist.originId == item.playlist.originId
    ensures p.playlist.createdOn == item.playlist.createdOn && p.playlist.updatedOn == item.playlist.updatedOn
    ensures p.musics == (if item.musics.Some? then item.musics.value else [])
  {
    ParseIntToString(item.playlist.id);
    ParseIntToString(item.playlist.userId);
    var info := item.playlist;
    Playlist(
      PlaylistInfo(IntToString(info.id), IntToString(info.userId), info.name, info.description,
                   info.origin, info.originId, info.createdOn, info.updatedOn),
      item.musics.GetOr([]))
  }

  /** `adaptPlaylistResponse`. */
  function AdaptPlaylistResponse(playlists: seq<ApiPlaylist>): (r: seq<Playlist>)
    ensures |r| == |playlists|
    ensures forall i :: 0 <= i < |r| ==> r[i] == AdaptPlaylist(playlists[i])
  {
    if playlists == [] then []
    else [AdaptPlaylist(playlists[0])] + AdaptPlaylistResponse(playlists[1..])
  }

  /** Playlists with different ids get different string ids, so the
      adapted list keeps them apart. */
  lemma AdaptedIdsDistinct(a: ApiPlaylist, b: ApiPlaylist)
    requires a.playlist.id != b.playlist.id
    ensures AdaptPlaylist(a).playlist.id != AdaptPlaylist(b).playlist.id
  {
    IntToStringInjective(a.playlist.id, b.playlist.id);
  }

  /** `adaptSharedPlaylist`. The inner playlist's id is the share's id,
      not the shared playlist's own id; everything else of the playlist is
      adapted as above, and the share starts unviewed. */
  function AdaptSharedPlaylist(api: SharedPlaylistApi): (s: SharedPlaylist)
    ensures s.id == api.id && s.sharedBy == api.sharedBy && s.sharedAt == api.sharedAt
    ensures s.viewed == Some(false)
    ensures ParseInt(s.playlist.playlist.id) == Some(api.id)
    ensures s.playlist == AdaptPlaylist(api.playlist).(playlist := AdaptPlaylist(api.playlist).playlist.(id := IntToString(api.id)))
  {
    var adapted := AdaptPlaylist(api.playlist);
    ParseIntToString(api.id);
    SharedPlaylist(api.id, adapted.(playlist := adapted.playlist.(id := IntToString(api.id))),
                   api.sharedBy, api.sharedAt, Some(false))
  }

  /** So a share of playlist 7 under share id 3 shows id "3", not "7". */
  lemma SharedIdIsShareId()
    ensures var api := SharedPlaylistApi(3,
        ApiPlaylist(ApiPlaylistInfo(7, 1, "Road trip", None, "spotify", "x", "", ""), None), SharedBy(1, "sam"), "");
      AdaptSharedPlaylist(api).playlist.playlist.id == "3" != AdaptPlaylist(api.playlist).playlist.id
  {
    var api := SharedPlaylistApi(3,
        ApiPlaylist(ApiPlaylistInfo(7, 1, "Road trip", None, "spotify", "x", "", ""), None), SharedBy(1, "sam"), "");
    assert IntToString(3) == "3" by { assert NatToString(3) == [DigitChar(3)]; }
    IntToStringInjective(3, 7);
  }
}
