// The user store: who is signed in, the session token, and the playlists
// fetched from each connected platform.
//
// The store as written declares no Apple Music list although the
// send-playlist screen reads one and the playlist loader calls
// `setApplePlaylists`; this model adds that list, initially empty, with its
// setter (see `SendPlaylist.ApplePlaylistsUndeclared`).

module UserStore {
  import opened Wrappers

  datatype Music = Music(id: string, title: string, artist: string, album: string)

  datatype Source = Youtube | Deezer | Spotify

  datatype Playlist = Playlist(
    id: string, name: string, description: Option<string>, artwork: Option<string>,
    musics: seq<Music>, source: Source)

  /** The `allPlaylists` getter: YouTube, then Deezer, then Spotify; the
      Apple Music list is not part of it. */
  function AllPlaylists(youtube: seq<Playlist>, deezer: seq<Playlist>, spotify: seq<Playlist>): (r: seq<Playlist>)
    ensures |r| == |youtube| + |deezer| + |spotify|
    ensures r[..|youtube|] == youtube
    ensures r[|youtube|..|youtube| + |deezer|] == deezer
    ensures r[|youtube| + |deezer|..] == spotify
  {
    youtube + deezer + spotify
  }

  class Store {
    var id: Option<int>
    var token: Option<string>
    var username: Option<string>
    var informationLoaded: bool
    var youtubePlaylists: seq<Playlist>
    var deezerPlaylists: seq<Playlist>
    var spotifyPlaylists: seq<Playlist>
    var applePlaylists: seq<Playlist>

    constructor ()
      ensures id == None && token == None && username == None && !informationLoaded
      ensures youtubePlaylists == [] && deezerPlaylists == [] && spotifyPlaylists == [] && applePlaylists == []
    {
      id := None;
      token := None;
      username := None;
      informationLoaded := false;
      youtubePlaylists := [];
      deezerPlaylists := [];
      spotifyPlaylists := [];
      applePlaylists := [];
    }

    function AllPlaylistsOf(): seq<Playlist>
      reads this
    {
      AllPlaylists(youtubePlaylists, deezerPlaylists, spotifyPlaylists)
    }

    method SetUserInfo(newId: int, newUsername: string)
      modifies this
      ensures id == Some(newId) && username == Some(newUsername) && informationLoaded
      ensures token == old(token) && youtubePlaylists == old(youtubePlaylists) && deezerPlaylists == old(deezerPlaylists)
      ensures spotifyPlaylists == old(spotifyPlaylists) && applePlaylists == old(applePlaylists)
    {
      id := Some(newId);
      username := Some(newUsername);
      informationLoaded := true;
    }

    method SetToken(newToken: string)
      modifies this
      ensures token == Some(newToken)
      ensures id == old(id) && username == old(username) && informationLoaded == old(informationLoaded)
      ensures youtubePlaylists == old(youtubePlaylists) && deezerPlaylists == old(deezerPlaylists)
      ensures spotifyPlaylists == old(spotifyPlaylists) && applePlaylists == old(applePlaylists)
    {
      token := Some(newToken);
    }

    method SetYoutubePlaylists(playlists: seq<Playlist>)
      modifies this
      ensures youtubePlaylists == playlists
      ensures id == old(id) && token == old(token) && username == old(username) && informationLoaded == old(informationLoaded)
      ensures deezerPlaylists == old(deezerPlaylists) && spotifyPlaylists == old(spotifyPlaylists) && applePlaylists == old(applePlaylists)
    {
      youtubePlaylists := playlists;
    }

    method SetDeezerPlaylists(playlists: seq<Playlist>)
      modifies this
      ensures deezerPlaylists == playlists
      ensures id == old(id) && token == old(token) && username == old(username) && informationLoaded == old(informationLoaded)
      ensures youtubePlaylists == old(youtubePlaylists) && spotifyPlaylists == old(spotifyPlaylists) && applePlaylists == old(applePlaylists)
    {
      deezerPlaylists := playlists;
    }

    method SetSpotifyPlaylists(playlists: seq<Playlist>)
      modifies this
      ensures spotifyPlaylists == playlists
      ensures id == old(id) && token == old(token) && username == old(username) && informationLoaded == old(informationLoaded)
      ensures youtubePlaylists == old(youtubePlaylists) && deezerPlaylists == old(deezerPlaylists) && applePlaylists == old(applePlaylists)
    {
      spotifyPlaylists := playlists;
    }

    method SetApplePlaylists(playlists: seq<Playlist>)
      modifies this
      ensures applePlaylists == playlists
      ensures id == old(id) && token == old(token) && username == old(username) && informationLoaded == old(informationLoaded)
      ensures youtubePlaylists == old(youtubePlaylists) && deezerPlaylists == old(deezerPlaylists) && spotifyPlaylists == old(spotifyPlaylists)
    {
      applePlaylists := playlists;
    }
  }

  /** Replacing one platform's list changes `allPlaylists` only in that
      platform's block. */
  lemma ReplaceOneBlock(youtube: seq<Playlist>, deezer: seq<Playlist>, spotify: seq<Playlist>, newSpotify: seq<Playlist>)
    ensures AllPlaylists(youtube, deezer, newSpotify)[..|youtube| + |deezer|]
         == AllPlaylists(youtube, deezer, spotify)[..|youtube| + |deezer|]
    ensures AllPlaylists(youtube, deezer, newSpotify)[|youtube| + |deezer|..] == newSpotify
  {
    assert AllPlaylists(youtube, deezer, newSpotify)[..|youtube| + |deezer|] == youtube + deezer;
    assert AllPlaylists(youtube, deezer, spotify)[..|youtube| + |deezer|] == youtube + deezer;
  }
}
