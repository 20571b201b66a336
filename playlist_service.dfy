/** src-tauri/src/backend/playlist.rs: paths of the five `PlaylistService`
    operations, all under the base path `playlists`. */
module PlaylistService {
  import opened Wrappers
  import opened Text
  import opened Backend

  const BasePath: string := "playlists"

  /** `get_playlists`: a GET with the serialised query parameters as its body. */
  function GetPlaylists(paramsJson: string): RequestSpec {
    RequestSpec(GetWithBody, BasePath, Some(Serialized(paramsJson)))
  }

  /** `send_playlist`: POST to `playlists/{id}/send`, returning the status. */
  function SendPlaylist(playlistId: int, requestJson: string): RequestSpec {
    RequestSpec(Post, BasePath + "/" + IntToString(playlistId) + "/send", Some(Serialized(requestJson)))
  }

  /** `share_playlist`: POST to `playlists/{id}/share`. */
  function SharePlaylist(playlistId: int, requestJson: string): RequestSpec {
    RequestSpec(Post, BasePath + "/" + IntToString(playlistId) + "/share", Some(Serialized(requestJson)))
  }

  /** `get_shared_playlists`: a plain GET, no body. */
  function GetSharedPlaylists(): RequestSpec {
    RequestSpec(Get, BasePath + "/shared", None)
  }

  /** `mark_shared_playlist_viewed`: POST the literal `{}`. */
  function MarkSharedPlaylistViewed(sharedPlaylistId: int): RequestSpec {
    RequestSpec(Post, BasePath + "/shared/" + IntToString(sharedPlaylistId) + "/viewed", Some(Literal("{}")))
  }
}
