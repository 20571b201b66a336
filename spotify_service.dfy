/** src-tauri/src/backend/spotify.rs: the requests of `SpotifyClient`. */
module SpotifyService {
  import opened Wrappers
  import opened Backend

  /** `get_auth_url`, decoding a `SpotifyUrlResponse`. */
  function GetAuthUrl(): RequestSpec {
    RequestSpec(Get, "spotify/authorization-url", None)
  }

  function AddToken(requestJson: string): RequestSpec {
    RequestSpec(Post, "spotify/token", Some(Serialized(requestJson)))
  }

  /** `import_playlist_backend_request`: POST with an empty body. */
  function ImportPlaylists(): RequestSpec {
    RequestSpec(Post, "spotify/playlist", Some(Literal("")))
  }

  function Disconnect(): RequestSpec {
    RequestSpec(Delete, "spotify/disconnect", None)
  }
}
