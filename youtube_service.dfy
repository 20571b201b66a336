/** src-tauri/src/backend/youtube.rs: the requests of `YoutubeClient`; each result
    is the client's, unchanged. */
module YoutubeService {
  import opened Wrappers
  import opened Backend

  /** `get_auth_url`, decoding a `YoutubeUrlResponse`. */
  function GetAuthUrl(): RequestSpec {
    RequestSpec(Get, "youtube/authorization-url", None)
  }

  function AddToken(requestJson: string): RequestSpec {
    RequestSpec(Post, "youtube/token", Some(Serialized(requestJson)))
  }

  function Disconnect(): RequestSpec {
    RequestSpec(Delete, "youtube/disconnect", None)
  }
}
