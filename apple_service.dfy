/** src-tauri/src/backend/apple.rs: the requests of `AppleService`. */
module AppleService {
  import opened Wrappers
  import opened Http
  import opened AppErrors
  import opened Backend

  /** `serde_json::to_string(&())`. */
  const UnitJson: string := "null"

  /** `get_developer_token`, decoding a `GetDeveloperToken`. */
  function GetDeveloperToken(): RequestSpec {
    RequestSpec(Get, "apple/developer-token", None)
  }

  function SendAuthorizationToken(requestJson: string): RequestSpec {
    RequestSpec(Post, "apple/token", Some(Serialized(requestJson)))
  }

  /** `send_authorization_token` keeps only whether the POST succeeded. */
  function SendAuthorizationTokenResult(r: Result<StatusCode, AppError>): (out: Result<(), AppError>)
    ensures out.Ok? <==> r.Ok?
    ensures r.Err? ==> out == Err(r.error)
  {
    match r
    case Ok(_) => Ok(())
    case Err(e) => Err(e)
  }

  /** `synchronize_playlists`: POST the serialisation of the unit value. */
  function SynchronizePlaylists(): RequestSpec {
    RequestSpec(Post, "apple/synchronize", Some(Serialized(UnitJson)))
  }

  function Disconnect(): RequestSpec {
    RequestSpec(Delete, "apple/disconnect", None)
  }
}
