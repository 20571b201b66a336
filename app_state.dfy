/** src-tauri/src/app.rs: the application's readiness flag and the port the
    Spotify authorization-url request carries. The mutex around the flag is left
    out: calls are taken one at a time. */
module AppState {
  import opened Wrappers
  import opened Backend
  import SpotifyService

  /** `GetAuthorizationUrlRequest`. */
  datatype GetAuthorizationUrlRequest = GetAuthorizationUrlRequest(port: int)

  class App {
    const spotifyUrlPort: int
    var ready: bool

    constructor ()
      ensures spotifyUrlPort == 8000
      ensures !ready
    {
      spotifyUrlPort := 8000;
      ready := false;
    }

    /** `is_app_ready`: reports the flag, changing nothing. */
    method IsAppReady() returns (r: Result<bool, string>)
      ensures r == Ok(ready)
    {
      return Ok(ready);
    }

    /** `set_app_ready`: raises the flag; nothing lowers it. */
    method SetAppReady()
      modifies this`ready
      ensures ready
    {
      ready := true;
    }

    /** `get_autorization_url_spotify`: the request it hands to the Spotify client. */
    function AuthorizationUrlRequest(): (r: GetAuthorizationUrlRequest)
      ensures r.port == spotifyUrlPort
    {
      GetAuthorizationUrlRequest(spotifyUrlPort)
    }
  }

  /** Once raised, the flag stays raised across any number of further calls:
      `SetAppReady` is idempotent and `IsAppReady` reads without writing. */
  method ReadyIsSticky(app: App, calls: seq<bool>)
    modifies app`ready
    requires app.ready
    ensures app.ready
  {
    var i := 0;
    while i < |calls|
      invariant 0 <= i <= |calls|
      invariant app.ready
    {
      if calls[i] {
        app.SetAppReady();
      } else {
        var r := app.IsAppReady();
        assert r == Ok(true);
      }
      i := i + 1;
    }
  }

  /** A freshly built app reports not ready, and ready after `SetAppReady`. */
  method ReadinessLifecycle() returns (before: bool, after: bool)
    ensures !before && after
  {
    var app := new App();
    var r := app.IsAppReady();
    before := r.value;
    app.SetAppReady();
    app.SetAppReady();
    r := app.IsAppReady();
    after := r.value;
    var req := app.AuthorizationUrlRequest();
    assert req.port == 8000;
  }
}
