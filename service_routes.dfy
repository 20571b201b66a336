/** The routes of every domain-service operation (src-tauri/src/backend/user.rs,
    playlist.rs, spotify.rs, youtube.rs, apple.rs, notification.rs), and a
    recogniser that reads the operation back from a client method and endpoint:
    no two operations share a route, and a path id can be recovered from its path. */
module ServiceRoutes {
  import opened Wrappers
  import opened Text
  import opened Backend
  import UserService
  import PlaylistService
  import SpotifyService
  import YoutubeService
  import AppleService
  import NotificationService

  datatype Operation =
    | Register | Login
    | GetPlaylists | SendPlaylist(playlistId: int) | SharePlaylist(playlistId: int)
    | GetSharedPlaylists | MarkSharedPlaylistViewed(sharedPlaylistId: int)
    | SpotifyAuthUrl | SpotifyAddToken | SpotifyImport | SpotifyDisconnect
    | YoutubeAuthUrl | YoutubeAddToken | YoutubeDisconnect
    | AppleDeveloperToken | AppleToken | AppleSynchronize | AppleDisconnect
    | SetFcmToken | SendTestNotification

  predicate IsUserOp(op: Operation) { op.Register? || op.Login? }
  predicate IsPlaylistOp(op: Operation) {
    op.GetPlaylists? || op.SendPlaylist? || op.SharePlaylist? || op.GetSharedPlaylists? || op.MarkSharedPlaylistViewed?
  }
  predicate IsSpotifyOp(op: Operation) {
    op.SpotifyAuthUrl? || op.SpotifyAddToken? || op.SpotifyImport? || op.SpotifyDisconnect?
  }
  predicate IsYoutubeOp(op: Operation) { op.YoutubeAuthUrl? || op.YoutubeAddToken? || op.YoutubeDisconnect? }
  predicate IsAppleOp(op: Operation) {
    op.AppleDeveloperToken? || op.AppleToken? || op.AppleSynchronize? || op.AppleDisconnect?
  }

  /** The request each operation issues, for a given serialised request
      value, by the service that owns it. */
  function SpecOf(op: Operation, json: string): RequestSpec {
    if IsUserOp(op) then UserSpec(op, json)
    else if IsPlaylistOp(op) then PlaylistSpec(op, json)
    else if IsSpotifyOp(op) then SpotifySpec(op, json)
    else if IsYoutubeOp(op) then YoutubeSpec(op, json)
    else if IsAppleOp(op) then AppleSpec(op, json)
    else NotificationSpec(op, json)
  }

  function UserSpec(op: Operation, json: string): RequestSpec
    requires IsUserOp(op)
  {
    if op.Register? then UserService.Register(UserService.CreateUserRequest("", "", "", "", ""), _ => json)
    else UserService.Login(UserService.LoginRequest("", ""), _ => json)
  }

  function PlaylistSpec(op: Operation, json: string): RequestSpec
    requires IsPlaylistOp(op)
  {
    match op
    case GetPlaylists => PlaylistService.GetPlaylists(json)
    case SendPlaylist(id) => PlaylistService.SendPlaylist(id, json)
    case SharePlaylist(id) => PlaylistService.SharePlaylist(id, json)
    case GetSharedPlaylists => PlaylistService.GetSharedPlaylists()
    case MarkSharedPlaylistViewed(id) => PlaylistService.MarkSharedPlaylistViewed(id)
  }

  function SpotifySpec(op: Operation, json: string): RequestSpec
    requires IsSpotifyOp(op)
  {
    match op
    case SpotifyAuthUrl => SpotifyService.GetAuthUrl()
    case SpotifyAddToken => SpotifyService.AddToken(json)
    case SpotifyImport => SpotifyService.ImportPlaylists()
    case SpotifyDisconnect => SpotifyService.Disconnect()
  }

  function YoutubeSpec(op: Operation, json: string): RequestSpec
    requires IsYoutubeOp(op)
  {
    match op
    case YoutubeAuthUrl => YoutubeService.GetAuthUrl()
    case YoutubeAddToken => YoutubeService.AddToken(json)
    case YoutubeDisconnect => YoutubeService.Disconnect()
  }

  function AppleSpec(op: Operation, json: string): RequestSpec
    requires IsAppleOp(op)
  {
    match op
    case AppleDeveloperToken => AppleService.GetDeveloperToken()
    case AppleToken => AppleService.SendAuthorizationToken(json)
    case AppleSynchronize => AppleService.SynchronizePlaylists()
    case AppleDisconnect => AppleService.Disconnect()
  }

  function NotificationSpec(op: Operation, json: string): RequestSpec
    requires !IsUserOp(op) && !IsPlaylistOp(op) && !IsSpotifyOp(op) && !IsYoutubeOp(op) && !IsAppleOp(op)
  {
    if op.SetFcmToken? then NotificationService.SetFcmToken(Ok(json)).value
    else NotificationService.SendTestNotification(Ok(json)).value
  }

  /** Reads an id between a fixed prefix and suffix. */
  function PathId(e: string, prefix: string, suffix: string): Option<int> {
    if |prefix| + |suffix| <= |e| && IsPrefix(prefix, e) && IsSuffix(suffix, e)
    then ParseInt(e[|prefix|..|e| - |suffix|])
    else None
  }

  /** The operation a POST to `e` performs, looked up by the endpoint's
      first character and then compared in full. */
  function RecognizePost(e: string): Option<Operation> {
    if e == [] then None
    else if e[0] == 'r' then (if e == "register" then Some(Register) else None)
    else if e[0] == 's' then
      (if e == "spotify/token" then Some(SpotifyAddToken)
       else if e == "spotify/playlist" then Some(SpotifyImport)
       else None)
    else if e[0] == 'y' then (if e == "youtube/token" then Some(YoutubeAddToken) else None)
    else if e[0] == 'a' then
      (if e == "apple/token" then Some(AppleToken)
       else if e == "apple/synchronize" then Some(AppleSynchronize)
       else None)
    else if e[0] == 'n' then
      (if e == "notifications/fcm-token" then Some(SetFcmToken)
       else if e == "notifications/test-notification" then Some(SendTestNotification)
       else None)
    else if e[0] == 'p' then RecognizePlaylistPost(e)
    else None
  }

  /** The playlist operations among the POSTs, all with an id in the path. */
  function RecognizePlaylistPost(e: string): Option<Operation> {
    if PathId(e, "playlists/shared/", "/viewed").Some? then
      Some(MarkSharedPlaylistViewed(PathId(e, "playlists/shared/", "/viewed").value))
    else if PathId(e, "playlists/", "/send").Some? then Some(SendPlaylist(PathId(e, "playlists/", "/send").value))
    else if PathId(e, "playlists/", "/share").Some? then Some(SharePlaylist(PathId(e, "playlists/", "/share").value))
    else None
  }

  /** The operation a request with this client method and endpoint performs. */
  function Recognize(call: Call, e: string): Option<Operation> {
    match call
    case Get =>
      if e == [] then None
      else if e[0] == 's' then (if e == "spotify/authorization-url" then Some(SpotifyAuthUrl) else None)
      else if e[0] == 'y' then (if e == "youtube/authorization-url" then Some(YoutubeAuthUrl) else None)
      else if e[0] == 'a' then (if e == "apple/developer-token" then Some(AppleDeveloperToken) else None)
      else if e == "playlists/shared" then Some(GetSharedPlaylists)
      else None
    case GetWithBody => if e == "playlists" then Some(GetPlaylists) else None
    case PostWithReturn => if e == "auth/login" then Some(Login) else None
    case Delete =>
      if e == [] then None
      else if e[0] == 's' then (if e == "spotify/disconnect" then Some(SpotifyDisconnect) else None)
      else if e[0] == 'y' then (if e == "youtube/disconnect" then Some(YoutubeDisconnect) else None)
      else if e == "apple/disconnect" then Some(AppleDisconnect)
      else None
    case Post => RecognizePost(e)
  }

  lemma IdTextStart(id: int)
    ensures |IntToString(id)| >= 1
    ensures IntToString(id)[0] == '-' || IsDigit(IntToString(id)[0])
  {
  }

  lemma {:induction false} IdPath(prefix: string, id: int, suffix: string)
    ensures PathId(prefix + IntToString(id) + suffix, prefix, suffix) == Some(id)
  {
    var x := IntToString(id);
    var e := prefix + x + suffix;
    assert e[..|prefix|] == prefix;
    assert e[|e| - |suffix|..] == suffix;
    assert e[|prefix|..|e| - |suffix|] == x;
    ParseIntToString(id);
  }

  /** A playlist path is not a shared-playlist path: the id starts with a digit
      or a minus sign where the latter has `s`. */
  lemma PlaylistPathNotShared(id: int, suffix: string)
    ensures PathId("playlists/" + IntToString(id) + suffix, "playlists/shared/", "/viewed").None?
  {
    var e := "playlists/" + IntToString(id) + suffix;
    IdTextStart(id);
    assert e[10] == IntToString(id)[0];
    assert "playlists/shared/"[10] == 's';
  }

  /** The playlist endpoints spelled out. */
  lemma PlaylistPaths(x: string, suffix: string)
    ensures PlaylistService.BasePath + "/" + x + suffix == "playlists/" + x + suffix
    ensures PlaylistService.BasePath + "/shared/" + x + suffix == "playlists/shared/" + x + suffix
  {
    assert PlaylistService.BasePath + "/" == "playlists/";
    assert PlaylistService.BasePath + "/shared/" == "playlists/shared/";
  }

  /** A POST endpoint starting with `p` is read as a playlist path. */
  lemma PlaylistPost(e: string)
    requires |e| > 0 && e[0] == 'p'
    ensures RecognizePost(e) == RecognizePlaylistPost(e)
  {
  }

  lemma RecognizeSendPlaylist(id: int, json: string)
    ensures RecognizePost(PlaylistService.SendPlaylist(id, json).endpoint) == Some(SendPlaylist(id))
  {
    var e := "playlists/" + IntToString(id) + "/send";
    PlaylistPaths(IntToString(id), "/send");
    assert e[0] == 'p';
    PlaylistPost(e);
    PlaylistPathNotShared(id, "/send");
    IdPath("playlists/", id, "/send");
  }

  lemma RecognizeSharePlaylist(id: int, json: string)
    ensures RecognizePost(PlaylistService.SharePlaylist(id, json).endpoint) == Some(SharePlaylist(id))
  {
    var e := "playlists/" + IntToString(id) + "/share";
    PlaylistPaths(IntToString(id), "/share");
    assert e[0] == 'p';
    PlaylistPost(e);
    PlaylistPathNotShared(id, "/share");
    assert e[|e| - 5] == 's';
    IdPath("playlists/", id, "/share");
  }

  lemma RecognizeMarkViewed(id: int, json: string)
    ensures RecognizePost(PlaylistService.MarkSharedPlaylistViewed(id).endpoint) == Some(MarkSharedPlaylistViewed(id))
  {
    var e := "playlists/shared/" + IntToString(id) + "/viewed";
    PlaylistPaths(IntToString(id), "/viewed");
    assert e[0] == 'p';
    PlaylistPost(e);
    IdPath("playlists/shared/", id, "/viewed");
  }

  /** Each operation is recognised from its own route. */
  lemma RecognizeRoute(op: Operation, json: string)
    ensures Recognize(SpecOf(op, json).call, SpecOf(op, json).endpoint) == Some(op)
  {
    if IsUserOp(op) {
    } else if IsPlaylistOp(op) {
      RecognizePlaylistRoute(op, json);
    } else if IsSpotifyOp(op) {
      RecognizeSpotifyRoute(op, json);
    } else if IsYoutubeOp(op) {
      RecognizeYoutubeRoute(op, json);
    } else if IsAppleOp(op) {
      RecognizeAppleRoute(op, json);
    } else {
      RecognizeNotificationRoute(op, json);
    }
  }

  lemma RecognizePlaylistRoute(op: Operation, json: string)
    requires IsPlaylistOp(op)
    ensures Recognize(SpecOf(op, json).call, SpecOf(op, json).endpoint) == Some(op)
  {
    match op
    case SendPlaylist(id) => RecognizeSendPlaylist(id, json);
    case SharePlaylist(id) => RecognizeSharePlaylist(id, json);
    case MarkSharedPlaylistViewed(id) => RecognizeMarkViewed(id, json);
    case GetPlaylists =>
    case GetSharedPlaylists =>
  }

  lemma RecognizeSpotifyRoute(op: Operation, json: string)
    requires IsSpotifyOp(op)
    ensures Recognize(SpecOf(op, json).call, SpecOf(op, json).endpoint) == Some(op)
  {
  }

  lemma RecognizeYoutubeRoute(op: Operation, json: string)
    requires IsYoutubeOp(op)
    ensures Recognize(SpecOf(op, json).call, SpecOf(op, json).endpoint) == Some(op)
  {
  }

  lemma RecognizeAppleRoute(op: Operation, json: string)
    requires IsAppleOp(op)
    ensures Recognize(SpecOf(op, json).call, SpecOf(op, json).endpoint) == Some(op)
  {
    if op.AppleToken? || op.AppleSynchronize? {
      RecognizeApplePost(op, json);
    }
  }

  lemma RecognizeApplePost(op: Operation, json: string)
    requires op.AppleToken? || op.AppleSynchronize?
    ensures Recognize(SpecOf(op, json).call, SpecOf(op, json).endpoint) == Some(op)
  {
  }

  lemma RecognizeNotificationRoute(op: Operation, json: string)
    requires !IsUserOp(op) && !IsPlaylistOp(op) && !IsSpotifyOp(op) && !IsYoutubeOp(op) && !IsAppleOp(op)
    ensures Recognize(SpecOf(op, json).call, SpecOf(op, json).endpoint) == Some(op)
  {
  }

  /** No two operations share a route; in particular different ids give
      different paths. */
  lemma RoutesDistinct(a: Operation, b: Operation, json: string)
    ensures SpecOf(a, json).call == SpecOf(b, json).call && SpecOf(a, json).endpoint == SpecOf(b, json).endpoint
      ==> a == b
  {
    RecognizeRoute(a, json);
    RecognizeRoute(b, json);
  }
}
