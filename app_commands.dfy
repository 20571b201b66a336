/** src-tauri/src/commands/app.rs: the deep links `open_external_app` opens, and
    the user-search requests. Opening a URL is an outcome given as input. */
module AppCommands {
  import opened Wrappers
  import opened Text
  import Backend

  type TargetOs = Backend.TargetOs

  /** The links opened without a playlist id. */
  const SpotifyBare: string := "spotify://"
  const AppleBare: string := "music://"
  const DeezerBare: string := "deezer://"

  function YoutubeBare(os: TargetOs): string {
    if os == Backend.Android then "vnd.youtube://music" else "https://music.youtube.com"
  }

  /** The links opened with a playlist id are these followed by the id. */
  const SpotifyPrefix: string := "spotify://playlist/"
  const DeezerPrefix: string := "deezer://www.deezer.com/playlist/"

  function YoutubePrefix(os: TargetOs): string {
    if os == Backend.Android then "vnd.youtube://music/playlist?list=" else "https://music.youtube.com/playlist?list="
  }

  function ApplePrefix(os: TargetOs): string {
    if os == Backend.Ios then "music://library/playlist/" else "https://music.apple.com/library/playlist/"
  }

  function Link(bare: string, prefix: string, playlistId: Option<string>): string {
    if playlistId.Some? then prefix + playlistId.value else bare
  }

  /** The deep link for a platform name, matched exactly. */
  function ExternalAppUrl(platform: string, playlistId: Option<string>, os: TargetOs): (r: Result<string, string>)
    ensures r.Err? <==> platform !in {"Spotify", "YoutubeMusic", "AppleMusic", "Deezer"}
    ensures r.Err? ==> r.error == "Unknown platform: " + platform
  {
    if platform == "Spotify" then Ok(Link(SpotifyBare, SpotifyPrefix, playlistId))
    else if platform == "YoutubeMusic" then Ok(Link(YoutubeBare(os), YoutubePrefix(os), playlistId))
    else if platform == "AppleMusic" then Ok(Link(AppleBare, ApplePrefix(os), playlistId))
    else if platform == "Deezer" then Ok(Link(DeezerBare, DeezerPrefix, playlistId))
    else Err("Unknown platform: " + platform)
  }

  /** Reads a deep link back into the platform and the playlist id it opens. */
  function ParseExternalUrl(url: string, os: TargetOs): Option<(string, Option<string>)> {
    if url == SpotifyBare then Some(("Spotify", None))
    else if url == YoutubeBare(os) then Some(("YoutubeMusic", None))
    else if url == AppleBare then Some(("AppleMusic", None))
    else if url == DeezerBare then Some(("Deezer", None))
    else if IsPrefix(SpotifyPrefix, url) then Some(("Spotify", Some(url[|SpotifyPrefix|..])))
    else if IsPrefix(YoutubePrefix(os), url) then Some(("YoutubeMusic", Some(url[|YoutubePrefix(os)|..])))
    else if IsPrefix(ApplePrefix(os), url) then Some(("AppleMusic", Some(url[|ApplePrefix(os)|..])))
    else if IsPrefix(DeezerPrefix, url) then Some(("Deezer", Some(url[|DeezerPrefix|..])))
    else None
  }

  /** A string longer than `p` is not `p`. */
  lemma LongerThan(p: string, u: string)
    requires |p| < |u|
    ensures p != u
  {
  }

  lemma PrefixedLink(prefix: string, id: string)
    ensures IsPrefix(prefix, prefix + id) && (prefix + id)[|prefix|..] == id
    ensures |prefix| > 0 ==> (prefix + id)[0] == prefix[0]
  {
    assert (prefix + id)[..|prefix|] == prefix;
  }

  lemma SpotifyLinksRoundTrip(id: Option<string>, os: TargetOs)
    ensures ParseExternalUrl(ExternalAppUrl("Spotify", id, os).value, os) == Some(("Spotify", id))
  {
    if id.Some? {
      var u := SpotifyPrefix + id.value;
      PrefixedLink(SpotifyPrefix, id.value);
      LongerThan(SpotifyBare, u);
      DifferAt(YoutubeBare(os), u, 0);
      DifferAt(AppleBare, u, 0);
      DifferAt(DeezerBare, u, 0);
    }
  }

  lemma YoutubeLinksRoundTrip(id: Option<string>, os: TargetOs)
    ensures ParseExternalUrl(ExternalAppUrl("YoutubeMusic", id, os).value, os) == Some(("YoutubeMusic", id))
  {
    if id.Some? {
      var u := YoutubePrefix(os) + id.value;
      PrefixedLink(YoutubePrefix(os), id.value);
      DifferAt(SpotifyBare, u, 0);
      LongerThan(YoutubeBare(os), u);
      DifferAt(AppleBare, u, 0);
      DifferAt(DeezerBare, u, 0);
      DifferAt(SpotifyPrefix, u, 0);
    } else {
      DifferAt(SpotifyBare, YoutubeBare(os), 0);
    }
  }

  lemma AppleLinksRoundTrip(id: Option<string>, os: TargetOs)
    ensures ParseExternalUrl(ExternalAppUrl("AppleMusic", id, os).value, os) == Some(("AppleMusic", id))
  {
    if id.Some? {
      var u := ApplePrefix(os) + id.value;
      PrefixedLink(ApplePrefix(os), id.value);
      DifferAt(SpotifyBare, u, 0);
      if os == Backend.Ios {
        DifferAt(YoutubeBare(os), u, 0);
        LongerThan(AppleBare, u);
        DifferAt(YoutubePrefix(os), u, 0);
      } else {
        LongerThan(YoutubeBare(os), u);
        DifferAt(AppleBare, u, 0);
        if os == Backend.Android {
          DifferAt(YoutubePrefix(os), u, 0);
        } else {
          assert u[14] == ApplePrefix(os)[14] == 'a';
          DifferAt(YoutubePrefix(os), u, 14);
        }
      }
      DifferAt(DeezerBare, u, 0);
      DifferAt(SpotifyPrefix, u, 0);
    } else {
      DifferAt(SpotifyBare, AppleBare, 0);
      DifferAt(YoutubeBare(os), AppleBare, 0);
    }
  }

  lemma DeezerLinksRoundTrip(id: Option<string>, os: TargetOs)
    ensures ParseExternalUrl(ExternalAppUrl("Deezer", id, os).value, os) == Some(("Deezer", id))
  {
    if id.Some? {
      var u := DeezerPrefix + id.value;
      PrefixedLink(DeezerPrefix, id.value);
      DifferAt(SpotifyBare, u, 0);
      DifferAt(YoutubeBare(os), u, 0);
      DifferAt(AppleBare, u, 0);
      LongerThan(DeezerBare, u);
      DifferAt(SpotifyPrefix, u, 0);
      DifferAt(YoutubePrefix(os), u, 0);
      if os == Backend.Ios {
        assert ApplePrefix(os) == "music://library/playlist/";
        DifferAt(ApplePrefix(os), u, 0);
      } else {
        assert ApplePrefix(os) == "https://music.apple.com/library/playlist/";
        DifferAt(ApplePrefix(os), u, 0);
      }
    } else {
      DifferAt(SpotifyBare, DeezerBare, 0);
      DifferAt(YoutubeBare(os), DeezerBare, 0);
      DifferAt(AppleBare, DeezerBare, 0);
    }
  }

  /** Every link names its platform and playlist: different (platform, id)
      requests never open the same URL on one OS. */
  lemma ExternalAppUrlRoundTrip(platform: string, id: Option<string>, os: TargetOs)
    requires ExternalAppUrl(platform, id, os).Ok?
    ensures ParseExternalUrl(ExternalAppUrl(platform, id, os).value, os) == Some((platform, id))
  {
    if platform == "Spotify" { SpotifyLinksRoundTrip(id, os); }
    else if platform == "YoutubeMusic" { YoutubeLinksRoundTrip(id, os); }
    else if platform == "AppleMusic" { AppleLinksRoundTrip(id, os); }
    else { DeezerLinksRoundTrip(id, os); }
  }

  /** `open_external_app`: the URL handed to the opener (none for an unknown
      platform) and the command's result, given the opener's error if any. */
  datatype OpenOutcome = OpenOutcome(openedUrl: Option<string>, result: Result<(), string>)

  function OpenExternalApp(platform: string, playlistId: Option<string>, os: TargetOs, openerError: Option<string>)
    : (o: OpenOutcome)
    ensures o.openedUrl.None? <==> ExternalAppUrl(platform, playlistId, os).Err?
    ensures o.openedUrl.Some? ==> o.openedUrl.value == ExternalAppUrl(platform, playlistId, os).value
    ensures o.result.Ok? <==> o.openedUrl.Some? && openerError.None?
    ensures o.openedUrl.Some? && openerError.Some? ==>
      o.result == Err("Failed to open " + platform + ": " + openerError.value)
  {
    match ExternalAppUrl(platform, playlistId, os)
    case Err(m) => OpenOutcome(None, Err(m))
    case Ok(url) =>
      OpenOutcome(Some(url), if openerError.Some? then Err("Failed to open " + platform + ": " + openerError.value) else Ok(()))
  }

  datatype SearchField = Username

  /** `GetUsersRequest` of the backend API. */
  datatype GetUsersRequest = GetUsersRequest(
    includeDeleted: Option<bool>, search: Option<string>, searchField: Option<SearchField>,
    limit: Option<int>, offset: Option<int>, friendsPriority: bool, excludeFriends: bool,
    excludeSelf: Option<bool>)

  /** `search_users`. */
  function SearchUsersRequest(search: Option<string>): GetUsersRequest {
    GetUsersRequest(Some(false), search, Some(Username), Some(100), None, false, false, Some(true))
  }

  /** `search_non_friends_users`. */
  function SearchNonFriendsRequest(search: Option<string>): GetUsersRequest {
    GetUsersRequest(Some(false), search, Some(Username), Some(100), None, true, true, Some(true))
  }

  /** The two searches differ only in putting friends first and excluding them. */
  lemma SearchesDifferOnlyInFriendFlags(search: Option<string>)
    ensures SearchNonFriendsRequest(search) == SearchUsersRequest(search).(friendsPriority := true, excludeFriends := true)
    ensures !SearchUsersRequest(search).friendsPriority && !SearchUsersRequest(search).excludeFriends
    ensures SearchUsersRequest(search).search == search
  {
  }

  /** The error text of both searches. */
  function SearchError(err: string): string {
    "Error fetching users: " + err
  }
}
