// Sending a playlist to a streaming platform: which platforms count as
// connected (those the user has playlists on), and the send itself, whose
// backend call is replaced by its outcome. The half-second pause kept
// after a successful send is not modelled.

module SendPlaylist {
  import opened Wrappers
  import UserStore

  datatype Platform = Spotify | YoutubeMusic | AppleMusic | Deezer

  datatype ConnectedPlatform = ConnectedPlatform(name: Platform, title: string, icon: string)

  const SpotifyEntry := ConnectedPlatform(Spotify, "Spotify", "/src/assets/images/spotify.svg")
  const YoutubeEntry := ConnectedPlatform(YoutubeMusic, "YouTube Music", "/src/assets/images/Youtube_Music_icon.svg.png")
  const AppleEntry := ConnectedPlatform(AppleMusic, "Apple Music", "/src/assets/images/Apple_Music_icon.svg.png")

  const NotSingleMessage := "Cannot send to default platform - multiple platforms connected"
  const TypeErrorMessage := "TypeError: Cannot read properties of undefined (reading 'length')"

  type Playlists = seq<UserStore.Playlist>

  /** `connectedPlatforms`: Spotify, YouTube Music and Apple Music, in that
      order, each when the user has at least one playlist there. Deezer is
      never offered. */
  function ConnectedPlatforms(spotify: Playlists, youtube: Playlists, apple: Playlists): (r: seq<ConnectedPlatform>)
  {
    (if |spotify| > 0 then [SpotifyEntry] else [])
    + (if |youtube| > 0 then [YoutubeEntry] else [])
    + (if |apple| > 0 then [AppleEntry] else [])
  }

  function Count(b: bool): nat { if b then 1 else 0 }

  /** Which platforms appear, and how many, in terms of the three lists. */
  lemma ConnectedPlatformsSpec(spotify: Playlists, youtube: Playlists, apple: Playlists)
    ensures var r := ConnectedPlatforms(spotify, youtube, apple);
      && |r| == Count(|spotify| > 0) + Count(|youtube| > 0) + Count(|apple| > 0)
      && (SpotifyEntry in r <==> |spotify| > 0)
      && (YoutubeEntry in r <==> |youtube| > 0)
      && (AppleEntry in r <==> |apple| > 0)
      && (forall p :: p in r ==> p.name != Deezer)
      && (forall i, j :: 0 <= i < j < |r| ==> Rank(r[i].name) < Rank(r[j].name))
  {
  }

  function Rank(p: Platform): nat
  {
    match p
    case Spotify => 0
    case YoutubeMusic => 1
    case AppleMusic => 2
    case Deezer => 3
  }

  /** `hasConnectedPlatforms`, `hasSinglePlatform`, `hasMultiplePlatforms`. */
  predicate HasConnectedPlatforms(r: seq<ConnectedPlatform>) { |r| > 0 }
  predicate HasSinglePlatform(r: seq<ConnectedPlatform>) { |r| == 1 }
  predicate HasMultiplePlatforms(r: seq<ConnectedPlatform>) { |r| > 1 }

  /** With a single platform it is the one platform with playlists. */
  lemma SinglePlatform(spotify: Playlists, youtube: Playlists, apple: Playlists)
    requires HasSinglePlatform(ConnectedPlatforms(spotify, youtube, apple))
    ensures var only := ConnectedPlatforms(spotify, youtube, apple)[0];
      && (only == SpotifyEntry <==> |spotify| > 0)
      && (only == YoutubeEntry <==> |youtube| > 0)
      && (only == AppleEntry <==> |apple| > 0)
  {
    ConnectedPlatformsSpec(spotify, youtube, apple);
  }

  /** `connectedPlatforms` as written: the store has no `applePlaylists`
      (`None`), and reading `.length` of it throws. */
  function ConnectedPlatformsAsWritten(spotify: Playlists, youtube: Playlists, apple: Option<Playlists>)
    : (r: Result<seq<ConnectedPlatform>, string>)
    ensures apple.Some? ==> r == Ok(ConnectedPlatforms(spotify, youtube, apple.value))
  {
    if apple.None? then Err(TypeErrorMessage)
    else Ok(ConnectedPlatforms(spotify, youtube, apple.value))
  }

  /** Whatever the user's Spotify and YouTube playlists, the store as
      declared never has an Apple Music list, so the platform list cannot
      be computed and no platform is ever offered. */
  lemma ApplePlaylistsUndeclared(spotify: Playlists, youtube: Playlists)
    ensures ConnectedPlatformsAsWritten(spotify, youtube, None).Err?
    ensures |spotify| > 0 ==> SpotifyEntry in ConnectedPlatforms(spotify, youtube, [])
  {
  }

  /** The `send_playlist` request. */
  datatype SendRequest = SendRequest(playlistId: int, destination: Platform)

  class Sender {
    var sending: bool
    var error: Option<string>

    constructor ()
      ensures !sending && error == None
    {
      sending := false;
      error := None;
    }

    /** `sendPlaylistToPlatform`: always asks the backend; `true` exactly
        when that succeeds, otherwise its error is kept. */
    method SendPlaylistToPlatform(playlistId: int, destination: Platform, outcome: Result<(), string>)
      returns (ok: bool, request: SendRequest)
      modifies this
      ensures request == SendRequest(playlistId, destination)
      ensures ok <==> outcome.Ok?
      ensures !sending
      ensures error == (if outcome.Ok? then None else Some(outcome.error))
    {
      sending := true;
      error := None;
      request := SendRequest(playlistId, destination);
      if outcome.Ok? {
        ok := true;
      } else {
        error := Some(outcome.error);
        ok := false;
      }
      sending := false;
    }

    /** `sendToDefaultPlatform`: with other than exactly one connected
        platform (none included) nothing is sent and the "multiple
        platforms" message is set; with one, the playlist goes there. */
    method SendToDefaultPlatform(playlistId: int, store: UserStore.Store, outcome: Result<(), string>)
      returns (ok: bool, request: Option<SendRequest>)
      modifies this
      ensures var platforms := ConnectedPlatforms(store.spotifyPlaylists, store.youtubePlaylists, store.applePlaylists);
        if !HasSinglePlatform(platforms) then
          !ok && request == None && error == Some(NotSingleMessage) && sending == old(sending)
        else
          && request == Some(SendRequest(playlistId, platforms[0].name))
          && (ok <==> outcome.Ok?) && !sending
          && error == (if outcome.Ok? then None else Some(outcome.error))
    {
      var platforms := ConnectedPlatforms(store.spotifyPlaylists, store.youtubePlaylists, store.applePlaylists);
      if |platforms| != 1 {
        error := Some(NotSingleMessage);
        return false, None;
      }
      var platform := platforms[0];
      var sent;
      ok, sent := SendPlaylistToPlatform(playlistId, platform.name, outcome);
      request := Some(sent);
    }
  }
}
