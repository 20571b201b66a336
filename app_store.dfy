// The app-wide flags: readiness, one loading flag per platform, whether a
// playlist is being sent, and the last successful send.

module AppStore {
  import opened Wrappers

  datatype Service = YouTube | Deezer | Spotify | Apple

  datatype PlaylistSendSuccess = PlaylistSendSuccess(
    platformLabel: string, platformIcon: string, platformName: string, playlistId: string)

  /** The four loading flags, in the order YouTube, Deezer, Spotify, Apple. */
  datatype LoadingFlags = LoadingFlags(youtube: bool, deezer: bool, spotify: bool, apple: bool)

  /** The flags after `setLoading(service, value)`: only that service's flag
      takes `value`. */
  function WithLoading(f: LoadingFlags, service: Service, value: bool): (r: LoadingFlags)
    ensures IsLoading(r, service) == value
    ensures forall s :: s != service ==> IsLoading(r, s) == IsLoading(f, s)
  {
    match service
    case YouTube => f.(youtube := value)
    case Deezer => f.(deezer := value)
    case Spotify => f.(spotify := value)
    case Apple => f.(apple := value)
  }

  function IsLoading(f: LoadingFlags, service: Service): bool
  {
    match service
    case YouTube => f.youtube
    case Deezer => f.deezer
    case Spotify => f.spotify
    case Apple => f.apple
  }

  /** Setting one service's flag and then resetting it to its old value
      gives back the flags; setting two different services commutes. */
  lemma LoadingIndependent(f: LoadingFlags, a: Service, b: Service, x: bool, y: bool)
    ensures WithLoading(WithLoading(f, a, x), a, IsLoading(f, a)) == f
    ensures a != b ==> WithLoading(WithLoading(f, a, x), b, y) == WithLoading(WithLoading(f, b, y), a, x)
  {
  }

  class Store {
    var isAppReady: bool
    var loading: LoadingFlags
    var isSendingPlaylist: bool
    var playlistSendSuccess: Option<PlaylistSendSuccess>

    constructor ()
      ensures !isAppReady && loading == LoadingFlags(false, false, false, false)
      ensures !isSendingPlaylist && playlistSendSuccess == None
    {
      isAppReady := false;
      loading := LoadingFlags(false, false, false, false);
      isSendingPlaylist := false;
      playlistSendSuccess := None;
    }

    method SetAppReady(isReady: bool)
      modifies this
      ensures isAppReady == isReady
      ensures loading == old(loading) && isSendingPlaylist == old(isSendingPlaylist)
      ensures playlistSendSuccess == old(playlistSendSuccess)
    {
      isAppReady := isReady;
    }

    /** `setLoading`: the four `if`s, of which only the named service's fires. */
    method SetLoading(service: Service, isLoading: bool)
      modifies this
      ensures loading == WithLoading(old(loading), service, isLoading)
      ensures isAppReady == old(isAppReady) && isSendingPlaylist == old(isSendingPlaylist)
      ensures playlistSendSuccess == old(playlistSendSuccess)
    {
      if service == YouTube { loading := loading.(youtube := isLoading); }
      if service == Deezer { loading := loading.(deezer := isLoading); }
      if service == Spotify { loading := loading.(spotify := isLoading); }
      if service == Apple { loading := loading.(apple := isLoading); }
    }

    method SetSendingPlaylist(isSending: bool)
      modifies this
      ensures isSendingPlaylist == isSending
      ensures isAppReady == old(isAppReady) && loading == old(loading)
      ensures playlistSendSuccess == old(playlistSendSuccess)
    {
      isSendingPlaylist := isSending;
    }

    method SetPlaylistSendSuccess(success: Option<PlaylistSendSuccess>)
      modifies this
      ensures playlistSendSuccess == success
      ensures isAppReady == old(isAppReady) && loading == old(loading)
      ensures isSendingPlaylist == old(isSendingPlaylist)
    {
      playlistSendSuccess := success;
    }
  }
}
