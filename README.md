# Swaptun core, modelled in Dafny

Swaptun is a mobile app for moving and sharing playlists between streaming
platforms: Spotify, YouTube Music, Apple Music and Deezer. It is built with
Tauri. A Rust native side talks to the Swaptun backend over HTTP. A Vue
front end keeps the session, the playlists and the screens' state.

This project models the logic of both halves.

- **Native side:**
  - the shared HTTP client (`Backend`): base URL, connectivity probe with 30 retries, single-use override token, classification of responses into `AppError`s, and the error events it emits;
  - the error type (`AppErrors`) and its `Display`;
  - the notification payloads (`Models`);
  - the user validators (`UserValidators`);
  - the routes of every domain service (`UserService`, `PlaylistService`, `SpotifyService`, `YoutubeService`, `AppleService`, `NotificationService`, gathered in `ServiceRoutes`);
  - the command helpers (`ResponseUtils`, `AppCommands`, `NotificationCommands`);
  - the readiness flag of the application object (`AppState`).
- **Front end:**
  - the onboarding tour (`Tour`), background sync queue (`BackgroundSync`), toasts (`Toast`), retry helper (`Retry`), offline cache (`OfflineCache`) and fuzzy search (`FuzzySearch`);
  - the playlist-tracks loader (`PlaylistMusics`) and the send-to-platform flow (`SendPlaylist`);
  - the user, app and shared-playlist stores (`UserStore`, `AppStore`, `SharedPlaylists`);
  - the route table and its guard (`Router`), the playlist adapters (`PlaylistAdapters`) and the display helpers (`Helpers`).
- **Support modules:** `Wrappers` (Option/Result), `Text` (decimal rendering and parsing, ASCII case, trim, split), `Http` (status codes) and `StableSort` (the stable sort that `Array.prototype.sort` performs).

Objects that the source updates in place are classes with `modifies`
clauses. Examples are the HTTP client, the stores, the tour, the toaster, the
sync queue, the cache and the loaders. Pure computations are functions with
lemmas about them.

What the model cannot compute is passed in as a parameter. That covers:

- the network's answer and the outcome of each connectivity probe;
- the clock (integer milliseconds), `Math.random()` and the router's current path;
- the serialised JSON text and the browser's online flag.

Integers are unbounded: no id or count in the source comes near its type's limits.

Fuzzy-search scores are doubled so that they are integers. The source's
0, 0.5, 1, 2 and 3 become 0, 1, 2, 4 and 6, and its thresholds 3 to 6
become 6 to 12.

Where the code and its surrounding documentation disagree, the model follows the code:

- the bodies of error responses are kept verbatim in `Backend`/`Internal` errors;
- a failed probe leaves the override token armed;
- `register` does not validate its request;
- `get_shared_playlists` is a plain GET;
- `send_playlist` returns only the status;
- the username rule allows up to 200 characters although its message says 50 (`UserService.UsernameBoundIsTwoHundred`);
- the comments above the fuzzy-search thresholds (src/composables/useFuzzySearch.ts:80-83) speak of 1, 2, 2 and 3 tolerated errors, but with the 4-point penalty for a word (line 61) the thresholds 3 to 6 (lines 84-86) tolerate 0, 0, 1 and 2 errors; the model follows the code (`FuzzySearch.KeptMeaning`), and as the comments' score bounds agree with the code it is not listed as a finding.

The user store in src/store/user.ts declares no Apple Music list, although
src/models/user.ts:17 declares one and the playlist loader
(src/composables/usePlaylistManagement.ts:72, :96) calls `setApplePlaylists`.
The model's `UserStore.Store` adds that list, initially empty, with its
setter. The send flow (`SendPlaylist.Sender.SendToDefaultPlatform`) is
modelled over this corrected store; as written it throws a TypeError (third
finding below).

## Model

| member | source | states |
|---|---|---|
| Backend.Host | src-tauri/src/backend/backend.rs:40-65 | release builds and non-mobile targets use localhost; debug iOS uses the fixed LAN address; debug Android uses the dev server's host, else localhost |
| Backend.RequestUrlDeterminesEndpoint | src-tauri/src/backend/backend.rs:106 | two request URLs on the same base are equal iff their endpoints are |
| Backend.ConnectivityCharacterized | src-tauri/src/backend/backend.rs:68-102 | the check issues 1 to 30 probes and stops at the first success; it succeeds iff one of the first 30 probes succeeds, and otherwise fails with the "after maximum retries" network error after exactly 30 probes |
| Backend.ProbesFromStopsAtFirstSuccess | src-tauri/src/backend/backend.rs:72-101 | from retry k, every probe before the last one fails, and the last one succeeds iff some probe from k to 29 does |
| Backend.AuthorizationHeader | src-tauri/src/backend/backend.rs:231-246 | the override token wins; otherwise the stored string token, with an empty token for a non-string value; no header iff neither is present |
| Backend.Classify | src-tauri/src/backend/backend.rs:186-219 | success iff a 2xx response, returned unchanged; a 4xx gives Backend(body); any other non-2xx gives Internal(body); a transport failure gives a Network error |
| Backend.ServerErrorEvents | src-tauri/src/backend/backend.rs:188-201 | at most one event, and one exactly when a response arrived and was classified as an error |
| Backend.TransportClassificationVsConversion | src-tauri/src/backend/backend.rs:210-218 | the pipeline agrees with `From<reqwest::Error>` except on connect failures ("Connection refused" against "Connection failed") |
| Backend.DecodeResponse | src-tauri/src/backend/backend.rs:223-228 | errors pass through; a decoded body is returned; a decode failure becomes Internal("Failed to parse response: …") |
| Backend.StatusOf | src-tauri/src/backend/backend.rs:116-122 | `post`/`delete` return Ok with the status iff the request returned a response; errors pass through |
| Backend.ReturnedStatusIsSuccess | src-tauri/src/backend/backend.rs:171-178 | a status that `post` or `delete` returns is always 2xx |
| Backend.OneServerErrorPerFailedResponse | src-tauri/src/backend/backend.rs:188-207 | a non-2xx response after a passed probe adds exactly one ServerError("Server error") event, and the error message is the response body |
| Backend.Draft | src-tauri/src/backend/backend.rs:105-178 | the URL is `{base}/{endpoint}`; the verb follows the client method; `get_with_body` and the POSTs carry the JSON content type and the given body; `get` and `delete` carry neither |
| Backend.OverrideUsedAtMostOnce | src-tauri/src/backend/backend.rs:231-252 | over any history of arming and sending, requests authorised by an override token number no more than the tokens armed |
| Backend.BackendClient.constructor | src-tauri/src/backend/backend.rs:22-37 | the base URL is resolved once; the override slot starts empty |
| Backend.BackendClient.SetTemporaryToken | src-tauri/src/backend/backend.rs:249-252 | arms the slot with the token, replacing any earlier one |
| Backend.BackendClient.CheckConnectivity | src-tauri/src/backend/backend.rs:68-102 | the loop issues `ProbeCount` probes, returns `ConnectivityResult`, emits one NetworkError only when the first probe fails, and sleeps once between consecutive probes |
| Backend.BackendClient.AddAuthorizationHeader | src-tauri/src/backend/backend.rs:231-246 | sets the header `AuthorizationHeader` chooses and leaves the override slot empty |
| Backend.BackendClient.SendRequest | src-tauri/src/backend/backend.rs:181-220 | probe first; only if it passes is the token taken and the request sent; result, sent requests, slot and events are those of the pipeline |
| Backend.BackendClient.Dispatch | src-tauri/src/backend/backend.rs:105-178 | each client method sends its draft and returns the status (`post`, `delete`) or the decoded body (`get`, `get_with_body`, `post_with_return`) |
| AppErrors.DisplayRoundTrip | src-tauri/src/error.rs:21-32 | the `Display` text of every error can be parsed back into that error |
| AppErrors.DisplayInjective | src-tauri/src/error.rs:21-32 | two errors display alike iff they are equal |
| AppErrors.Serialize | src-tauri/src/error.rs:36-43 | an error serialises as its `Display` string, from which the error is recovered |
| AppErrors.FromBoxed | src-tauri/src/error.rs:45-49 | a boxed error becomes "Internal error: " and its text |
| AppErrors.FromIo | src-tauri/src/error.rs:51-55 | an I/O error becomes "Network error: " and its text |
| AppErrors.FromReqwest | src-tauri/src/error.rs:57-67 | always a network error: timeouts first, then connect failures, then the error's own text |
| AppErrors.FromSerdeJson | src-tauri/src/error.rs:69-73 | a JSON error becomes "Internal error: " and its text |
| AppErrors.FromMusicKit | src-tauri/src/error.rs:75-79 | a MusicKit error becomes "Internal error: " and its text |
| Models.GetRoute | src-tauri/src/models.rs:45-47 | the route, or "" when there is none |
| Models.GetSharedData | src-tauri/src/models.rs:49-51 | the shared payload, unchanged |
| Models.DeserializeSharedNotification | src-tauri/src/models.rs:14-29 | null gives None; a string is parsed (a failure is a custom error with the parser's message); an object is a type error; only null and strings are accepted |
| Models.SerializeNotification | src-tauri/src/models.rs:31-42 | "type" always; "route" and "shared_notification" present iff set; the shared data is written as an object |
| Models.MissingSharedNotificationRejected | src-tauri/src/models.rs:37-41 | as written, a payload without `shared_notification` is rejected |
| Models.NotificationNeverRoundTrips | src-tauri/src/models.rs:31-42 | as written, no serialised notification deserialises again |
| Models.TolerantRoundTrip | src-tauri/src/models.rs:14-42 | the corrected decoding reads back every serialised notification unchanged |
| Models.TolerantExtendsAsWritten | src-tauri/src/models.rs:14-42 | the corrected decoding accepts everything the written one does, with the same result |
| Models.ServerErrorEvent | src-tauri/src/models.rs:66-70 | builds the ServerError variant with the message |
| Models.NetworkErrorEvent | src-tauri/src/models.rs:72-76 | builds the NetworkError variant with the message |
| Models.SerializeErrorNotification | src-tauri/src/models.rs:56-63 | internally tagged: exactly "type" (server_error or network_error) and "message" |
| Models.ErrorNotificationRoundTrip | src-tauri/src/models.rs:56-63 | an error event deserialises back to itself |
| UserValidators.ValidateNoSpaces | src-tauri/src/validators/user_validators.rs:10-17 | fails with `no_spaces` iff the name contains a space character |
| UserValidators.TabsAreNotSpaces | src-tauri/src/validators/user_validators.rs:11 | a tab is allowed; a space is not |
| UserValidators.ValidatePassword | src-tauri/src/validators/user_validators.rs:19-38 | accepts iff 10 to 20 characters from the allowed class with a lower-case letter, an upper-case letter, a digit and a special; the format error comes before the class error |
| UserValidators.PasswordAccepted | src-tauri/src/validators/user_validators.rs:7-8 | a 10-character password with all four classes passes |
| UserValidators.PasswordTooLong | src-tauri/src/validators/user_validators.rs:7-8 | a 21-character password fails the format check |
| UserValidators.PasswordMissingUppercase | src-tauri/src/validators/user_validators.rs:26-35 | a well-formed password without an upper-case letter fails the class check |
| UserValidators.PhoneMatchesShape | src-tauri/src/validators/user_validators.rs:5 | the matcher accepts exactly the strings of the pattern's grammar |
| UserValidators.ValidatePhone | src-tauri/src/validators/user_validators.rs:40-48 | accepts iff the pattern matches; otherwise the `invalid_phone` error |
| UserValidators.PhoneOfParts | src-tauri/src/validators/user_validators.rs:5 | any country part, a dash and 6 to 14 digits make a valid number |
| UserValidators.PhoneAccepts | src-tauri/src/validators/user_validators.rs:45 | the advertised format is accepted |
| UserValidators.PhoneRejectsLongCountryCode | src-tauri/src/validators/user_validators.rs:5 | a four-digit country code is rejected |
| UserValidators.PhoneRejectsBareCountryCode | src-tauri/src/validators/user_validators.rs:5 | a country code without `+` is rejected |
| UserService.ValidateCreateUser | src-tauri/src/backend/user.rs:8-29 | no errors iff the username has 3 to 200 characters and no space, the password validates, both names have 3 to 20 characters and the e-mail is accepted; errors name only the five fields |
| UserService.UsernameBoundIsTwoHundred | src-tauri/src/backend/user.rs:10-14 | a 51- to 200-character name without spaces draws no username error, whatever the message says |
| UserService.RegisterSendsInvalidRequests | src-tauri/src/backend/user.rs:61-68 | `register` POSTs a request that fails validation, body and all |
| AppleService.SendAuthorizationTokenResult | src-tauri/src/backend/apple.rs:23-29 | success iff the POST succeeded; errors pass through |
| NotificationService.PostSerialized | src-tauri/src/backend/notification.rs:20-40 | a request iff serialisation succeeded, a POST of the text to the endpoint; otherwise the serialiser's error |
| NotificationService.Run | src-tauri/src/backend/notification.rs:20-40 | a serialisation failure returns the serialiser's error, sends nothing and changes no client state; otherwise one POST of the text, with the client's slot, events and pauses as for any request, and its status or its error |
| ServiceRoutes.RecognizeRoute | src-tauri/src/backend/playlist.rs:22-67 | every operation of every service is recognised back from its client method and endpoint |
| ServiceRoutes.RoutesDistinct | src-tauri/src/backend/user.rs:61-80 | no two operations share a client method and endpoint; in particular different ids give different paths |
| ServiceRoutes.RecognizePlaylistRoute | src-tauri/src/backend/playlist.rs:22-67 | each playlist operation is recognised from its route |
| ServiceRoutes.RecognizeSendPlaylist | src-tauri/src/backend/playlist.rs:34-43 | `playlists/{id}/send` is read back as sending playlist id |
| ServiceRoutes.RecognizeSharePlaylist | src-tauri/src/backend/playlist.rs:45-54 | `playlists/{id}/share` is read back as sharing playlist id |
| ServiceRoutes.RecognizeMarkViewed | src-tauri/src/backend/playlist.rs:61-67 | `playlists/shared/{id}/viewed` is read back as marking share id viewed |
| ServiceRoutes.PlaylistPathNotShared | src-tauri/src/backend/playlist.rs:39-65 | a `playlists/{id}/…` path is never a shared-playlist path |
| ServiceRoutes.IdPath | src-tauri/src/backend/playlist.rs:39 | an id written into a path is read back |
| ServiceRoutes.RecognizeSpotifyRoute | src-tauri/src/backend/spotify.rs:27-49 | each Spotify operation is recognised from its route |
| ServiceRoutes.RecognizeYoutubeRoute | src-tauri/src/backend/youtube.rs:18-34 | each YouTube operation is recognised from its route |
| ServiceRoutes.RecognizeAppleRoute | src-tauri/src/backend/apple.rs:17-42 | each Apple operation is recognised from its route |
| ServiceRoutes.RecognizeApplePost | src-tauri/src/backend/apple.rs:23-36 | the two Apple POSTs are recognised from their routes |
| ServiceRoutes.RecognizeNotificationRoute | src-tauri/src/backend/notification.rs:20-40 | both notification POSTs are recognised from their routes |
| ResponseUtils.StatusToResult | src-tauri/src/utils/response.rs:5-13 | Ok(true) iff 2xx; otherwise "{operation} failed with status: {status}" |
| ResponseUtils.LogErrorRecoversError | src-tauri/src/utils/response.rs:16-20 | the logged message is the context, ": ", then exactly the error text |
| ResponseUtils.HandleResult | src-tauri/src/utils/response.rs:25-27 | Ok passes unchanged; an error becomes its text |
| ResponseUtils.HandleResultWithContext | src-tauri/src/utils/response.rs:28-30 | Ok passes unchanged; an error becomes its `log_error` message |
| ResponseUtils.HandleResultForms | src-tauri/src/utils/response.rs:24-31 | the two forms differ only in the context prefix of the error |
| AppCommands.ExternalAppUrl | src-tauri/src/commands/app.rs:110-163 | an error iff the platform is none of the four names, reading "Unknown platform: …" |
| AppCommands.ExternalAppUrlRoundTrip | src-tauri/src/commands/app.rs:110-163 | every link can be read back into its platform and playlist id, so different requests open different links |
| AppCommands.SpotifyLinksRoundTrip | src-tauri/src/commands/app.rs:111-118 | Spotify links read back to the platform and id |
| AppCommands.YoutubeLinksRoundTrip | src-tauri/src/commands/app.rs:119-138 | YouTube Music links, on Android and elsewhere, read back to the platform and id |
| AppCommands.AppleLinksRoundTrip | src-tauri/src/commands/app.rs:139-153 | Apple Music links, on iOS and elsewhere, read back to the platform and id |
| AppCommands.DeezerLinksRoundTrip | src-tauri/src/commands/app.rs:154-161 | Deezer links read back to the platform and id |
| AppCommands.OpenExternalApp | src-tauri/src/commands/app.rs:104-172 | a URL is opened iff the platform is known; success iff it opened; an opener failure reads "Failed to open …" |
| AppCommands.SearchesDifferOnlyInFriendFlags | src-tauri/src/commands/app.rs:33-102 | the non-friend search is the user search with friends prioritised and excluded; the search text is passed on |
| NotificationCommands.HandleNotificationData | src-tauri/src/commands/notifications.rs:11-47 | 1 to 3 events, the first `notification_data` carrying the whole notification |
| NotificationCommands.HandleNotificationDataEvents | src-tauri/src/commands/notifications.rs:11-47 | `routing` iff the route is non-empty; `playlist_shared` iff the type says so; in that order |
| NotificationCommands.HandleNotification | src-tauri/src/commands/notifications.rs:50-58 | the events of `handle_notification_data`, then `notification_clicked` |
| NotificationCommands.RoutedNonSharedNotification | src-tauri/src/commands/notifications.rs:23-46 | a routed notification of another type emits its data and its route only |
| NotificationCommands.FcmTokenRequest | src-tauri/src/commands/notifications.rs:62-66 | the token with the placeholder device id and platform |
| NotificationCommands.TestNotificationRequest | src-tauri/src/commands/notifications.rs:86-93 | the user, title and body, with data routing to `/register` |
| NotificationCommands.CommandResult | src-tauri/src/commands/notifications.rs:67-76 | Ok(true) iff a 2xx status; otherwise "…, status: {status}" or the error's text |
| NotificationCommands.CommandResultAgreesWithStatusToResult | src-tauri/src/commands/notifications.rs:68-74 | the commands accept exactly the statuses `status_to_result` accepts |
| NotificationCommands.SetFcmToken | src-tauri/src/commands/notifications.rs:60-77 | if serialisation fails nothing is sent and the result is the serialiser's message; otherwise one POST of the serialised request to `notifications/fcm-token` and the command's result |
| NotificationCommands.SendTestNotification | src-tauri/src/commands/notifications.rs:79-107 | if serialisation fails nothing is sent and the result is the serialiser's message; otherwise one POST of the serialised request to `notifications/test-notification` and the command's result |
| AppState.App.constructor | src-tauri/src/app.rs:59-78 | not ready; the Spotify port is 8000 |
| AppState.App.IsAppReady | src-tauri/src/app.rs:132-135 | reports the flag |
| AppState.App.SetAppReady | src-tauri/src/app.rs:137-140 | raises the flag |
| AppState.App.AuthorizationUrlRequest | src-tauri/src/app.rs:84-92 | the request carries the configured port |
| AppState.ReadyIsSticky | src-tauri/src/app.rs:132-140 | once raised, the flag stays raised whatever calls follow |
| AppState.ReadinessLifecycle | src-tauri/src/app.rs:132-140 | a new app reports not ready, then ready after `set_app_ready` |
| Tour.Merge | src/composables/useTour.ts:66 | each field comes from the update when present, else from the current state |
| Tour.SeenAfterSaves | src/composables/useTour.ts:63-79 | saving only the step keeps "seen"; skipping or completing makes the tour seen; an empty slot is unseen |
| Tour.RoundHalfUp | src/composables/useTour.ts:35-37 | the nearest integer, halves rounded up |
| Tour.ProgressRange | src/composables/useTour.ts:35-37 | progress grows strictly with the step, from 13 to 100 |
| Tour.Tour.constructor | src/composables/useTour.ts:16-17 | inactive on step 0 |
| Tour.Tour.StartTour | src/composables/useTour.ts:84-101 | active on step 0, navigates to the first step's route, saves step 0 |
| Tour.Tour.NextStep | src/composables/useTour.ts:106-131 | on the last step, completes and stays; otherwise moves on by one, navigates when not on the step's route, saves the step |
| Tour.Tour.PreviousStep | src/composables/useTour.ts:136-153 | nothing on the first step; otherwise back by one, navigates when needed, saves the step |
| Tour.Tour.SkipTour | src/composables/useTour.ts:158-166 | inactive; saved as skipped, so the tour is seen |
| Tour.Tour.CompleteTour | src/composables/useTour.ts:171-179 | inactive; saved as completed, so the tour is seen |
| Tour.Tour.ResetTour | src/composables/useTour.ts:184-188 | storage cleared, step 0, inactive, so the tour is unseen |
| Tour.WalkThrough | src/composables/useTour.ts:106-131 | seven `nextStep` calls from the start reach the last step and the eighth completes the tour |
| BackgroundSync.Pending | src/composables/useBackgroundSync.ts:77-84 | missing or unparsable storage reads as no operations |
| BackgroundSync.RemoveId | src/composables/useBackgroundSync.ts:89-93 | keeps exactly the operations with another id |
| BackgroundSync.AfterSyncIsSurviving | src/composables/useBackgroundSync.ts:32-39 | removing processed operations one at a time leaves those that no processed operation with the same id removed |
| BackgroundSync.SyncOutcome | src/composables/useBackgroundSync.ts:17-48 | an entry stays iff nothing with its id was processed; unknown types are always dropped; a failing known operation with a unique id stays |
| BackgroundSync.QueueThenRemove | src/composables/useBackgroundSync.ts:53-93 | removing a just-queued operation with a fresh id restores the list |
| BackgroundSync.Syncer.constructor | src/composables/useBackgroundSync.ts:10-12 | not syncing, never synced, no interval |
| BackgroundSync.Syncer.QueueOperation | src/composables/useBackgroundSync.ts:53-72 | appends the operation with id `now + random`; asks for a sync iff online |
| BackgroundSync.Syncer.RemovePendingOperation | src/composables/useBackgroundSync.ts:89-93 | storage holds `RemoveId` of the pending list |
| BackgroundSync.Syncer.SyncPendingOperations | src/composables/useBackgroundSync.ts:17-48 | nothing while syncing or offline; otherwise the list becomes `AfterSync` and the toast is shown iff the list was non-empty |
| BackgroundSync.Syncer.StartBackgroundSync | src/composables/useBackgroundSync.ts:118-126 | a running interval is kept; otherwise one with the given period (30 s by default) starts |
| BackgroundSync.Syncer.StopBackgroundSync | src/composables/useBackgroundSync.ts:131-136 | a running interval is cleared |
| Toast.NewToast | src/composables/useToast.ts:24-31 | id, message and title as given; kind defaults to info; duration defaults to 3000 |
| Toast.AutoRemoveDefault | src/composables/useToast.ts:52-56 | a toast removes itself iff its duration is unset or positive |
| Toast.FindIndex | src/composables/useToast.ts:62 | the first index with the id, or none iff no toast has it |
| Toast.Hide | src/composables/useToast.ts:64 | only that toast's `show` is cleared |
| Toast.SpliceAt | src/composables/useToast.ts:66 | removes the element at the index; past the end removes nothing |
| Toast.WithoutId | src/composables/useToast.ts:61-69 | keeps exactly the toasts with another id |
| Toast.WithoutIdKeepsOrder | src/composables/useToast.ts:23 | removal keeps the ids increasing |
| Toast.WithoutIdCommutes | src/composables/useToast.ts:61-69 | two removals by id give the same list in either order |
| Toast.CapturedIndexShifts | src/composables/useToast.ts:61-69 | as written, removing toasts 0 and 1 of three leaves toast 1 and drops toast 2 |
| Toast.Toaster.constructor | src/composables/useToast.ts:16-17 | no toasts; ids start at 0 |
| Toast.Toaster.Show | src/composables/useToast.ts:22-59 | the new toast takes the next id and goes last; auto-removal and haptic follow its duration and kind |
| Toast.Toaster.ShowAs | src/composables/useToast.ts:71-85 | `success`/`error`/`warning`/`info` show a toast of that kind, with the auto-removal and haptic of `show` |
| Toast.Toaster.Remove | src/composables/useToast.ts:61-69 | an unknown id changes nothing; otherwise the toast is hidden and its index captured |
| Toast.Toaster.SpliceCaptured | src/composables/useToast.ts:65-67 | as written, the timer splices at the captured index |
| Toast.Toaster.FinishRemoval | src/composables/useToast.ts:61-69 | corrected, the timer removes the toast by id |
| Retry.WithRetry | src/composables/useRetry.ts:17-72 | the loop's run equals the reference `RunFrom` from attempt 1 |
| Retry.RunFromShape | src/composables/useRetry.ts:40-69 | at most `maxAttempts` calls; one recorded retry per retried failure, with its toast and wait; the result is the last call's value or error, thrown only when out of attempts or not retryable |
| Retry.WithRetrySpec | src/composables/useRetry.ts:17-72 | `fn` runs between 1 and `maxAttempts` times (none below 1, throwing undefined), and every call before the last failed |
| Retry.BackoffDoubles | src/composables/useRetry.ts:52 | with backoff each wait doubles the previous one, starting at 1000 ms by default |
| Retry.WithExponentialBackoff | src/composables/useRetry.ts:77-86 | the wait after the j-th retried failure is 1000·2^j ms |
| Retry.WithFixedDelay | src/composables/useRetry.ts:91-101 | every wait is `delay` |
| OfflineCache.Lookup | src/composables/useOfflineCache.ts:38-51 | a value iff the key holds an entry no older than its lifetime |
| OfflineCache.AfterLookup | src/composables/useOfflineCache.ts:45-48 | an expired entry for the key is deleted; nothing else changes |
| OfflineCache.Cleared | src/composables/useOfflineCache.ts:56-62 | a non-empty key deletes that entry; no key or "" clears all |
| OfflineCache.SetThenLookup | src/composables/useOfflineCache.ts:27-51 | a stored value is returned until its lifetime passes; other keys are unaffected |
| OfflineCache.LookupStable | src/composables/useOfflineCache.ts:38-51 | a lookup does not change any lookup at the same time |
| OfflineCache.Cache.SetOnline | src/composables/useOfflineCache.ts:13-21 | the online/offline events set the flag |
| OfflineCache.Cache.SetCache | src/composables/useOfflineCache.ts:27-33 | stores the entry stamped now |
| OfflineCache.Cache.GetCache | src/composables/useOfflineCache.ts:38-51 | returns `Lookup` and deletes an expired entry |
| OfflineCache.Cache.ClearCache | src/composables/useOfflineCache.ts:56-62 | the map becomes `Cleared` |
| OfflineCache.Cache.HasCache | src/composables/useOfflineCache.ts:67-69 | true iff `Lookup` finds a value |
| OfflineCache.Cache.FetchWithCache | src/composables/useOfflineCache.ts:76-123 | offline: a truthy cached value or an error; online: a truthy cached value unless forced, else the fetched value (cached), else a truthy stale value, else the fetch error |
| FuzzySearch.LevenshteinDistance | src/composables/useFuzzySearch.ts:4-28 | the table algorithm returns the edit distance `Lev` |
| FuzzySearch.FillRow | src/composables/useFuzzySearch.ts:17-24 | fills one row from the previous one and touches no other row |
| FuzzySearch.LevBounds | src/composables/useFuzzySearch.ts:4-28 | the distance lies between the length difference and the longer length |
| FuzzySearch.LevZeroIff | src/composables/useFuzzySearch.ts:4-28 | distance 0 iff the strings are equal |
| FuzzySearch.LevSymmetric | src/composables/useFuzzySearch.ts:4-28 | the distance is symmetric |
| FuzzySearch.Words | src/composables/useFuzzySearch.ts:45 | at least one piece; no piece holds white space |
| FuzzySearch.WordsAreInfixes | src/composables/useFuzzySearch.ts:45 | every word is a substring of the text |
| FuzzySearch.CalculateSimilarity | src/composables/useFuzzySearch.ts:31-66 | the method returns the reference score `Similarity` |
| FuzzySearch.ScoreWords | src/composables/useFuzzySearch.ts:49-65 | the word loop returns the least word score, including the early return for a word prefix |
| FuzzySearch.MinScoreIsLeast | src/composables/useFuzzySearch.ts:49-65 | the least word score is at most every word's score and equals one of them |
| FuzzySearch.SimilarityMatchLevels | src/composables/useFuzzySearch.ts:36-42 | score 0 iff equal, ≤ 0.5 iff prefix, ≤ 1 iff substring, all ignoring case |
| FuzzySearch.SimilarityFuzzy | src/composables/useFuzzySearch.ts:44-65 | without a substring match the score is 3 for a word containing the query, else the least distance + 4 |
| FuzzySearch.MatchOrder | src/composables/useFuzzySearch.ts:36-42 | equal implies prefix implies substring |
| FuzzySearch.MaxScore | src/composables/useFuzzySearch.ts:84-86 | the threshold is 3, 4, 5 or 6 |
| FuzzySearch.KeptMeaning | src/composables/useFuzzySearch.ts:84-93 | an item is kept iff its text contains the query or some word is close enough; for queries of up to 4 characters only substrings are kept |
| FuzzySearch.Scored | src/composables/useFuzzySearch.ts:89-92 | each item paired with its score, in order |
| FuzzySearch.Within | src/composables/useFuzzySearch.ts:93 | keeps exactly the scored items under the threshold |
| FuzzySearch.FilteredItemsCorrect | src/composables/useFuzzySearch.ts:73-96 | a blank query keeps the list; otherwise the result is the kept items, by ascending score, ties in input order |
| StableSort.SortCorrect | src/composables/useFuzzySearch.ts:94 | the sort orders by key, permutes its input, and keeps the input order among equal keys |
| StableSort.SortUnique | src/store/sharedPlaylists.ts:102-109 | sortedness, same elements and per-key order determine the result |
| SharedPlaylists.ParseIntPrefixOfDecimal | src/store/sharedPlaylists.ts:55 | `parseInt` reads back every decimal id |
| SharedPlaylists.UnviewedCount | src/store/sharedPlaylists.ts:97-99 | at most the number of entries |
| SharedPlaylists.FindIndex | src/store/sharedPlaylists.ts:78 | the first entry with the id, or none iff no entry has it |
| SharedPlaylists.MarkFirstViewedEffect | src/store/sharedPlaylists.ts:78-82 | only the first matching entry becomes viewed; the unviewed count drops by one iff it was unviewed |
| SharedPlaylists.Keys | src/store/sharedPlaylists.ts:101-110 | each entry keyed by viewed-last, then most recent first |
| SharedPlaylists.SortedPlaylistsOrder | src/store/sharedPlaylists.ts:101-110 | the copy has the same entries; unviewed before viewed, newer before older |
| SharedPlaylists.Store.constructor | src/store/sharedPlaylists.ts:22-26 | empty, not loading, never fetched |
| SharedPlaylists.Store.BeginFetch | src/store/sharedPlaylists.ts:29-38 | skipped iff unforced within 30 s of a truthy last fetch; otherwise loading |
| SharedPlaylists.Store.FinishFetch | src/store/sharedPlaylists.ts:39-48 | not loading; on success the list and the fetch time are replaced; on failure nothing else changes |
| SharedPlaylists.Store.FetchSharedPlaylists | src/store/sharedPlaylists.ts:29-49 | the throttled fetch run to completion |
| SharedPlaylists.Store.AddSharedPlaylist | src/store/sharedPlaylists.ts:51-71 | prepends an unviewed entry (parsed id, "A friend" by default), raising the unviewed count by one; the forced refetch starts |
| SharedPlaylists.Store.MarkAsViewed | src/store/sharedPlaylists.ts:73-87 | after the backend accepts, the first matching entry is viewed; a backend error changes nothing and is rethrown |
| SharedPlaylists.Store.Reset | src/store/sharedPlaylists.ts:89-93 | back to the initial state |
| PlaylistMusics.Loader.constructor | src/composables/usePlaylistMusics.ts:18-20 | not loading, no error, empty cache |
| PlaylistMusics.Loader.GetPlaylistMusics | src/composables/usePlaylistMusics.ts:22-48 | a cached id is served without a call; otherwise the backend is asked and a success is cached, a failure recorded and [] returned |
| PlaylistMusics.Loader.ClearCache | src/composables/usePlaylistMusics.ts:50-56 | one id, or every id when none is given |
| PlaylistMusics.FetchTwice | src/composables/usePlaylistMusics.ts:22-48 | after a success the second call returns the same list from the cache |
| PlaylistMusics.RetryAfterFailure | src/composables/usePlaylistMusics.ts:22-48 | after a failure the next call asks again |
| SendPlaylist.ConnectedPlatformsSpec | src/composables/useSendPlaylist.ts:19-56 | a platform is offered iff the user has playlists there; Spotify, YouTube Music, Apple Music in that order; never Deezer |
| SendPlaylist.SinglePlatform | src/composables/useSendPlaylist.ts:59-91 | with a single platform it is the one with playlists |
| SendPlaylist.ConnectedPlatformsAsWritten | src/composables/useSendPlaylist.ts:38 | with an Apple list present, the same platforms as the corrected computation |
| SendPlaylist.ApplePlaylistsUndeclared | src/composables/useSendPlaylist.ts:38 | as written, the missing Apple list makes the computation throw |
| SendPlaylist.Sender.SendPlaylistToPlatform | src/composables/useSendPlaylist.ts:62-83 | always sends; true iff the backend accepts; its error is kept otherwise; not sending afterwards |
| SendPlaylist.Sender.SendToDefaultPlatform | src/composables/useSendPlaylist.ts:85-93 | over the corrected store (with an Apple list): unless exactly one platform is connected, nothing is sent and the message is set; otherwise that platform receives the playlist |
| AppStore.WithLoading | src/store/app.ts:34-39 | only the named service's flag changes |
| AppStore.LoadingIndependent | src/store/app.ts:34-39 | resetting a flag restores the flags; setting two services commutes |
| AppStore.Store.constructor | src/store/app.ts:21-29 | nothing ready, loading or sending; no success |
| AppStore.Store.SetAppReady | src/store/app.ts:31-33 | sets only readiness |
| AppStore.Store.SetLoading | src/store/app.ts:34-39 | the flags become `WithLoading` |
| AppStore.Store.SetSendingPlaylist | src/store/app.ts:40-42 | sets only the sending flag |
| AppStore.Store.SetPlaylistSendSuccess | src/store/app.ts:43-45 | sets only the last success |
| UserStore.AllPlaylists | src/store/user.ts:62-64 | YouTube, then Deezer, then Spotify playlists, each block intact |
| UserStore.ReplaceOneBlock | src/store/user.ts:57-64 | replacing the Spotify list changes only its block |
| UserStore.Store.constructor | src/store/user.ts:33-41 | signed out with no playlists |
| UserStore.Store.SetUserInfo | src/store/user.ts:43-47 | id and username set, marked loaded; nothing else changes |
| UserStore.Store.SetToken | src/store/user.ts:48-50 | sets only the token |
| UserStore.Store.SetYoutubePlaylists | src/store/user.ts:51-53 | sets only the YouTube list |
| UserStore.Store.SetDeezerPlaylists | src/store/user.ts:54-56 | sets only the Deezer list |
| UserStore.Store.SetSpotifyPlaylists | src/store/user.ts:57-59 | sets only the Spotify list |
| UserStore.Store.SetApplePlaylists | src/composables/usePlaylistManagement.ts:72 | sets only the Apple list; the setter the playlist loader calls and the field src/models/user.ts:17 declares, which the store itself lacks |
| PlaylistAdapters.AdaptPlaylist | src/models/playlist.ts:31-45 | numeric ids become decimal strings that parse back; other fields are kept; a missing track list becomes empty |
| PlaylistAdapters.AdaptPlaylistResponse | src/models/playlist.ts:31-45 | same length, element by element |
| PlaylistAdapters.AdaptedIdsDistinct | src/models/playlist.ts:31-45 | different ids stay different |
| PlaylistAdapters.AdaptSharedPlaylist | src/models/playlist.ts:79-98 | share id, sender and date kept; unviewed; the inner playlist takes the share's id |
| PlaylistAdapters.SharedIdIsShareId | src/models/playlist.ts:79-98 | a share 3 of playlist 7 shows id "3" |
| Router.MergeMeta | src/router.ts:19-65 | each meta flag comes from the child when set, else from the parent |
| Router.TableShape | src/router.ts:16-66 | the resolved table is the login page, the root redirect, the `/home` tree and the account pages |
| Router.HomeTree | src/router.ts:19-53 | every page under `/home` has its joined path and inherits `requiresAuth` |
| Router.AccountTree | src/router.ts:54-66 | the account pages' paths and meta |
| Router.Guard | src/router.ts:73-89 | to "/" iff the route needs a query and has none; to Login iff it needs auth without a token; otherwise proceed |
| Router.GuardOverTable | src/router.ts:16-89 | without a token every `/home` page redirects to Login; with one every page proceeds; `/reset-password` without a query goes to "/" |
| Helpers.TrackCountRoundTrip | src/utils/helpers.ts:4-8 | every count has its own label, read back by a parser |
| Helpers.Truncate | src/utils/helpers.ts:13-16 | text within the limit is unchanged; otherwise the first `maxLength` characters and "..." |
| Helpers.TruncateBound | src/utils/helpers.ts:13-16 | never longer than the limit plus the ellipsis |
| Helpers.SliceTo | src/utils/helpers.ts:15 | a prefix, of the requested length when in range |
| Helpers.EmailMatchesShape | src/utils/helpers.ts:21-24 | the matcher accepts exactly "local@domain.tld" with non-blank, `@`-free parts |
| Helpers.IsValidPassword | src/utils/helpers.ts:29-31 | at least eight characters |
| Helpers.GetUserInitials | src/utils/helpers.ts:36-43 | "?" for an empty name; never more than two characters |
| Helpers.InitialsOfFirstAndLastWord | src/utils/helpers.ts:36-43 | the upper-cased first letters of the first and last words of the trimmed name, or of its only word |
| Helpers.RelativeTimeBuckets | src/utils/helpers.ts:67-90 | "just now" under a minute; minutes, hours and days with the plural `s` exactly when not 1; the locale date from seven days on |
| Text.SplitJoin | src/utils/helpers.ts:38 | joining the pieces of `split` gives the string back |
| Text.ParseIntToString | src/models/playlist.ts:31-45 | a rendered integer parses back to itself |

## Left out

- I/O is left out: HTTP transport, local storage, the pinia store files and the Tauri event bus. Each becomes an input or a recorded field.
- JSON encoding and decoding of request bodies are inputs, as text or as a parser. Only the shape of a notification payload is modelled.
- Concurrency is left out: the mutex around the override token and the ready flag, and interleaved async calls. Calls are taken one at a time.
- `fetchSharedPlaylists` is split at its `await` into `BeginFetch` and `FinishFetch` to expose the window in which a second fetch can start.
- Floating point, `Math.pow` and `Math.round`: integer arithmetic is exact. Fuzzy scores are doubled.
- Unicode case mapping and Unicode white space: case conversion covers ASCII letters only. White space is the JavaScript `\s` set of ASCII and common spaces.
- `Date` parsing and locale formatting are left out. Dates are integer milliseconds. `shared_at` keeps its ISO text, and `sortedPlaylists` compares through a parameter. The dates `formatRelativeTime` prints after seven days are left out (`None`).
- Fetchers called in the background are left out: the refresh in `fetchWithCache` and the refetch in `addSharedPlaylist`. Their completion is another call.
- Effects on the platform are left out: haptics, `router.push`, scrolling, DOM look-ups, logging, step actions and timers. Navigation and toasts are returned. Waits are recorded.
- The 500 ms pause after a successful send and the `onMounted`/`onUnmounted` hooks are left out.
- Fields of `handle_notification_data` that the notification type does not declare (`playlist_name`, `playlist_id`) are left out. They appear only in log lines.
- `App.login_email` and `App.verify_token` call `UserService` methods that src-tauri/src/backend/user.rs does not define. They are not part of this model.
- `set_fcm_token` and `send_test_notification` (src-tauri/src/commands/notifications.rs:67, :94) call methods of the same names on `App`, which src-tauri/src/app.rs does not define. Only `NotificationService` (src-tauri/src/backend/notification.rs:20, :31) has them. The model routes both commands straight to `NotificationService.Run`; the missing `App` forwarding methods are not part of this model.
- UserStore.Store: adds the Apple Music list and `SetApplePlaylists`, which src/store/user.ts does not declare. SendPlaylist.Sender.SendToDefaultPlatform therefore describes the corrected store, not the TypeError the code as written raises (`SendPlaylist.ApplePlaylistsUndeclared`).
- The OAuth redirect servers started in `App::new` and the Deezer client are left out. They are platform plugins.
- Route components and lazy imports are left out. Only paths, names, redirects and `meta` are modelled.
- Helpers.GetUserInitials: states only the empty-name case and the length bound. Its full behaviour is stated by `Helpers.InitialsOfFirstAndLastWord`.
- Backend.BackendClient.CheckConnectivity: the two-second sleep is counted, not timed.

## Findings

| source | as written | input that shows it | evidently intended | confidence | as-written member | corrected member |
|---|---|---|---|---|---|---|
| src-tauri/src/models.rs:31-42 | `shared_notification` uses `deserialize_with` without `default`, so serde requires the field. The field also accepts only a JSON string, while `Serialize` writes an object | any `Notification`: without shared data the field is omitted and decoding fails; with shared data it is an object where a string is expected | a missing or null field gives None, and the shared data is accepted as a string or an object, so serialising and decoding round-trips | not executed | Models.NotificationNeverRoundTrips | Models.TolerantRoundTrip |
| src/composables/useToast.ts:61-69 | the removal timer splices at the index captured before the 300 ms wait | toasts 0, 1, 2; `remove(0)` then `remove(1)` within 300 ms; the second splice hits index 1 of [1, 2] and drops toast 2, leaving toast 1 | each timer removes the toast with its own id | not executed | Toast.CapturedIndexShifts | Toast.WithoutIdCommutes |
| src/composables/useSendPlaylist.ts:38 | reads `userStore.applePlaylists`, which the user store does not declare, so `.length` throws | any user, whatever their playlists: line 38 runs on every evaluation, so no platform list is ever produced | the store holds an Apple Music list, initially empty, and the platform list covers it | not executed | SendPlaylist.ApplePlaylistsUndeclared | SendPlaylist.ConnectedPlatformsSpec |
