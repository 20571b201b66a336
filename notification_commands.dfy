/** src-tauri/src/commands/notifications.rs: the events a received or clicked
    push notification emits, and the two notification commands. An emit that
    fails is logged and the following emits still happen, so the event list is
    the list of emits attempted. */
module NotificationCommands {
  import opened Wrappers
  import opened Http
  import opened Models
  import opened Backend
  import NotificationService
  import ResponseUtils

  datatype EventPayload = WholeNotification(notification: Notification) | RouteText(route: string)

  /** One `app.emit(name, payload)`. */
  datatype Event = Event(name: string, payload: EventPayload)

  predicate Emits(evs: seq<Event>, name: string) {
    exists i :: 0 <= i < |evs| && evs[i].name == name
  }

  /** `handle_notification_data`. */
  function HandleNotificationData(n: Notification): (evs: seq<Event>)
    ensures 1 <= |evs| <= 3 && evs[0] == Event("notification_data", WholeNotification(n))
  {
    var route := GetRoute(n);
    [Event("notification_data", WholeNotification(n))]
    + (if route != "" then [Event("routing", RouteText(route))] else [])
    + (if n.notificationType == "playlist_shared" then [Event("playlist_shared", WholeNotification(n))] else [])
  }

  /** `notification_data` comes first and carries the whole notification;
      `routing` is emitted iff the route is non-empty, with the route as payload;
      `playlist_shared` iff the type says so, and always after `routing`. */
  lemma {:induction false} HandleNotificationDataEvents(n: Notification)
    ensures var evs := HandleNotificationData(n);
      && (Emits(evs, "routing") <==> GetRoute(n) != "")
      && (forall i :: 0 <= i < |evs| && evs[i].name == "routing" ==> evs[i].payload == RouteText(GetRoute(n)))
      && (Emits(evs, "playlist_shared") <==> n.notificationType == "playlist_shared")
      && (forall i :: 0 <= i < |evs| && evs[i].name == "playlist_shared" ==> evs[i].payload == WholeNotification(n))
      && (forall i, j :: 0 <= i < |evs| && 0 <= j < |evs| && evs[i].name == "routing" && evs[j].name == "playlist_shared" ==> i < j)
  {
    var evs := HandleNotificationData(n);
    var routed := GetRoute(n) != "";
    var shared := n.notificationType == "playlist_shared";
    assert |evs| == 1 + (if routed then 1 else 0) + (if shared then 1 else 0);
    if routed {
      assert evs[1] == Event("routing", RouteText(GetRoute(n)));
    }
    if shared {
      assert evs[|evs| - 1] == Event("playlist_shared", WholeNotification(n));
    }
  }

  /** `handle_notification`: the same events, then `notification_clicked`. */
  function HandleNotification(n: Notification): (evs: seq<Event>)
    ensures |evs| >= 2
    ensures evs[..|evs| - 1] == HandleNotificationData(n)
    ensures evs[|evs| - 1] == Event("notification_clicked", WholeNotification(n))
  {
    HandleNotificationData(n) + [Event("notification_clicked", WholeNotification(n))]
  }

  /** A notification with a route and of another type emits its data and the route only. */
  lemma RoutedNonSharedNotification(t: string, route: string)
    requires t != "playlist_shared" && route != ""
    ensures var n := Notification(t, Some(route), None);
      HandleNotificationData(n) == [Event("notification_data", WholeNotification(n)), Event("routing", RouteText(route))]
  {
  }

  /** `RegisterFcmTokenRequest` as `set_fcm_token` builds it. */
  datatype RegisterFcmTokenRequest = RegisterFcmTokenRequest(token: string, deviceId: Option<string>, platform: Option<string>)

  function FcmTokenRequest(token: string): (r: RegisterFcmTokenRequest)
    ensures r.token == token
    ensures r.deviceId == Some("default_device_id") && r.platform == Some("default_platform")
  {
    RegisterFcmTokenRequest(token, Some("default_device_id"), Some("default_platform"))
  }

  /** `SendTestNotificationRequest` as `send_test_notification` builds it. */
  datatype SendTestNotificationRequest = SendTestNotificationRequest(
    userId: int, title: string, body: string, data: Option<map<string, string>>)

  function TestNotificationRequest(userId: int, title: string, body: string): (r: SendTestNotificationRequest)
    ensures r.userId == userId && r.title == title && r.body == body
    ensures r.data == Some(map["route" := "/register"])
  {
    SendTestNotificationRequest(userId, title, body, Some(map["route" := "/register"]))
  }

  /** The result a notification command reports for the service's outcome. */
  function CommandResult(outcome: Result<StatusCode, NotificationService.ServiceError>, failure: string)
    : (r: Result<bool, string>)
    ensures r.Ok? <==> outcome.Ok? && IsSuccess(outcome.value)
    ensures r.Ok? ==> r.value
    ensures outcome.Ok? && !IsSuccess(outcome.value) ==> r.error == failure + ", status: " + StatusDisplay(outcome.value)
    ensures outcome.Err? ==> r.error == NotificationService.ServiceErrorText(outcome.error)
  {
    match outcome
    case Ok(status) =>
      if IsSuccess(status) then Ok(true) else Err(failure + ", status: " + StatusDisplay(status))
    case Err(e) => Err(NotificationService.ServiceErrorText(e))
  }

  /** The commands accept exactly the statuses `status_to_result` accepts. */
  lemma CommandResultAgreesWithStatusToResult(status: StatusCode, failure: string, operation: string)
    ensures CommandResult(Ok(status), failure).Ok? == ResponseUtils.StatusToResult(status, operation).Ok?
  {
  }

  /** `set_fcm_token`: build the request, serialise it, POST it. */
  method SetFcmToken(client: BackendClient, token: string,
                     serialize: RegisterFcmTokenRequest -> Result<string, string>, w: Wire)
    returns (r: Result<bool, string>)
    modifies client`nextRequestToken, client`errorEvents, client`sent, client`sleeps
    ensures serialize(FcmTokenRequest(token)).Err? ==>
      && client.sent == old(client.sent)
      && client.nextRequestToken == old(client.nextRequestToken) && client.errorEvents == old(client.errorEvents)
      && r == Err(serialize(FcmTokenRequest(token)).error)
    ensures serialize(FcmTokenRequest(token)).Ok? ==>
      client.sent == old(client.sent)
        + Dispatched(w, Draft(client.baseUrl, RequestSpec(Post, "notifications/fcm-token", Some(Serialized(serialize(FcmTokenRequest(token)).value)))),
                     old(client.nextRequestToken))
    ensures serialize(FcmTokenRequest(token)).Ok? ==>
      r == CommandResult(
        match StatusOf(PipelineResult(w))
        case Ok(s) => Ok(s)
        case Err(e) => Err(NotificationService.Transport(e)),
        "Failed to set FCM token")
  {
    var outcome := NotificationService.Run(client, "notifications/fcm-token", serialize(FcmTokenRequest(token)), w);
    r := CommandResult(outcome, "Failed to set FCM token");
  }

  /** `send_test_notification`: the test request always routes to `/register`. */
  method SendTestNotification(client: BackendClient, title: string, body: string, userId: int,
                              serialize: SendTestNotificationRequest -> Result<string, string>, w: Wire)
    returns (r: Result<bool, string>)
    modifies client`nextRequestToken, client`errorEvents, client`sent, client`sleeps
    ensures serialize(TestNotificationRequest(userId, title, body)).Err? ==>
      && client.sent == old(client.sent)
      && client.nextRequestToken == old(client.nextRequestToken) && client.errorEvents == old(client.errorEvents)
      && r == Err(serialize(TestNotificationRequest(userId, title, body)).error)
    ensures serialize(TestNotificationRequest(userId, title, body)).Ok? ==>
      client.sent == old(client.sent)
        + Dispatched(w, Draft(client.baseUrl, RequestSpec(Post, "notifications/test-notification", Some(Serialized(serialize(TestNotificationRequest(userId, title, body)).value)))),
                     old(client.nextRequestToken))
    ensures serialize(TestNotificationRequest(userId, title, body)).Ok? ==>
      r == CommandResult(
        match StatusOf(PipelineResult(w))
        case Ok(s) => Ok(s)
        case Err(e) => Err(NotificationService.Transport(e)),
        "Failed to send test notification")
  {
    var outcome := NotificationService.Run(client, "notifications/test-notification",
                                           serialize(TestNotificationRequest(userId, title, body)), w);
    r := CommandResult(outcome, "Failed to send test notification");
  }
}
