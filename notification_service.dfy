/** src-tauri/src/backend/notification.rs: serialise, then one POST. */
module NotificationService {
  import opened Wrappers
  import opened Http
  import opened AppErrors
  import opened Backend

  /** The error of a `NotificationService` call: the serialiser's, or the client's. */
  datatype ServiceError = SerializeFailed(message: string) | Transport(error: AppError)

  /** `e.to_string()` of a service error. */
  function ServiceErrorText(e: ServiceError): string {
    match e
    case SerializeFailed(m) => m
    case Transport(a) => Display(a)
  }

  /** The request for a serialisation outcome: none when it failed. */
  function PostSerialized(endpoint: string, serialized: Result<string, string>): (r: Result<RequestSpec, ServiceError>)
    ensures r.Ok? <==> serialized.Ok?
    ensures r.Ok? ==> r.value == RequestSpec(Post, endpoint, Some(Serialized(serialized.value)))
    ensures serialized.Err? ==> r == Err(SerializeFailed(serialized.error))
  {
    match serialized
    case Ok(json) => Ok(RequestSpec(Post, endpoint, Some(Serialized(json))))
    case Err(m) => Err(SerializeFailed(m))
  }

  function SetFcmToken(serialized: Result<string, string>): Result<RequestSpec, ServiceError> {
    PostSerialized("notifications/fcm-token", serialized)
  }

  function SendTestNotification(serialized: Result<string, string>): Result<RequestSpec, ServiceError> {
    PostSerialized("notifications/test-notification", serialized)
  }

  /** A `NotificationService` call: nothing is sent when serialisation fails, and
      a client error reaches the caller unchanged. */
  method Run(client: BackendClient, endpoint: string, serialized: Result<string, string>, w: Wire)
    returns (r: Result<StatusCode, ServiceError>)
    modifies client`nextRequestToken, client`errorEvents, client`sent, client`sleeps
    ensures serialized.Err? ==>
      (r == Err(SerializeFailed(serialized.error)) && client.sent == old(client.sent)
       && client.nextRequestToken == old(client.nextRequestToken) && client.errorEvents == old(client.errorEvents)
       && client.sleeps == old(client.sleeps))
    ensures serialized.Ok? ==>
      client.sent == old(client.sent)
        + Dispatched(w, Draft(client.baseUrl, PostSerialized(endpoint, serialized).value), old(client.nextRequestToken))
    ensures serialized.Ok? ==>
      && client.nextRequestToken == SlotAfter(w, old(client.nextRequestToken))
      && client.errorEvents == old(client.errorEvents) + PipelineEvents(w)
      && client.sleeps == old(client.sleeps) + ProbeCount(w.probe) - 1
    ensures serialized.Ok? ==>
      (match StatusOf(PipelineResult(w))
       case Ok(s) => r == Ok(s)
       case Err(e) => r == Err(Transport(e)))
  {
    var request := PostSerialized(endpoint, serialized);
    if request.Err? {
      return Err(request.error);
    }
    var reply := client.Dispatch(request.value, (s: string) => Ok(s), w);
    r := if reply.Ok? then Ok(reply.value.status) else Err(Transport(reply.error));
  }
}
