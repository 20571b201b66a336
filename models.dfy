/** Push-notification payloads and the error events of the native side
    (src-tauri/src/models.rs). JSON is modelled as a value tree; the decoding
    of a `SharedNotificationData` from text or from an object is a parameter. */
module Models {
  import opened Wrappers

  datatype SharedNotificationData = SharedNotificationData(
    playlistId: int,
    playlistName: string,
    sharedById: int,
    sharedByUsername: string)

  datatype Notification = Notification(
    notificationType: string,
    route: Option<string>,
    sharedNotification: Option<SharedNotificationData>)

  /** `get_route`: the route, or the empty string when there is none. */
  function GetRoute(n: Notification): (r: string)
    ensures n.route.Some? ==> r == n.route.value
    ensures n.route.None? ==> r == ""
  {
    n.route.GetOr("")
  }

  /** `get_shared_data`: a view of the shared-playlist payload, unchanged. */
  function GetSharedData(n: Notification): (r: Option<SharedNotificationData>)
    ensures r.Some? <==> n.sharedNotification.Some?
    ensures r.Some? ==> r.value == n.sharedNotification.value
  {
    n.sharedNotification
  }

  datatype JsonValue =
    | JNull
    | JBool(b: bool)
    | JNumber(n: int)
    | JString(s: string)
    | JArray(items: seq<JsonValue>)
    | JObject(fields: map<string, JsonValue>)

  /** What serde reports when a payload does not fit the type. */
  datatype DeError = MissingField(field: string) | InvalidType(field: string) | Custom(msg: string)

  /** `deserialize_shared_notification`: the field is first read as `Option<String>`
      (null gives None, a string is kept, anything else is a type error), then the
      string is parsed as JSON by `parse`. */
  function DeserializeSharedNotification(
    v: JsonValue, parse: string -> Result<SharedNotificationData, string>)
    : (r: Result<Option<SharedNotificationData>, DeError>)
    ensures v == JNull ==> r == Ok(None)
    ensures v.JString? && parse(v.s).Ok? ==> r == Ok(Some(parse(v.s).value))
    ensures v.JString? && parse(v.s).Err? ==>
      r == Err(Custom("Failed to parse shared_notification: " + parse(v.s).error))
    ensures v.JObject? ==> r == Err(InvalidType("shared_notification"))
    ensures r.Ok? ==> v == JNull || v.JString?
  {
    match v
    case JNull => Ok(None)
    case JString(s) =>
      (match parse(s)
       case Ok(d) => Ok(Some(d))
       case Err(e) => Err(Custom("Failed to parse shared_notification: " + e)))
    case _ => Err(InvalidType("shared_notification"))
  }

  /** A plain `Option<String>` field: missing or null gives None. */
  function DeserializeOptionalString(obj: map<string, JsonValue>, key: string): Result<Option<string>, DeError> {
    if key !in obj || obj[key] == JNull then Ok(None)
    else if obj[key].JString? then Ok(Some(obj[key].s))
    else Err(InvalidType(key))
  }

  function DeserializeType(obj: map<string, JsonValue>): Result<string, DeError> {
    if "type" !in obj then Err(MissingField("type"))
    else if obj["type"].JString? then Ok(obj["type"].s)
    else Err(InvalidType("type"))
  }

  /** The derived `Deserialize for Notification`, as written. A field with
      `deserialize_with` and no `default` attribute is required by serde's derive,
      so a payload without `shared_notification` is rejected. */
  function DeserializeNotification(
    obj: map<string, JsonValue>, parse: string -> Result<SharedNotificationData, string>)
    : Result<Notification, DeError>
  {
    match DeserializeType(obj)
    case Err(e) => Err(e)
    case Ok(t) =>
      match DeserializeOptionalString(obj, "route")
      case Err(e) => Err(e)
      case Ok(route) =>
        if "shared_notification" !in obj then Err(MissingField("shared_notification"))
        else
          match DeserializeSharedNotification(obj["shared_notification"], parse)
          case Err(e) => Err(e)
          case Ok(shared) => Ok(Notification(t, route, shared))
  }

  /** The derived `Serialize for Notification`: `notification_type` under "type",
      `route` and `shared_notification` omitted when None, the shared data written
      as a JSON object by `encode`. */
  function SerializeNotification(n: Notification, encode: SharedNotificationData -> JsonValue)
    : (obj: map<string, JsonValue>)
    ensures "type" in obj && obj["type"] == JString(n.notificationType)
    ensures "route" in obj <==> n.route.Some?
    ensures n.route.Some? ==> obj["route"] == JString(n.route.value)
    ensures "shared_notification" in obj <==> n.sharedNotification.Some?
    ensures n.sharedNotification.Some? ==> obj["shared_notification"] == encode(n.sharedNotification.value)
    ensures obj.Keys <= {"type", "route", "shared_notification"}
  {
    var base := map["type" := JString(n.notificationType)];
    var withRoute := if n.route.Some? then base["route" := JString(n.route.value)] else base;
    if n.sharedNotification.Some? then withRoute["shared_notification" := encode(n.sharedNotification.value)]
    else withRoute
  }

  /** As written, no payload lacking `shared_notification` is accepted, however
      well-formed the rest of it is. */
  lemma MissingSharedNotificationRejected(
    obj: map<string, JsonValue>, parse: string -> Result<SharedNotificationData, string>)
    requires "shared_notification" !in obj
    ensures DeserializeNotification(obj, parse).Err?
  {
  }

  /** As written, what `Serialize` produces is never accepted back by `Deserialize`:
      a notification without shared data loses the field, and one with shared data
      writes it as an object where a string is expected. */
  lemma {:induction false} NotificationNeverRoundTrips(
    n: Notification, encode: SharedNotificationData -> JsonValue,
    parse: string -> Result<SharedNotificationData, string>)
    requires forall d :: encode(d).JObject?
    ensures DeserializeNotification(SerializeNotification(n, encode), parse).Err?
  {
    var obj := SerializeNotification(n, encode);
    assert DeserializeType(obj) == Ok(n.notificationType);
    if n.route.Some? {
      assert DeserializeOptionalString(obj, "route") == Ok(n.route);
    }
    if n.sharedNotification.Some? {
      assert encode(n.sharedNotification.value).JObject?;
    }
  }

  /** The intended decoding of the field: missing or null gives None, and the
      shared data is accepted either as a JSON-encoded string or as an embedded
      object, as the notification producer sends both. */
  function DeserializeSharedNotificationTolerant(
    field: Option<JsonValue>,
    parse: string -> Result<SharedNotificationData, string>,
    decodeObject: JsonValue -> Result<SharedNotificationData, string>)
    : Result<Option<SharedNotificationData>, DeError>
  {
    if field.None? || field.value == JNull then Ok(None)
    else if field.value.JObject? then
      (match decodeObject(field.value)
       case Ok(d) => Ok(Some(d))
       case Err(e) => Err(Custom("Failed to parse shared_notification: " + e)))
    else DeserializeSharedNotification(field.value, parse)
  }

  function DeserializeNotificationTolerant(
    obj: map<string, JsonValue>,
    parse: string -> Result<SharedNotificationData, string>,
    decodeObject: JsonValue -> Result<SharedNotificationData, string>)
    : Result<Notification, DeError>
  {
    match DeserializeType(obj)
    case Err(e) => Err(e)
    case Ok(t) =>
      match DeserializeOptionalString(obj, "route")
      case Err(e) => Err(e)
      case Ok(route) =>
        var field := if "shared_notification" in obj then Some(obj["shared_notification"]) else None;
        match DeserializeSharedNotificationTolerant(field, parse, decodeObject)
        case Err(e) => Err(e)
        case Ok(shared) => Ok(Notification(t, route, shared))
  }

  /** With the tolerant decoding, serialising a notification and reading it back
      gives the same notification, provided the object codec of the shared data
      round-trips. */
  lemma {:induction false} TolerantRoundTrip(
    n: Notification, encode: SharedNotificationData -> JsonValue,
    parse: string -> Result<SharedNotificationData, string>,
    decodeObject: JsonValue -> Result<SharedNotificationData, string>)
    requires forall d :: encode(d).JObject? && decodeObject(encode(d)) == Ok(d)
    ensures DeserializeNotificationTolerant(SerializeNotification(n, encode), parse, decodeObject) == Ok(n)
  {
    var obj := SerializeNotification(n, encode);
    assert DeserializeType(obj) == Ok(n.notificationType);
    assert DeserializeOptionalString(obj, "route") == Ok(n.route);
    if n.sharedNotification.Some? {
      var d := n.sharedNotification.value;
      assert encode(d).JObject? && decodeObject(encode(d)) == Ok(d);
    }
  }

  /** The tolerant decoding accepts everything the written one accepts, with the same result. */
  lemma TolerantExtendsAsWritten(
    obj: map<string, JsonValue>,
    parse: string -> Result<SharedNotificationData, string>,
    decodeObject: JsonValue -> Result<SharedNotificationData, string>)
    requires DeserializeNotification(obj, parse).Ok?
    ensures DeserializeNotificationTolerant(obj, parse, decodeObject) == DeserializeNotification(obj, parse)
  {
  }

  /** Error events sent on the `error_notification` channel. */
  datatype ErrorNotification = ServerError(message: string) | NetworkError(message: string)

  function ServerErrorEvent(message: string): (r: ErrorNotification)
    ensures r.ServerError? && r.message == message
  {
    ServerError(message)
  }

  function NetworkErrorEvent(message: string): (r: ErrorNotification)
    ensures r.NetworkError? && r.message == message
  {
    NetworkError(message)
  }

  /** Internally tagged serialisation: the variant under "type", the message beside it. */
  function SerializeErrorNotification(e: ErrorNotification): (obj: map<string, JsonValue>)
    ensures obj.Keys == {"type", "message"}
    ensures obj["type"] == JString(if e.ServerError? then "server_error" else "network_error")
    ensures obj["message"] == JString(e.message)
  {
    map["type" := JString(if e.ServerError? then "server_error" else "network_error"),
        "message" := JString(e.message)]
  }

  function DeserializeErrorNotification(obj: map<string, JsonValue>): Result<ErrorNotification, DeError> {
    if "type" !in obj then Err(MissingField("type"))
    else if "message" !in obj then Err(MissingField("message"))
    else if !obj["message"].JString? then Err(InvalidType("message"))
    else if obj["type"] == JString("server_error") then Ok(ServerError(obj["message"].s))
    else if obj["type"] == JString("network_error") then Ok(NetworkError(obj["message"].s))
    else Err(InvalidType("type"))
  }

  /** The tag written by `Serialize` selects the same variant on the way back. */
  lemma ErrorNotificationRoundTrip(e: ErrorNotification)
    ensures DeserializeErrorNotification(SerializeErrorNotification(e)) == Ok(e)
  {
    var obj := SerializeErrorNotification(e);
    if e.NetworkError? {
      assert obj["type"] != JString("server_error") by {
        assert "network_error"[0] != "server_error"[0];
      }
    }
  }
}
