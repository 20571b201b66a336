/** The shared HTTP pipeline of the native side (src-tauri/src/backend/backend.rs):
    base-URL resolution, the connectivity probe with its bounded retry loop, the
    single-use override bearer token, and the classification of outcomes.

    Everything the client cannot compute itself is an input: the outcome of each
    connectivity probe, the token stored under `user`/`token`, and what the
    network answered to the request. */
module Backend {
  import opened Wrappers
  import opened Text
  import opened Http
  import opened AppErrors
  import opened Models

  const DefaultPort: string := "8000"
  /** Probes issued by one connectivity check before giving up. */
  const MaxRetries: nat := 30
  const NoInternetMessage: string := "No internet connection"
  const RetriesExhaustedMessage: string := "No internet connection after maximum retries"

  datatype BuildProfile = Debug | Release
  datatype TargetOs = Ios | Android | OtherOs

  /** `get_dev_host`: a fixed LAN address on iOS, the dev server's host on Android
      (localhost when the configuration has none), localhost elsewhere. */
  function DevHost(os: TargetOs, devUrlHost: Option<string>): string {
    match os
    case Ios => "192.168.50.54"
    case Android => devUrlHost.GetOr("localhost")
    case OtherOs => "localhost"
  }

  function Host(profile: BuildProfile, os: TargetOs, devUrlHost: Option<string>): (host: string)
    ensures profile == Release || os == OtherOs ==> host == "localhost"
    ensures profile == Debug && os == Ios ==> host == "192.168.50.54"
    ensures profile == Debug && os == Android ==> host == devUrlHost.GetOr("localhost")
  {
    if profile == Debug then DevHost(os, devUrlHost) else "localhost"
  }

  /** `determine_base_url`. */
  function BaseUrl(profile: BuildProfile, os: TargetOs, devUrlHost: Option<string>): string {
    "http://" + Host(profile, os, devUrlHost) + ":" + DefaultPort + "/api"
  }

  /** Every request URL is `{base_url}/{endpoint}`. */
  function RequestUrl(baseUrl: string, endpoint: string): string {
    baseUrl + "/" + endpoint
  }

  /** The endpoint can be read back from a request URL built on a known base. */
  lemma RequestUrlDeterminesEndpoint(baseUrl: string, e1: string, e2: string)
    ensures RequestUrl(baseUrl, e1) == RequestUrl(baseUrl, e2) <==> e1 == e2
  {
    var n := |baseUrl| + 1;
    if RequestUrl(baseUrl, e1) == RequestUrl(baseUrl, e2) {
      assert e1 == RequestUrl(baseUrl, e1)[n..];
      assert e2 == RequestUrl(baseUrl, e2)[n..];
    }
  }

  // ---------------------------------------------------------------------------
  // Connectivity check

  /** Number of probes issued when probe `k` is next (`retry_count == k`). */
  function ProbesFrom(probe: nat -> bool, k: nat): (n: nat)
    requires k < MaxRetries
    ensures k < n <= MaxRetries
    decreases MaxRetries - k
  {
    if probe(k) then k + 1
    else if k + 1 >= MaxRetries then MaxRetries
    else ProbesFrom(probe, k + 1)
  }

  /** Number of probes one connectivity check issues. */
  function ProbeCount(probe: nat -> bool): nat {
    ProbesFrom(probe, 0)
  }

  /** The check succeeds exactly when its last probe did. */
  function ConnectivityResult(probe: nat -> bool): Result<(), AppError> {
    if probe(ProbeCount(probe) - 1) then Ok(()) else Err(Network(RetriesExhaustedMessage))
  }

  /** The events the check emits: one NetworkError, only when the first probe fails. */
  function ConnectivityEvents(probe: nat -> bool): seq<ErrorNotification> {
    if probe(0) then [] else [NetworkErrorEvent(NoInternetMessage)]
  }

  lemma {:induction false} ProbesFromStopsAtFirstSuccess(probe: nat -> bool, k: nat)
    requires k < MaxRetries
    ensures forall j :: k <= j < ProbesFrom(probe, k) - 1 ==> !probe(j)
    ensures ProbesFrom(probe, k) < MaxRetries ==> probe(ProbesFrom(probe, k) - 1)
    ensures probe(ProbesFrom(probe, k) - 1) <==> exists j :: k <= j < MaxRetries && probe(j)
    decreases MaxRetries - k
  {
    if !probe(k) && k + 1 < MaxRetries {
      ProbesFromStopsAtFirstSuccess(probe, k + 1);
    }
  }

  /** The check issues probes until the first success, at most 30 of them; it
      succeeds iff one of the first 30 probes does. */
  lemma ConnectivityCharacterized(probe: nat -> bool)
    ensures 1 <= ProbeCount(probe) <= MaxRetries
    ensures forall j :: 0 <= j < ProbeCount(probe) - 1 ==> !probe(j)
    ensures ProbeCount(probe) < MaxRetries ==> probe(ProbeCount(probe) - 1)
    ensures ConnectivityResult(probe).Ok? <==> exists j :: 0 <= j < MaxRetries && probe(j)
    ensures ConnectivityResult(probe).Err? ==>
      ProbeCount(probe) == MaxRetries && ConnectivityResult(probe) == Err(Network(RetriesExhaustedMessage))
  {
    ProbesFromStopsAtFirstSuccess(probe, 0);
  }

  // ---------------------------------------------------------------------------
  // Authorization

  /** The value pinia holds under `user`/`token`, if any. */
  datatype StoredToken = NoStoredToken | StringToken(token: string) | NonStringToken

  /** `add_authorization_header`: the override token first, then the stored token
      (a non-string stored value gives an empty token), else no header. */
  function AuthorizationHeader(slot: Option<string>, stored: StoredToken): (h: Option<string>)
    ensures slot.Some? ==> h == Some("Bearer " + slot.value)
    ensures slot.None? && stored.StringToken? ==> h == Some("Bearer " + stored.token)
    ensures slot.None? && stored.NonStringToken? ==> h == Some("Bearer ")
    ensures h.None? <==> slot.None? && stored.NoStoredToken?
  {
    if slot.Some? then Some("Bearer " + slot.value)
    else match stored
      case StringToken(t) => Some("Bearer " + t)
      case NonStringToken => Some("Bearer ")
      case NoStoredToken => None
  }

  // ---------------------------------------------------------------------------
  // Classification

  datatype HttpMethod = GET | POST | DELETE

  /** A request as it leaves the client. A request carries at most one
      Authorization header by construction. */
  datatype OutgoingRequest = OutgoingRequest(
    verb: HttpMethod,
    url: string,
    jsonContentType: bool,
    body: Option<string>,
    authorization: Option<string>)

  /** A response, with its body text (an unreadable body reads as ""). */
  datatype HttpResponse = HttpResponse(status: StatusCode, body: string)

  datatype SendOutcome = Responded(response: HttpResponse) | TransportFailed(error: ReqwestError)

  /** Everything the network decides about one request. */
  datatype Wire = Wire(probe: nat -> bool, stored: StoredToken, outcome: SendOutcome)

  /** `send_request` after the probe: 2xx passes, 4xx is a backend error and any
      other status an internal error, both carrying the body verbatim; transport
      errors are network errors. */
  function Classify(o: SendOutcome): (r: Result<HttpResponse, AppError>)
    ensures r.Ok? <==> o.Responded? && IsSuccess(o.response.status)
    ensures r.Ok? ==> r.value == o.response
    ensures o.Responded? && IsClientError(o.response.status) ==> r == Err(Backend(o.response.body))
    ensures o.Responded? && !IsSuccess(o.response.status) && !IsClientError(o.response.status) ==>
      r == Err(Internal(o.response.body))
    ensures o.TransportFailed? ==> r.Err? && r.error.Network?
  {
    match o
    case Responded(resp) =>
      if IsSuccess(resp.status) then Ok(resp)
      else if IsClientError(resp.status) then Err(Backend(resp.body))
      else Err(Internal(resp.body))
    case TransportFailed(e) =>
      if e.isTimeout then Err(Network("Request timeout"))
      else if e.isConnect then Err(Network("Connection refused"))
      else Err(Network(e.display))
  }

  /** Each non-2xx response emits one ServerError("Server error"); nothing else emits. */
  function ServerErrorEvents(o: SendOutcome): (evs: seq<ErrorNotification>)
    ensures |evs| <= 1
    ensures |evs| == 1 <==> Classify(o).Err? && o.Responded?
  {
    if o.Responded? && !IsSuccess(o.response.status) then [ServerErrorEvent("Server error")] else []
  }

  /** The pipeline classifies transport failures like `From<reqwest::Error>` except
      for connect failures, which it words "Connection refused" where the conversion
      says "Connection failed". */
  lemma TransportClassificationVsConversion(e: ReqwestError)
    ensures Classify(TransportFailed(e)) == Err(FromReqwest(e)) <==> e.isTimeout || !e.isConnect
  {
  }

  /** The result of the whole pipeline for one request. */
  function PipelineResult(w: Wire): Result<HttpResponse, AppError> {
    match ConnectivityResult(w.probe)
    case Err(e) => Err(e)
    case Ok(_) => Classify(w.outcome)
  }

  /** Requests that reach the network. */
  function Dispatched(w: Wire, draft: OutgoingRequest, slot: Option<string>): seq<OutgoingRequest> {
    if ConnectivityResult(w.probe).Ok? then [draft.(authorization := AuthorizationHeader(slot, w.stored))] else []
  }

  /** The override slot after one request: taken only when the probe passed. */
  function SlotAfter(w: Wire, slot: Option<string>): Option<string> {
    if ConnectivityResult(w.probe).Ok? then None else slot
  }

  /** Every event one request emits, in order. */
  function PipelineEvents(w: Wire): seq<ErrorNotification> {
    ConnectivityEvents(w.probe) + (if ConnectivityResult(w.probe).Ok? then ServerErrorEvents(w.outcome) else [])
  }

  /** `handle_response`: decode the body; a decode failure is an internal error. */
  function DecodeResponse<T>(r: Result<HttpResponse, AppError>, decode: string -> Result<T, string>)
    : (d: Result<T, AppError>)
    ensures r.Err? ==> d == Err(r.error)
    ensures r.Ok? && decode(r.value.body).Ok? ==> d == Ok(decode(r.value.body).value)
    ensures r.Ok? && decode(r.value.body).Err? ==>
      d == Err(Internal("Failed to parse response: " + decode(r.value.body).error))
  {
    match r
    case Err(e) => Err(e)
    case Ok(resp) =>
      match decode(resp.body)
      case Ok(v) => Ok(v)
      case Err(msg) => Err(Internal("Failed to parse response: " + msg))
  }

  /** `post`/`delete`: the status of a successful response. */
  function StatusOf(r: Result<HttpResponse, AppError>): (s: Result<StatusCode, AppError>)
    ensures s.Ok? ==> r.Ok? && s.value == r.value.status
    ensures r.Ok? ==> s == Ok(r.value.status)
    ensures r.Err? ==> s == Err(r.error)
  {
    match r
    case Err(e) => Err(e)
    case Ok(resp) => Ok(resp.status)
  }

  /** A status returned by `post` or `delete` is always a 2xx status. */
  lemma ReturnedStatusIsSuccess(w: Wire)
    ensures StatusOf(PipelineResult(w)).Ok? ==> IsSuccess(StatusOf(PipelineResult(w)).value)
  {
  }

  /** Every non-2xx response that reaches the client emits exactly one ServerError
      after the probe's events, whatever its status. */
  lemma OneServerErrorPerFailedResponse(w: Wire)
    requires ConnectivityResult(w.probe).Ok? && w.outcome.Responded? && !IsSuccess(w.outcome.response.status)
    ensures PipelineEvents(w) == ConnectivityEvents(w.probe) + [ServerError("Server error")]
    ensures PipelineResult(w).Err?
    ensures PipelineResult(w).error.msg == w.outcome.response.body
  {
  }

  // ---------------------------------------------------------------------------
  // Requests as the domain services describe them

  datatype Call = Get | GetWithBody | Post | PostWithReturn | Delete

  /** A request body: the `serde_json::to_string` text of a request value, or a
      literal the caller writes out. */
  datatype Body = Serialized(json: string) | Literal(text: string)

  function BodyText(b: Body): string {
    match b
    case Serialized(j) => j
    case Literal(t) => t
  }

  /** What a domain-service operation hands to the client: which client method,
      which endpoint, and which body. */
  datatype RequestSpec = RequestSpec(call: Call, endpoint: string, body: Option<Body>)

  /** What the client returns to a service: a status, or a decoded value. */
  datatype Reply<T> = Status(status: StatusCode) | Value(value: T)

  /** The request `spec` puts on the wire, before the Authorization header: only
      `get_with_body` and the two POSTs carry a JSON content type and a body. */
  function Draft(baseUrl: string, spec: RequestSpec): (req: OutgoingRequest)
    ensures req.url == RequestUrl(baseUrl, spec.endpoint)
    ensures req.authorization.None?
    ensures req.verb == (match spec.call case Post => POST case PostWithReturn => POST case Delete => DELETE case _ => GET)
    ensures req.jsonContentType <==> spec.call in {GetWithBody, Post, PostWithReturn}
    ensures req.body.Some? ==> req.jsonContentType && spec.body.Some? && req.body.value == BodyText(spec.body.value)
    ensures spec.call in {GetWithBody, Post, PostWithReturn} && spec.body.Some? ==>
      req.body == Some(BodyText(spec.body.value))
    ensures spec.call in {Get, Delete} ==> req.body.None?
  {
    var url := RequestUrl(baseUrl, spec.endpoint);
    var body := if spec.body.Some? then Some(BodyText(spec.body.value)) else None;
    match spec.call
    case Get => OutgoingRequest(GET, url, false, None, None)
    case GetWithBody => OutgoingRequest(GET, url, true, body, None)
    case Post => OutgoingRequest(POST, url, true, body, None)
    case PostWithReturn => OutgoingRequest(POST, url, true, body, None)
    case Delete => OutgoingRequest(DELETE, url, false, None, None)
  }

  /** What the client returns for `spec`. */
  function ReplyOf<T>(spec: RequestSpec, w: Wire, decode: string -> Result<T, string>)
    : Result<Reply<T>, AppError>
  {
    match spec.call
    case Post => (match StatusOf(PipelineResult(w)) case Ok(s) => Ok(Status(s)) case Err(e) => Err(e))
    case Delete => (match StatusOf(PipelineResult(w)) case Ok(s) => Ok(Status(s)) case Err(e) => Err(e))
    case _ => (match DecodeResponse(PipelineResult(w), decode) case Ok(v) => Ok(Value(v)) case Err(e) => Err(e))
  }

  /** One history of a client: tokens armed and requests issued. */
  datatype ClientOp = Arm(token: string) | Send(w: Wire)

  /** Where the Authorization header of each dispatched request came from:
      `true` when it was the override token. */
  function OverrideUses(slot: Option<string>, ops: seq<ClientOp>): seq<bool>
    decreases |ops|
  {
    if ops == [] then []
    else match ops[0]
      case Arm(t) => OverrideUses(Some(t), ops[1..])
      case Send(w) =>
        (if ConnectivityResult(w.probe).Ok? then [slot.Some?] else []) + OverrideUses(SlotAfter(w, slot), ops[1..])
  }

  function CountTrue(bs: seq<bool>): nat {
    if bs == [] then 0 else (if bs[0] then 1 else 0) + CountTrue(bs[1..])
  }

  function CountArms(ops: seq<ClientOp>): nat {
    if ops == [] then 0 else (if ops[0].Arm? then 1 else 0) + CountArms(ops[1..])
  }

  lemma {:induction false} CountTrueAppend(a: seq<bool>, b: seq<bool>)
    ensures CountTrue(a + b) == CountTrue(a) + CountTrue(b)
  {
    if a == [] {
      assert a + b == b;
    } else {
      assert (a + b)[1..] == a[1..] + b;
      CountTrueAppend(a[1..], b);
    }
  }

  /** An armed override token authorises at most one dispatched request: over any
      history, requests carrying an override token are no more than the tokens armed
      (plus one already armed at the start). */
  lemma {:induction false} OverrideUsedAtMostOnce(slot: Option<string>, ops: seq<ClientOp>)
    ensures CountTrue(OverrideUses(slot, ops)) <= CountArms(ops) + (if slot.Some? then 1 else 0)
    decreases |ops|
  {
    if ops != [] {
      match ops[0]
      case Arm(t) =>
        OverrideUsedAtMostOnce(Some(t), ops[1..]);
      case Send(w) =>
        var head := if ConnectivityResult(w.probe).Ok? then [slot.Some?] else [];
        CountTrueAppend(head, OverrideUses(SlotAfter(w, slot), ops[1..]));
        OverrideUsedAtMostOnce(SlotAfter(w, slot), ops[1..]);
    }
  }

  // ---------------------------------------------------------------------------
  // The client

  class BackendClient {
    const baseUrl: string
    /** `next_request_token`: the single-use override slot. */
    var nextRequestToken: Option<string>
    /** Events emitted on the `error_notification` channel. */
    var errorEvents: seq<ErrorNotification>
    /** Requests dispatched to the network, in order. */
    var sent: seq<OutgoingRequest>
    /** Two-second pauses taken between failed probes. */
    var sleeps: nat

    constructor (profile: BuildProfile, os: TargetOs, devUrlHost: Option<string>)
      ensures baseUrl == BaseUrl(profile, os, devUrlHost)
      ensures nextRequestToken == None && errorEvents == [] && sent == [] && sleeps == 0
    {
      baseUrl := BaseUrl(profile, os, devUrlHost);
      nextRequestToken := None;
      errorEvents := [];
      sent := [];
      sleeps := 0;
    }

    /** `set_temporary_token`: replaces any armed token. */
    method SetTemporaryToken(token: string)
      modifies this`nextRequestToken
      ensures nextRequestToken == Some(token)
    {
      nextRequestToken := Some(token);
    }

    /** `check_connectivity`: probe up to 30 times, pausing after each failure but
        the last; the first failure emits one NetworkError event. */
    method CheckConnectivity(probe: nat -> bool) returns (r: Result<(), AppError>, probes: nat)
      modifies this`errorEvents, this`sleeps
      ensures probes == ProbeCount(probe)
      ensures r == ConnectivityResult(probe)
      ensures errorEvents == old(errorEvents) + ConnectivityEvents(probe)
      ensures sleeps == old(sleeps) + probes - 1
    {
      var retryCount: nat := 0;
      while true
        invariant retryCount < MaxRetries
        invariant ProbesFrom(probe, retryCount) == ProbeCount(probe)
        invariant errorEvents == old(errorEvents) + (if retryCount > 0 then ConnectivityEvents(probe) else [])
        invariant retryCount > 0 ==> !probe(0)
        invariant sleeps == old(sleeps) + retryCount
        decreases MaxRetries - retryCount
      {
        if probe(retryCount) {
          return Ok(()), retryCount + 1;
        }
        if retryCount == 0 {
          errorEvents := errorEvents + [NetworkErrorEvent(NoInternetMessage)];
        }
        retryCount := retryCount + 1;
        if retryCount >= MaxRetries {
          return Err(Network(RetriesExhaustedMessage)), retryCount;
        }
        sleeps := sleeps + 1;
      }
    }

    /** `add_authorization_header`: takes the override slot, leaving it empty. */
    method AddAuthorizationHeader(request: OutgoingRequest, stored: StoredToken) returns (out: OutgoingRequest)
      modifies this`nextRequestToken
      ensures out == request.(authorization := AuthorizationHeader(old(nextRequestToken), stored))
      ensures nextRequestToken == None
    {
      var token := nextRequestToken;
      nextRequestToken := None;
      if token.Some? {
        return request.(authorization := Some("Bearer " + token.value));
      }
      match stored
      case StringToken(t) => out := request.(authorization := Some("Bearer " + t));
      case NonStringToken => out := request.(authorization := Some("Bearer "));
      case NoStoredToken => out := request.(authorization := None);
    }

    /** `send_request`: probe first, then take the token, send, and classify. */
    method SendRequest(draft: OutgoingRequest, w: Wire) returns (r: Result<HttpResponse, AppError>)
      modifies this`nextRequestToken, this`errorEvents, this`sent, this`sleeps
      ensures r == PipelineResult(w)
      ensures sent == old(sent) + Dispatched(w, draft, old(nextRequestToken))
      ensures nextRequestToken == SlotAfter(w, old(nextRequestToken))
      ensures errorEvents == old(errorEvents) + PipelineEvents(w)
      ensures sleeps == old(sleeps) + ProbeCount(w.probe) - 1
    {
      var online, _ := CheckConnectivity(w.probe);
      if online.Err? {
        return Err(online.error);
      }
      var request := AddAuthorizationHeader(draft, w.stored);
      sent := sent + [request];
      match w.outcome
      case Responded(resp) =>
        if IsSuccess(resp.status) {
          r := Ok(resp);
        } else {
          errorEvents := errorEvents + [ServerErrorEvent("Server error")];
          if IsClientError(resp.status) {
            r := Err(Backend(resp.body));
          } else {
            r := Err(Internal(resp.body));
          }
        }
      case TransportFailed(e) =>
        if e.isTimeout {
          r := Err(Network("Request timeout"));
        } else if e.isConnect {
          r := Err(Network("Connection refused"));
        } else {
          r := Err(Network(e.display));
        }
    }

    /** Issues `spec`: `get`, `get_with_body`, `post`, `post_with_return` or `delete`. */
    method Dispatch<T>(spec: RequestSpec, decode: string -> Result<T, string>, w: Wire)
      returns (r: Result<Reply<T>, AppError>)
      modifies this`nextRequestToken, this`errorEvents, this`sent, this`sleeps
      ensures r == ReplyOf(spec, w, decode)
      ensures sent == old(sent) + Dispatched(w, Draft(baseUrl, spec), old(nextRequestToken))
      ensures nextRequestToken == SlotAfter(w, old(nextRequestToken))
      ensures errorEvents == old(errorEvents) + PipelineEvents(w)
      ensures sleeps == old(sleeps) + ProbeCount(w.probe) - 1
    {
      var response := SendRequest(Draft(baseUrl, spec), w);
      match spec.call
      case Post =>
        r := if response.Ok? then Ok(Status(response.value.status)) else Err(response.error);
      case Delete =>
        r := if response.Ok? then Ok(Status(response.value.status)) else Err(response.error);
      case _ =>
        var decoded := DecodeResponse(response, decode);
        r := if decoded.Ok? then Ok(Value(decoded.value)) else Err(decoded.error);
    }
  }
}
