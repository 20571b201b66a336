/** The error model of the native side (src-tauri/src/error.rs): six failure
    kinds, their `Display` text, their serialisation and the conversions
    from library errors. */
module AppErrors {
  import opened Wrappers
  import opened Text
  import opened Http

  datatype AppError =
    | Backend(msg: string)
    | Network(msg: string)
    | Auth(msg: string)
    | Validation(msg: string)
    | NotFound(msg: string)
    | Internal(msg: string)

  /** The text `Display` writes before the message, per variant. */
  function Prefix(e: AppError): string {
    match e
    case Backend(_) => "Backend error: "
    case Network(_) => "Network error: "
    case Auth(_) => "Authentication error: "
    case Validation(_) => "Validation error: "
    case NotFound(_) => "Not found: "
    case Internal(_) => "Internal error: "
  }

  function Display(e: AppError): string {
    Prefix(e) + e.msg
  }

  /** Recovers an error from its `Display` text by its prefix; the inverse of `Display`. */
  function ParseDisplay(s: string): Option<AppError> {
    if IsPrefix("Backend error: ", s) then Some(Backend(s[|"Backend error: "|..]))
    else if IsPrefix("Network error: ", s) then Some(Network(s[|"Network error: "|..]))
    else if IsPrefix("Authentication error: ", s) then Some(Auth(s[|"Authentication error: "|..]))
    else if IsPrefix("Validation error: ", s) then Some(Validation(s[|"Validation error: "|..]))
    else if IsPrefix("Not found: ", s) then Some(NotFound(s[|"Not found: "|..]))
    else if IsPrefix("Internal error: ", s) then Some(Internal(s[|"Internal error: "|..]))
    else None
  }

  /** `Display` loses nothing: kind and message can be read back from the text. */
  lemma DisplayRoundTrip(e: AppError)
    ensures ParseDisplay(Display(e)) == Some(e)
  {
    var s := Display(e);
    assert s[..|Prefix(e)|] == Prefix(e);
    assert s[|Prefix(e)|..] == e.msg;
    assert s[0] == Prefix(e)[0] && s[1] == Prefix(e)[1];
    match e
    case Backend(_) =>
    case Network(_) =>
      NotPrefixAt("Backend error: ", s, 0);
    case Auth(_) =>
      NotPrefixAt("Backend error: ", s, 0);
      NotPrefixAt("Network error: ", s, 0);
    case Validation(_) =>
      NotPrefixAt("Backend error: ", s, 0);
      NotPrefixAt("Network error: ", s, 0);
      NotPrefixAt("Authentication error: ", s, 0);
    case NotFound(_) =>
      NotPrefixAt("Backend error: ", s, 0);
      NotPrefixAt("Network error: ", s, 1);
      NotPrefixAt("Authentication error: ", s, 0);
      NotPrefixAt("Validation error: ", s, 0);
    case Internal(_) =>
      NotPrefixAt("Backend error: ", s, 0);
      NotPrefixAt("Network error: ", s, 0);
      NotPrefixAt("Authentication error: ", s, 0);
      NotPrefixAt("Validation error: ", s, 0);
      NotPrefixAt("Not found: ", s, 0);
  }

  lemma NotPrefixAt(p: string, s: string, i: nat)
    requires i < |p| && i < |s| && p[i] != s[i]
    ensures !IsPrefix(p, s)
  {
  }

  lemma DisplayInjective(e1: AppError, e2: AppError)
    ensures Display(e1) == Display(e2) <==> e1 == e2
  {
    DisplayRoundTrip(e1);
    DisplayRoundTrip(e2);
  }

  /** A serialised value: the error serialises as a plain JSON string. */
  datatype SerializedError = JsonString(text: string)

  /** `Serialize for AppError` writes exactly the `Display` text. */
  function Serialize(e: AppError): (r: SerializedError)
    ensures ParseDisplay(r.text) == Some(e)
  {
    DisplayRoundTrip(e);
    JsonString(Display(e))
  }

  /** `From<Box<dyn Error>>`: the boxed error's text becomes an internal error. */
  function FromBoxed(display: string): (r: AppError)
    ensures Display(r) == "Internal error: " + display
  {
    Internal(display)
  }

  /** `From<io::Error>`: I/O failures are network errors. */
  function FromIo(display: string): (r: AppError)
    ensures Display(r) == "Network error: " + display
  {
    Network(display)
  }

  /** `From<reqwest::Error>`: timeouts first, then connect failures, then the error's own text. */
  function FromReqwest(e: ReqwestError): (r: AppError)
    ensures r.Network?
    ensures e.isTimeout ==> r.msg == "Request timeout"
    ensures !e.isTimeout && e.isConnect ==> r.msg == "Connection failed"
    ensures !e.isTimeout && !e.isConnect ==> r.msg == e.display
  {
    if e.isTimeout then Network("Request timeout")
    else if e.isConnect then Network("Connection failed")
    else Network(e.display)
  }

  /** `From<serde_json::Error>`: decode failures are internal errors. */
  function FromSerdeJson(display: string): (r: AppError)
    ensures Display(r) == "Internal error: " + display
  {
    Internal(display)
  }

  /** `From<tauri_plugin_musickit::Error>`: MusicKit failures are internal errors. */
  function FromMusicKit(display: string): (r: AppError)
    ensures Display(r) == "Internal error: " + display
  {
    Internal(display)
  }
}
