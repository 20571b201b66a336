/** The parts of an HTTP exchange the gateway inspects: status codes and
    the transport failures reqwest reports. */
module Http {
  import opened Wrappers
  import opened Text

  /** Status codes are three-digit numbers (reqwest refuses anything else). */
  type Code = c: int | 100 <= c <= 999 witness 200

  /** A response status: the number and the canonical reason phrase the http crate
      knows for it, if any. */
  datatype StatusCode = StatusCode(code: Code, reason: Option<string>)

  predicate IsSuccess(s: StatusCode) { 200 <= s.code <= 299 }

  predicate IsClientError(s: StatusCode) { 400 <= s.code <= 499 }

  /** `format!("{}", status)`: the number, a space, then the reason phrase. */
  function StatusDisplay(s: StatusCode): string {
    IntToString(s.code) + " " + s.reason.GetOr("<unknown status code>")
  }

  /** A reqwest error as the code classifies it: `is_timeout()`, `is_connect()` and its
      `Display` text. A connect timeout answers true to both questions. */
  datatype ReqwestError = ReqwestError(isTimeout: bool, isConnect: bool, display: string)
}
