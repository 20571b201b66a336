/** src-tauri/src/utils/response.rs: turning statuses and errors into the
    `Result<_, String>` that UI commands return. Logging is left out. */
module ResponseUtils {
  import opened Wrappers
  import opened Text
  import opened Http

  /** `status_to_result`. */
  function StatusToResult(status: StatusCode, operation: string): (r: Result<bool, string>)
    ensures r.Ok? <==> IsSuccess(status)
    ensures r.Ok? ==> r.value
    ensures r.Err? ==> r.error == operation + " failed with status: " + StatusDisplay(status)
  {
    if IsSuccess(status) then Ok(true)
    else Err(operation + " failed with status: " + StatusDisplay(status))
  }

  /** `log_error`: the context, a colon and a space, then the error's text. */
  function LogError(err: string, context: string): string {
    context + ": " + err
  }

  /** The error text can be read back from a logged message with a known context. */
  lemma LogErrorRecoversError(err: string, context: string)
    ensures IsPrefix(context + ": ", LogError(err, context))
    ensures LogError(err, context)[|context| + 2..] == err
  {
    assert LogError(err, context) == (context + ": ") + err;
  }

  /** `handle_result!(r)`: Ok unchanged, an error replaced by its text. */
  function HandleResult<T, E>(r: Result<T, E>, display: E -> string): (out: Result<T, string>)
    ensures out.Ok? <==> r.Ok?
    ensures r.Ok? ==> out.value == r.value
    ensures r.Err? ==> out.error == display(r.error)
  {
    match r
    case Ok(v) => Ok(v)
    case Err(e) => Err(display(e))
  }

  /** `handle_result!(r, context)`: as above, through `log_error`. */
  function HandleResultWithContext<T, E>(r: Result<T, E>, display: E -> string, context: string)
    : (out: Result<T, string>)
    ensures out.Ok? <==> r.Ok?
    ensures r.Ok? ==> out.value == r.value
  {
    match r
    case Ok(v) => Ok(v)
    case Err(e) => Err(LogError(display(e), context))
  }

  /** The two forms of the macro differ only in the context prefix of the error. */
  lemma HandleResultForms<T, E>(r: Result<T, E>, display: E -> string, context: string)
    ensures HandleResultWithContext(r, display, context)
      == (match HandleResult(r, display) case Ok(v) => Ok(v) case Err(m) => Err(LogError(m, context)))
  {
  }
}
