/**
 * `errorMessage` and the outcome of `jsonRequest` in Client/Script/Common.js.
 * The request itself (URL building, `fetch`, the promise chain) is not modelled:
 * what the network delivered is an input, and the result is which handler runs.
 */
module Request {
  import opened Wrappers

  const SUSPENDED_MESSAGE := "Server is suspended"
  const UNKNOWN_ERROR_MESSAGE := "I don't know what went wrong, sorry :("
  const FAILED_TO_FETCH_HINT := "<br><br>The server may have exited unexpectedly, please check the console."

  /** A JavaScript value's `Error` property counts only when it is a non-empty string. */
  predicate ErrorFieldSet(field: Option<string>) {
    field.Some? && field.value != ""
  }

  // ---------------------------------------------------------------------------
  // errorMessage

  /** What `errorMessage` is given. */
  datatype ErrorValue =
    | Body(errorField: Option<string>)        // a plain value, possibly with an `Error` property
    | Exception(name: string, message: string) // an instance of JavaScript's `Error`

  /** `Error.prototype.toString`: "name: message", dropping whichever part is empty. */
  function ExceptionText(name: string, message: string): (s: string)
    ensures name != "" && message != "" ==> s == name + ": " + message
    ensures name == "" ==> s == message
    ensures message == "" ==> s == name
  {
    if name == "" then message else if message == "" then name else name + ": " + message
  }

  /** `errorMessage(error)` */
  function ErrorMessage(error: ErrorValue): (msg: string)
    ensures error.Body? && ErrorFieldSet(error.errorField) ==> msg == error.errorField.value
    ensures error.Body? && !ErrorFieldSet(error.errorField) ==> msg == UNKNOWN_ERROR_MESSAGE
    ensures error.Exception? ==>
      var text := ExceptionText(error.name, error.message);
      && |text| <= |msg| && msg[..|text|] == text
      && (msg == text + FAILED_TO_FETCH_HINT
          <== error.name == "TypeError" && error.message == "Failed to fetch")
      && (msg == text
          <== !(error.name == "TypeError" && error.message == "Failed to fetch"))
  {
    match error
    case Body(field) => if ErrorFieldSet(field) then field.value else UNKNOWN_ERROR_MESSAGE
    case Exception(name, message) =>
      var text := ExceptionText(name, message);
      if name == "TypeError" && message == "Failed to fetch" then text + FAILED_TO_FETCH_HINT
      else text
  }

  /** The exception that means a failed fetch always gets the hint appended, so its message differs from its text. */
  lemma FailedToFetchGetsHint()
    ensures ErrorMessage(Exception("TypeError", "Failed to fetch"))
            == "TypeError: Failed to fetch" + FAILED_TO_FETCH_HINT
    ensures ErrorMessage(Exception("TypeError", "Failed to fetch")) != "TypeError: Failed to fetch"
  {
    var text := ExceptionText("TypeError", "Failed to fetch");
    assert text == "TypeError: Failed to fetch";
    assert |text + FAILED_TO_FETCH_HINT| > |text|;
  }

  // ---------------------------------------------------------------------------
  // jsonRequest

  /** What the request produced: a rejection, or the value `r.json()` resolved to. */
  datatype Reply =
    | Rejected                              // fetch or r.json() rejected
    | NullBody                              // JSON `null`
    | FalsyBody                             // JSON `false`, `0` or `""`
    | TruthyBody(errorField: Option<string>) // an object, or a truthy primitive (which has no `Error`)

  /** Which branch the response handler takes. */
  datatype Outcome =
    | Succeeded
    | Suspended
    | Failed(caught: bool) // `caught`: the failure reached the promise's `catch` as an exception

  /**
   * The branches of the `then` handler. A falsy body or a set `Error` is a
   * failure, except the suspended sentinel; a `null` body makes `response.Error`
   * throw a TypeError, which the `catch` receives like a rejection.
   */
  function Classify(reply: Reply): (o: Outcome)
    ensures o == Succeeded <==> reply.TruthyBody? && !ErrorFieldSet(reply.errorField)
    ensures o == Suspended <==> reply.TruthyBody? && reply.errorField == Some(SUSPENDED_MESSAGE)
    ensures o.Failed? && o.caught <==> reply.Rejected? || reply.NullBody?
    ensures o.Failed? && !o.caught <==>
      reply.FalsyBody?
      || (reply.TruthyBody? && ErrorFieldSet(reply.errorField)
          && reply.errorField.value != SUSPENDED_MESSAGE)
  {
    match reply
    case Rejected => Failed(true)
    case NullBody => Failed(true)
    case FalsyBody => Failed(false)
    case TruthyBody(field) =>
      if !ErrorFieldSet(field) then Succeeded
      else if field.value == SUSPENDED_MESSAGE then Suspended
      else Failed(false)
  }

  /** The effect a request ends in. */
  datatype Action =
    | CallSuccess           // successFunc(response)
    | CallFailure           // failureFunc(response or error)
    | LogFailure            // Log.error(…, 'Request failed')
    | ShowServerPaused      // ServerPausedOverlay.Show()
    | UncaughtReferenceError // the catch handler itself throws

  /**
   * The effect as the source is written: with no failure callback, the `catch`
   * handler logs `response`, a name not in its scope, and throws instead.
   */
  function HandleAsWritten(reply: Reply, hasFailureFunc: bool): (a: Action)
    ensures a == UncaughtReferenceError <==> !hasFailureFunc && Classify(reply) == Failed(true)
  {
    match Classify(reply)
    case Succeeded => CallSuccess
    case Suspended => ShowServerPaused
    case Failed(caught) =>
      if hasFailureFunc then CallFailure else if caught then UncaughtReferenceError else LogFailure
  }

  /** A `null` body with no failure callback ends in an uncaught error, not in a log line. */
  lemma NullBodyWithoutFailureFuncThrows()
    ensures HandleAsWritten(NullBody, false) == UncaughtReferenceError
    ensures HandleAsWritten(Rejected, false) == UncaughtReferenceError
  {
  }

  /**
   * The effect with the `catch` handler logging the error it received: exactly
   * one of success, failure (by callback or log) and the paused overlay.
   */
  function Handle(reply: Reply, hasFailureFunc: bool): (a: Action)
    ensures a != UncaughtReferenceError
    ensures a == CallSuccess <==> Classify(reply) == Succeeded
    ensures a == ShowServerPaused <==> Classify(reply) == Suspended
    ensures a == CallFailure <==> Classify(reply).Failed? && hasFailureFunc
    ensures a == LogFailure <==> Classify(reply).Failed? && !hasFailureFunc
  {
    match Classify(reply)
    case Succeeded => CallSuccess
    case Suspended => ShowServerPaused
    case Failed(_) => if hasFailureFunc then CallFailure else LogFailure
  }

  /** The two agree except where the as-written `catch` throws. */
  lemma HandleAgreesOutsideCatch(reply: Reply, hasFailureFunc: bool)
    requires hasFailureFunc || !(reply.Rejected? || reply.NullBody?)
    ensures HandleAsWritten(reply, hasFailureFunc) == Handle(reply, hasFailureFunc)
  {
  }
}
