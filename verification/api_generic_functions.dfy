/** The assertion helpers the steps use on a response. Each returns `Pass`
    or the JUnit AssertionError it raises; exceptions thrown while reading
    the response are caught and turned into such a failure where the helper
    has a `catch`. */
module ApiGenericFunctions {
  import opened Base
  import opened Text
  import opened CommonRequestSpec
  import opened CommonRestCRUD

  /** `verifyStatusCode(expected, actual)`. */
  function VerifyStatusCode(expected: int, actual: int): (o: Outcome)
    ensures o.Pass? <==> expected == actual
    ensures o.Fail? ==> o.failure.AssertionFailed? && !o.failure.IsException()
  {
    if expected == actual then Pass
    else Fail(AssertionFailed("Status code mismatch! Expected: " + IntToString(expected)
                              + ", but got: " + IntToString(actual)))
  }

  /** `verifyResponseBody(expected, actual)`: null-aware equality, as
      `assertEquals` on two strings. */
  function VerifyResponseBody(expected: Option<string>, actual: Option<string>): (o: Outcome)
    ensures o.Pass? <==> expected == actual
    ensures o.Fail? ==> o.failure.AssertionFailed?
  {
    if expected == actual then Pass
    else Fail(AssertionFailed("Response body mismatch! Expected: " + Show(expected)
                              + ", but got: " + Show(actual)))
  }

  /** `verifyResponsePathKeyValue(key, expected, response)`: the string at
      `key` must equal `expected`; an extraction exception (including a value
      that is not a String) becomes an explicit failure. */
  function VerifyResponsePathKeyValue(key: string, expected: Option<string>, r: Response): (o: Outcome)
    ensures o.Pass? <==> PathAsString(r, key) == Ok(expected)
    ensures o.Fail? ==> o.failure.AssertionFailed?
  {
    match PathAsString(r, key)
    case Ok(actual) =>
      if expected == actual then Pass
      else Fail(AssertionFailed("Path value mismatch for key '" + key + "'! Expected: " + Show(expected)
                                + ", but got: " + Show(actual)))
    case Err(f) =>
      Fail(AssertionFailed("Failed to extract path '" + key + "' from response: " + ReasonOf(f)))
  }

  /** The message of a failure raised while reading a response. */
  function ReasonOf(f: Failure): string {
    match f
    case ExtractionFailure(_, reason) => reason
    case _ => ""
  }

  /** `verifyResponseContainsKey(key, response)`: the value at `key`, of any
      type, must be non-null. */
  function VerifyResponseContainsKey(key: string, r: Response): (o: Outcome)
    ensures o.Pass? <==> PathIsPresent(r, key) == Ok(true)
    ensures o.Fail? ==> o.failure.AssertionFailed?
  {
    match PathIsPresent(r, key)
    case Ok(present) =>
      if present then Pass else Fail(AssertionFailed("Response does not contain key: " + key))
    case Err(f) => Fail(AssertionFailed("Key '" + key + "' not found in response: " + ReasonOf(f)))
  }

  /** `verifyResponseTime(max, response)`: strictly below the limit. */
  function VerifyResponseTime(maxTimeInMs: int, r: Response): (o: Outcome)
    ensures o.Pass? <==> r.timeMs < maxTimeInMs
    ensures o.Fail? ==> o.failure.AssertionFailed?
  {
    if r.timeMs < maxTimeInMs then Pass
    else Fail(AssertionFailed("Response time exceeded! Expected < " + IntToString(maxTimeInMs)
                              + "ms, but got: " + IntToString(r.timeMs) + "ms"))
  }

  /** `verifyResponseNotNull(response)`. */
  function VerifyResponseNotNull(r: Option<Response>): (o: Outcome)
    ensures o.Pass? <==> r.Some?
    ensures o.Fail? ==> o.failure == AssertionFailed("Response is null!")
  {
    if r.Some? then Pass else Fail(AssertionFailed("Response is null!"))
  }

  /** `verifyResponseBodyNotEmpty(response)`. */
  function VerifyResponseBodyNotEmpty(r: Response): (o: Outcome)
    ensures o.Pass? <==> r.body.Some? && |r.body.value| > 0
    ensures o.Fail? ==> o.failure == AssertionFailed("Response body is empty!")
  {
    if r.body.None? || |r.body.value| == 0 then Fail(AssertionFailed("Response body is empty!")) else Pass
  }

  /** `verifyContentType(expected, response)`: the content type must be
      present and contain `expected` anywhere, not merely equal it. */
  function VerifyContentType(expected: string, r: Response): (o: Outcome)
    ensures o.Pass? <==> r.contentType.Some? && exists k :: IsInfixAt(r.contentType.value, expected, k)
    ensures o.Fail? ==> o.failure.AssertionFailed?
  {
    if r.contentType.Some? && Contains(r.contentType.value, expected) then Pass
    else Fail(AssertionFailed("Content type mismatch! Expected: " + expected + ", but got: " + Show(r.contentType)))
  }

  /** `verifyHeaderExists(name, response)`. */
  function VerifyHeaderExists(name: string, r: Response): (o: Outcome)
    ensures o.Pass? <==> name in r.headers
    ensures o.Fail? ==> o.failure == AssertionFailed("Header '" + name + "' not found in response!")
  {
    if Header(r, name).Some? then Pass else Fail(AssertionFailed("Header '" + name + "' not found in response!"))
  }

  /** `waitForSec(seconds)`: the milliseconds slept. `Thread.sleep` rejects a
      negative duration with IllegalArgumentException, which the helper's
      `catch (InterruptedException)` does not take. */
  function WaitForSec(seconds: int): (r: Result<nat>)
    ensures r.Ok? <==> seconds >= 0
    ensures r.Ok? ==> r.value == 1000 * seconds
    ensures r.Err? ==> r.failure.IllegalArgument? && r.failure.IsException()
  {
    if seconds < 0 then Err(IllegalArgument("timeout value is negative")) else Ok(seconds * 1000)
  }

  /** `extractValue(key, response)`: the string at `key`, or null when it is
      absent, of another type, or cannot be extracted. */
  function ExtractValue(key: string, r: Response): (v: Option<string>)
    ensures v.Some? <==> PathValue(r, key).Found?
    ensures v.Some? ==> v.value == PathValue(r, key).text
  {
    match PathAsString(r, key)
    case Ok(s) => s
    case Err(_) => None
  }

  // ---------------------------------------------------------------------
  // How the helpers agree

  /** For a non-null expectation, the path assertion passes exactly when
      `extractValue` returns that value; for a null expectation it passes
      only on a genuine null, not on an extraction error that `extractValue`
      also reports as null. */
  lemma PathKeyValueAgreesWithExtractValue(key: string, expected: Option<string>, r: Response)
    ensures expected.Some? ==>
      (VerifyResponsePathKeyValue(key, expected, r).Pass? <==> ExtractValue(key, r) == expected)
    ensures VerifyResponsePathKeyValue(key, None, r).Pass? <==> PathValue(r, key).Null?
    ensures VerifyResponsePathKeyValue(key, None, r).Pass? ==> ExtractValue(key, r).None?
  {
  }

  /** Whenever `extractValue` finds a value the key check passes; the
      converse fails exactly for values that are not strings. */
  lemma ContainsKeyAndExtractValue(key: string, r: Response)
    ensures ExtractValue(key, r).Some? ==> VerifyResponseContainsKey(key, r).Pass?
    ensures VerifyResponseContainsKey(key, r).Pass? && ExtractValue(key, r).None?
            <==> PathValue(r, key).NonString?
  {
  }

  /** An exact content type always passes the content-type check. */
  lemma ExactContentTypePasses(r: Response)
    requires r.contentType.Some?
    ensures VerifyContentType(r.contentType.value, r).Pass?
  {
    assert IsInfixAt(r.contentType.value, r.contentType.value, 0);
  }

  /** A validated call's response always passes the status check against
      the status it was validated for. */
  lemma ValidatedResponsePassesStatusCheck(transport: Transport, verb: Verb, spec: Request, expected: int)
    requires SendExpecting(transport, verb, spec, expected).Ok?
    ensures VerifyStatusCode(expected, SendExpecting(transport, verb, spec, expected).value.status).Pass?
  {
  }

  /** A status check on an unvalidated response fails exactly when the
      validated call would have failed with a status mismatch. */
  lemma StatusCheckMatchesValidation(transport: Transport, verb: Verb, spec: Request, expected: int)
    requires Send(transport, verb, spec).Ok?
    ensures VerifyStatusCode(expected, Send(transport, verb, spec).value.status).Fail?
            <==> SendExpecting(transport, verb, spec, expected).Err?
  {
  }
}
