/** The error normaliser (errors.go): how an "unexpected status" failure of the
    HTTP client becomes a CloudDriveError with the service's code taxonomy. */
module Errors {
  import opened Wrappers

  // Error codes of the service (consts.go).
  const ErrorCodeNoActiveSubscriptionFound := "NO_ACTIVE_SUBSCRIPTION_FOUND"
  const ErrorCodeNodeNotFound := "NODE_NOT_FOUND"
  const ErrorCodeParentNodeIdNotFound := "PARENT_NODE_ID_NOT_FOUND"
  const ErrorCodeNameAlreadyExists := "NAME_ALREADY_EXISTS"
  const ErrorCodeCustomerNotFound := "CUSTOMER_NOT_FOUND"
  const ErrorCodeTooManyRequests := "TOO_MANY_REQUESTS"
  /** The code synthesised when the body cannot be read as an error object. */
  const ErrorCodeUnknown := "unknown"

  const StatusNotFound := 404
  const StatusTooManyRequests := 429

  const ContentTypeVndError := "application/vnd.error+json"
  const ContentTypeJson := "application/json"
  /** The message the backend sends, without a code, for a missing node. */
  const NodeDoesNotExist := "Node does not exists"
  const RateExceeded := "Rate exceeded"

  /** The HTTP client's failure for a status outside the expected set: the
      expected statuses, the status received, the response's Content-Type
      header ("" when absent) and the raw body. */
  datatype InvalidStatus = InvalidStatus(expected: seq<int>, got: int, contentType: string, content: string)

  /** The structured error; `httpClientError` is the raw cause (nil for the sentinels). */
  datatype CloudDriveError = CloudDriveError(code: string, message: string, logref: string, httpClientError: Option<InvalidStatus>)

  /** Go `error` values as they travel through the client: the HTTP client's
      invalid-status failure, a structured error, or any other failure
      (transport, decoding, token refresh), known only by its text. */
  datatype Error =
    | InvalidStatusError(ise: InvalidStatus)
    | DriveError(cde: CloudDriveError)
    | OtherError(text: string)

  /** What decoding a body as `{code, message, logref}` JSON yields: the fields
      found (missing ones empty), the literal `null`, or a failure together with
      the logref that was filled in before the decoder gave up ("" for a
      syntax error). */
  datatype ErrorBodyJson =
    | Fields(code: string, message: string, logref: string)
    | JsonNull
    | Malformed(logref: string)

  /** JSON decoding of an error body, a library codec the model takes as input. */
  type ErrorBodyDecoder = string -> ErrorBodyJson

  const ErrCustomerNotFound := CloudDriveError(ErrorCodeCustomerNotFound, "Endpoint customer does not exist", "", None)
  const ErrRootNotFound := CloudDriveError(ErrorCodeNodeNotFound, "Root node not found", "", None)

  /** `Error()`: the code, a colon and a space, then the message. */
  function Render(e: CloudDriveError): (s: string)
    ensures |s| == |e.code| + 2 + |e.message|
    ensures s[..|e.code|] == e.code
    ensures s[|e.code|..|e.code| + 2] == ": "
    ensures s[|e.code| + 2..] == e.message
  {
    e.code + ": " + e.message
  }

  /** Two errors whose codes hold no colon render alike only if code and
      message agree: the rendering loses nothing for such codes. */
  lemma RenderInjective(e1: CloudDriveError, e2: CloudDriveError)
    requires ':' !in e1.code && ':' !in e2.code
    requires Render(e1) == Render(e2)
    ensures e1.code == e2.code && e1.message == e2.message
  {
    if |e1.code| < |e2.code| {
      RenderAt(e1, |e1.code|);
      RenderAt(e2, |e1.code|);
      assert false;
    } else if |e2.code| < |e1.code| {
      RenderAt(e2, |e2.code|);
      RenderAt(e1, |e2.code|);
      assert false;
    }
  }

  /** The character of the rendering at position `i`. */
  lemma RenderAt(e: CloudDriveError, i: int)
    ensures 0 <= i < |e.code| ==> Render(e)[i] == e.code[i]
    ensures i == |e.code| ==> Render(e)[i] == ':'
  {
  }

  /** `IsCloudDriveError`: the structured error and true when `err` is one,
      nothing and false otherwise. */
  function IsCloudDriveError(err: Error): (r: (Option<CloudDriveError>, bool))
    ensures r.1 <==> err.DriveError?
    ensures r.0.Some? <==> r.1
    ensures r.1 ==> r.0.value == err.cde
  {
    if err.DriveError? then (Some(err.cde), true) else (None, false)
  }

  predicate IsJsonContentType(contentType: string)
  {
    contentType == ContentTypeVndError || contentType == ContentTypeJson
  }

  /** The struct as errors.go:50-61 leave it, before the quirks; None where
      decoding `null` into `&cloudDriveErr` has set the pointer to nil. */
  function DecodedAsWritten(ise: InvalidStatus, decode: ErrorBodyDecoder): Option<CloudDriveError>
  {
    if IsJsonContentType(ise.contentType) then
      match decode(ise.content)
      case Fields(code, message, logref) => Some(CloudDriveError(code, message, logref, None))
      case JsonNull => None
      case Malformed(logref) => Some(CloudDriveError(ErrorCodeUnknown, ise.content, logref, None))
    else
      Some(CloudDriveError(ErrorCodeUnknown, ise.content, "", None))
  }

  /** The decoded struct with `null` read as an empty object. A body that is
      not a JSON error object becomes code "unknown" with the raw body as
      message; a decoded object is taken verbatim. */
  function Decoded(ise: InvalidStatus, decode: ErrorBodyDecoder): (e: CloudDriveError)
    ensures !IsJsonContentType(ise.contentType) ==>
              e == CloudDriveError(ErrorCodeUnknown, ise.content, "", None)
    ensures IsJsonContentType(ise.contentType) && decode(ise.content).Malformed? ==>
              e == CloudDriveError(ErrorCodeUnknown, ise.content, decode(ise.content).logref, None)
    ensures IsJsonContentType(ise.contentType) && decode(ise.content).Fields? ==>
              var f := decode(ise.content); e == CloudDriveError(f.code, f.message, f.logref, None)
    ensures IsJsonContentType(ise.contentType) && decode(ise.content).JsonNull? ==>
              e == CloudDriveError("", "", "", None)
  {
    match DecodedAsWritten(ise, decode)
    case Some(e) => e
    case None => CloudDriveError("", "", "", None)
  }

  /** The two backend quirks of errors.go:63-75 applied to a decoded struct. */
  function WithQuirks(got: int, e: CloudDriveError): CloudDriveError
  {
    var e1 := if got == StatusNotFound && e.code == "" && e.message == NodeDoesNotExist
              then e.(code := ErrorCodeNodeNotFound) else e;
    if got == StatusTooManyRequests then
      e1.(code := ErrorCodeTooManyRequests, message := if e1.message == "" then RateExceeded else e1.message)
    else e1
  }

  /** errors.go:44-80 as written: None stands for the nil dereference that a
      JSON `null` body causes. */
  function HandleErrorAsWritten(err: Error, decode: ErrorBodyDecoder): Option<Error>
  {
    if !err.InvalidStatusError? then Some(err)
    else
      match DecodedAsWritten(err.ise, decode)
      case None => None
      case Some(e) => Some(DriveError(WithQuirks(err.ise.got, e).(httpClientError := Some(err.ise))))
  }

  /** `HandleError`, with a `null` body read as an empty object. Anything but
      an invalid-status failure passes through unchanged; an invalid-status
      failure always becomes a structured error that keeps it as its cause,
      whose logref is the decoded one, and whose code and message are the
      decoded ones except for the two quirks: 429 forces TOO_MANY_REQUESTS
      (message "Rate exceeded" when empty), and a 404 with no code and the
      message "Node does not exists" gets NODE_NOT_FOUND. */
  function HandleError(err: Error, decode: ErrorBodyDecoder): (r: Error)
    ensures !err.InvalidStatusError? ==> r == err
    ensures err.InvalidStatusError? ==>
              var d := Decoded(err.ise, decode);
              && r.DriveError?
              && r.cde.httpClientError == Some(err.ise)
              && r.cde.logref == d.logref
              && (err.ise.got == StatusTooManyRequests ==>
                    r.cde.code == ErrorCodeTooManyRequests
                    && r.cde.message == (if d.message == "" then RateExceeded else d.message))
              && (err.ise.got == StatusNotFound ==>
                    r.cde.message == d.message
                    && r.cde.code == (if d.code == "" && d.message == NodeDoesNotExist then ErrorCodeNodeNotFound else d.code))
              && (err.ise.got != StatusNotFound && err.ise.got != StatusTooManyRequests ==>
                    r.cde.code == d.code && r.cde.message == d.message)
  {
    if !err.InvalidStatusError? then err
    else DriveError(WithQuirks(err.ise.got, Decoded(err.ise, decode)).(httpClientError := Some(err.ise)))
  }

  /** A body that is not JSON (by its Content-Type) gives code "unknown" and
      the raw body as message, unless the status is 429. */
  lemma NonJsonBodyIsUnknown(ise: InvalidStatus, decode: ErrorBodyDecoder)
    requires !IsJsonContentType(ise.contentType) && ise.got != StatusTooManyRequests
    ensures HandleError(InvalidStatusError(ise), decode)
            == DriveError(CloudDriveError(ErrorCodeUnknown, ise.content, "", Some(ise)))
  {
  }

  /** A JSON body that fails to decode gives code "unknown" and the raw body
      as message, unless the status is 429. */
  lemma MalformedBodyIsUnknown(ise: InvalidStatus, decode: ErrorBodyDecoder)
    requires IsJsonContentType(ise.contentType) && decode(ise.content).Malformed?
    requires ise.got != StatusTooManyRequests
    ensures var r := HandleError(InvalidStatusError(ise), decode);
            r.cde.code == ErrorCodeUnknown && r.cde.message == ise.content
  {
  }

  /** The 404 quirk, both directions: a 404 reports NODE_NOT_FOUND exactly
      when the decoded code already was NODE_NOT_FOUND or was empty with the
      message "Node does not exists". */
  lemma NodeNotFoundQuirk(ise: InvalidStatus, decode: ErrorBodyDecoder)
    requires ise.got == StatusNotFound
    ensures var d := Decoded(ise, decode);
            var r := HandleError(InvalidStatusError(ise), decode);
            r.cde.code == ErrorCodeNodeNotFound
            <==> d.code == ErrorCodeNodeNotFound || (d.code == "" && d.message == NodeDoesNotExist)
  {
  }

  /** Normalising twice is normalising once: the result is never an
      invalid-status failure, and structured errors pass through. */
  lemma HandleErrorIdempotent(err: Error, decode: ErrorBodyDecoder)
    ensures HandleError(HandleError(err, decode), decode) == HandleError(err, decode)
  {
  }

  /** A sentinel never equals a normalised server error: only the latter carries a cause. */
  lemma SentinelsAreDistinguishable(ise: InvalidStatus, decode: ErrorBodyDecoder)
    ensures HandleError(InvalidStatusError(ise), decode) != DriveError(ErrRootNotFound)
    ensures HandleError(InvalidStatusError(ise), decode) != DriveError(ErrCustomerNotFound)
  {
  }

  /** The scenario of the live tests: a 404 with body {"message":"Node does not exists"}. */
  lemma NodeDoesNotExistScenario(decode: ErrorBodyDecoder)
    requires decode("{\"message\":\"Node does not exists\"}") == Fields("", NodeDoesNotExist, "")
    ensures var ise := InvalidStatus([200], 404, ContentTypeJson, "{\"message\":\"Node does not exists\"}");
            HandleError(InvalidStatusError(ise), decode)
            == DriveError(CloudDriveError(ErrorCodeNodeNotFound, NodeDoesNotExist, "", Some(ise)))
  {
  }

  /** The scenario of the live tests: a 429 with body
      {"logref":"LOGREF-UUID","message":"Rate exceeded","code":""}. */
  lemma RateExceededScenario(decode: ErrorBodyDecoder)
    requires decode("{\"logref\":\"LOGREF-UUID\",\"message\":\"Rate exceeded\",\"code\":\"\"}")
             == Fields("", RateExceeded, "LOGREF-UUID")
    ensures var ise := InvalidStatus([200], 429, ContentTypeJson,
                                     "{\"logref\":\"LOGREF-UUID\",\"message\":\"Rate exceeded\",\"code\":\"\"}");
            HandleError(InvalidStatusError(ise), decode)
            == DriveError(CloudDriveError(ErrorCodeTooManyRequests, RateExceeded, "LOGREF-UUID", Some(ise)))
  {
  }

  /** Finding, as written: an error response whose JSON body is `null` makes
      errors.go dereference a nil pointer. */
  lemma NullBodyPanicsAsWritten(decode: ErrorBodyDecoder)
    requires decode("null") == JsonNull
    ensures HandleErrorAsWritten(InvalidStatusError(InvalidStatus([200], 500, ContentTypeJson, "null")), decode).None?
  {
  }

  /** The corrected normaliser agrees with errors.go on every input except a
      JSON `null` body, where errors.go crashes. */
  lemma HandleErrorAgreesAsWritten(err: Error, decode: ErrorBodyDecoder)
    ensures HandleErrorAsWritten(err, decode).None?
            <==> err.InvalidStatusError? && IsJsonContentType(err.ise.contentType) && decode(err.ise.content).JsonNull?
    ensures HandleErrorAsWritten(err, decode).Some? ==> HandleErrorAsWritten(err, decode).value == HandleError(err, decode)
  {
  }
}
