/** The response normaliser: `RoutineApiError` and `handleResponse`. */
module ErrorHandling {
  import opened Wrappers
  import opened Json
  import opened JsStrings

  const ERROR_NAME := "RoutineApiError"

  /** The error kind every failed response is turned into. Its fields hold the values handed to
      the constructor; `message`, `statusCode` and `errorType` are JSON values because the
      envelope branch copies the body's members without checking their types. */
  datatype RoutineApiError = RoutineApiError(
    name: string,
    message: Json,
    statusCode: Json,
    errorType: Json,
    details: Option<Json>)

  /** `new RoutineApiError(message, statusCode, errorType, details)`. */
  function NewRoutineApiError(message: Json, statusCode: Json, errorType: Json, details: Option<Json>): (e: RoutineApiError)
    ensures e.name == ERROR_NAME
    ensures e.message == message && e.statusCode == statusCode && e.errorType == errorType && e.details == details
  {
    RoutineApiError(ERROR_NAME, message, statusCode, errorType, details)
  }

  /** What of a response is known before its body is read. Header names are stored lower-case,
      as the `Headers` object normalises them. */
  datatype Head = Head(status: int, statusText: string, headers: map<string, string>)

  /** `response.ok`. */
  predicate IsOk(status: int) {
    200 <= status <= 299
  }

  /** `response.headers.get(name)`: None stands for `null`. */
  function HeaderGet(head: Head, name: string): (r: Option<string>)
    ensures r.Some? <==> name in head.headers
    ensures r.Some? ==> r.value == head.headers[name]
  {
    if name in head.headers then Some(head.headers[name]) else None
  }

  /** `contentType?.includes('application/json')`. */
  predicate IsJsonContentType(head: Head) {
    var ct := HeaderGet(head, "content-type");
    ct.Some? && Includes(ct.value, "application/json")
  }

  /** The backend's error envelope: a non-null object with the keys `statusCode`, `errorType`
      and `message`. Arrays also pass `typeof === 'object'`, but none of them has these keys. */
  predicate IsEnvelope(j: Json) {
    j.JObject? && "statusCode" in j.members && "errorType" in j.members && "message" in j.members
  }

  /** A settled call: resolved with a value (None = `undefined`) or rejected with an error. */
  datatype Outcome = Resolved(value: Option<Json>) | Thrown(error: RoutineApiError)

  /** `JSON.parse`, given: None when it throws. */
  type Parser = string -> Option<Json>

  /** The error built from the fallback message, the HTTP status and the status text. */
  function FallbackError(head: Head, fallback: string, details: Json): (e: RoutineApiError)
    ensures e.name == ERROR_NAME && e.message == JString(fallback)
    ensures e.statusCode == JNumber(head.status as real) && e.errorType == JString(head.statusText)
    ensures e.details == Some(details)
  {
    NewRoutineApiError(JString(fallback), JNumber(head.status as real), JString(head.statusText), Some(details))
  }

  /** The error built from the envelope's own members; `details` is `undefined` when absent. */
  function EnvelopeError(j: Json): (e: RoutineApiError)
    requires IsEnvelope(j)
    ensures e.name == ERROR_NAME && e.details == Property(j, "details")
    ensures e.message == j.members["message"] && e.statusCode == j.members["statusCode"]
    ensures e.errorType == j.members["errorType"]
  {
    NewRoutineApiError(j.members["message"], j.members["statusCode"], j.members["errorType"], Property(j, "details"))
  }

  /** The failure branch. `body` is what `response.text()` settles to (None: it rejects). The
      error is the envelope's own when the body is an envelope, and otherwise carries the fallback
      message, the status and the status text, with the parsed value, the raw text or the status
      text as details. */
  function FailureError(head: Head, body: Option<string>, fallback: string, parse: Parser): (e: RoutineApiError)
    ensures e.name == ERROR_NAME
    ensures BodyIsEnvelope(head, body, parse) ==> e == EnvelopeError(parse(body.value).value)
    ensures !BodyIsEnvelope(head, body, parse) ==>
      && e.message == JString(fallback)
      && e.statusCode == JNumber(head.status as real)
      && e.errorType == JString(head.statusText)
      && e.details.Some?
    ensures body.None? ==> e.details == Some(JString(head.statusText))
  {
    match body
    case None => FallbackError(head, fallback, JString(head.statusText))
    case Some(text) =>
      if IsJsonContentType(head) && Trim(text) != "" then
        match parse(text)
        case Some(j) => if IsEnvelope(j) then EnvelopeError(j) else FallbackError(head, fallback, j)
        case None => FallbackError(head, fallback, JString(text))
      else
        FallbackError(head, fallback, JString(if text != "" then text else head.statusText))
  }

  /** A success response that is answered without reading its body: 204, or content-length "0". */
  predicate SkipsBody(head: Head) {
    head.status == 204 || HeaderGet(head, "content-length") == Some("0")
  }

  /** The success branch: every read or parse problem becomes `undefined`. A value comes only
      from parsing a non-blank body of a response that is not skipped. */
  function SuccessValue(head: Head, body: Option<string>, parse: Parser): (r: Option<Json>)
    ensures SkipsBody(head) || body.None? ==> r.None?
    ensures r.Some? ==> body.Some? && !IsBlank(body.value) && parse(body.value) == r
  {
    if SkipsBody(head) then None
    else match body
      case None => None
      case Some(text) => if Trim(text) == "" then None else parse(text)
  }

  /** The body is a JSON envelope: JSON content type, non-blank text that parses to an envelope. */
  ghost predicate BodyIsEnvelope(head: Head, body: Option<string>, parse: Parser) {
    && body.Some?
    && IsJsonContentType(head)
    && !IsBlank(body.value)
    && parse(body.value).Some?
    && IsEnvelope(parse(body.value).value)
  }

  /** `handleResponse(response, fallbackErrorMessage)` as a value: the outcome is decided by the
      head, the text the body settles to and the parser. A failed status always rejects with a
      `RoutineApiError` that uses the fallback message, the status and the status text unless the
      body is the backend envelope; a successful status never rejects. */
  function Normalize(head: Head, body: Option<string>, fallback: string, parse: Parser): (r: Outcome)
    ensures r.Thrown? <==> !IsOk(head.status)
    ensures r.Thrown? ==> r.error.name == ERROR_NAME
    ensures r.Thrown? && !BodyIsEnvelope(head, body, parse) ==>
      && r.error.message == JString(fallback)
      && r.error.statusCode == JNumber(head.status as real)
      && r.error.errorType == JString(head.statusText)
      && r.error.details.Some?
    ensures r.Thrown? && BodyIsEnvelope(head, body, parse) ==>
      r.error == EnvelopeError(parse(body.value).value)
  {
    if !IsOk(head.status) then Thrown(FailureError(head, body, fallback, parse))
    else Resolved(SuccessValue(head, body, parse))
  }

  /** Envelope case: the error carries exactly the body's fields; the fallback is not used. */
  lemma EnvelopeCase(head: Head, text: string, fallback: string, parse: Parser, j: Json)
    requires !IsOk(head.status) && IsJsonContentType(head) && !IsBlank(text)
    requires parse(text) == Some(j) && IsEnvelope(j)
    ensures Normalize(head, Some(text), fallback, parse)
         == Thrown(RoutineApiError(ERROR_NAME, j.members["message"], j.members["statusCode"],
                                   j.members["errorType"], Property(j, "details")))
  {
  }

  /** JSON that parses but is not the envelope (null, an array, a primitive, a missing key)
      becomes the details of a fallback error. */
  lemma NonEnvelopeJsonCase(head: Head, text: string, fallback: string, parse: Parser, j: Json)
    requires !IsOk(head.status) && IsJsonContentType(head) && !IsBlank(text)
    requires parse(text) == Some(j) && !IsEnvelope(j)
    ensures Normalize(head, Some(text), fallback, parse)
         == Thrown(RoutineApiError(ERROR_NAME, JString(fallback), JNumber(head.status as real),
                                   JString(head.statusText), Some(j)))
  {
  }

  /** JSON content type, non-blank text that fails to parse: the raw text is the details. */
  lemma MalformedJsonCase(head: Head, text: string, fallback: string, parse: Parser)
    requires !IsOk(head.status) && IsJsonContentType(head) && !IsBlank(text)
    requires parse(text) == None
    ensures Normalize(head, Some(text), fallback, parse)
         == Thrown(RoutineApiError(ERROR_NAME, JString(fallback), JNumber(head.status as real),
                                   JString(head.statusText), Some(JString(text))))
  {
  }

  /** Not JSON, or a blank body: the details are the raw text when it is non-empty, otherwise the
      status text; the parser is not consulted. */
  lemma NotJsonOrBlankCase(head: Head, text: string, fallback: string, parse: Parser)
    requires !IsOk(head.status) && (!IsJsonContentType(head) || IsBlank(text))
    ensures Normalize(head, Some(text), fallback, parse)
         == Thrown(RoutineApiError(ERROR_NAME, JString(fallback), JNumber(head.status as real),
                                   JString(head.statusText),
                                   Some(JString(if text != "" then text else head.statusText))))
  {
  }

  /** A whitespace-only body is kept as the details, since the `||` tests the untrimmed text. */
  lemma WhitespaceBodyKeptAsDetails(head: Head, text: string, fallback: string, parse: Parser)
    requires !IsOk(head.status) && text != "" && IsBlank(text)
    ensures Normalize(head, Some(text), fallback, parse).error.details == Some(JString(text))
  {
    NotJsonOrBlankCase(head, text, fallback, parse);
  }

  /** A body that cannot be read: the status text is the details. */
  lemma ReadFailureCase(head: Head, fallback: string, parse: Parser)
    requires !IsOk(head.status)
    ensures Normalize(head, None, fallback, parse)
         == Thrown(RoutineApiError(ERROR_NAME, JString(fallback), JNumber(head.status as real),
                                   JString(head.statusText), Some(JString(head.statusText))))
  {
  }

  /** 204 or content-length "0" resolves to `undefined` whatever the body holds. */
  lemma NoContentCase(head: Head, body: Option<string>, fallback: string, parse: Parser)
    requires IsOk(head.status) && SkipsBody(head)
    ensures Normalize(head, body, fallback, parse) == Resolved(None)
  {
  }

  /** Any other success: a blank or unreadable body is `undefined`, otherwise the parse result,
      where a parse failure is `undefined` as well. */
  lemma SuccessBodyCase(head: Head, body: Option<string>, fallback: string, parse: Parser)
    requires IsOk(head.status) && !SkipsBody(head)
    ensures Normalize(head, body, fallback, parse)
         == Resolved(if body.None? || IsBlank(body.value) then None else parse(body.value))
  {
  }

  /** `response.text()`'s single-use body stream. */
  class BodyStream {
    /** What the first read settles to: the text, or None when the read rejects. */
    const content: Option<string>
    var bodyUsed: bool
    /** How many times `text()` was called. */
    ghost var readCount: nat

    constructor (content: Option<string>)
      ensures this.content == content && !bodyUsed && readCount == 0
    {
      this.content := content;
      bodyUsed := false;
      readCount := 0;
    }

    /** `response.text()`: a second read rejects ("body already used"). */
    method Text() returns (r: Option<string>)
      modifies this
      ensures bodyUsed && readCount == old(readCount) + 1
      ensures r == if old(bodyUsed) then None else content
    {
      r := if bodyUsed then None else content;
      bodyUsed := true;
      readCount := readCount + 1;
    }
  }

  /** `handleResponse` over a fresh body: its outcome is `Normalize` of the text the body holds,
      and it reads the body exactly once unless the response is a 204/content-length "0" success,
      which it does not read at all. */
  method HandleResponse(head: Head, body: BodyStream, fallback: string, parse: Parser) returns (r: Outcome)
    requires !body.bodyUsed
    modifies body
    ensures r == Normalize(head, body.content, fallback, parse)
    ensures body.readCount == old(body.readCount) + (if IsOk(head.status) && SkipsBody(head) then 0 else 1)
  {
    if !IsOk(head.status) {
      var text := body.Text();
      var error: RoutineApiError;
      match text {
        case None =>
          error := NewRoutineApiError(JString(fallback), JNumber(head.status as real), JString(head.statusText), Some(JString(head.statusText)));
        case Some(errorText) =>
          if IsJsonContentType(head) && Trim(errorText) != "" {
            var errorData := parse(errorText);
            match errorData {
              case Some(j) =>
                if IsEnvelope(j) {
                  error := NewRoutineApiError(j.members["message"], j.members["statusCode"], j.members["errorType"], Property(j, "details"));
                } else {
                  error := NewRoutineApiError(JString(fallback), JNumber(head.status as real), JString(head.statusText), Some(j));
                }
              case None =>
                error := NewRoutineApiError(JString(fallback), JNumber(head.status as real), JString(head.statusText), Some(JString(errorText)));
            }
          } else {
            var details := if errorText != "" then errorText else head.statusText;
            error := NewRoutineApiError(JString(fallback), JNumber(head.status as real), JString(head.statusText), Some(JString(details)));
          }
      }
      return Thrown(error);
    }
    if SkipsBody(head) {
      return Resolved(None);
    }
    var text := body.Text();
    match text {
      case None => r := Resolved(None);
      case Some(t) => r := if Trim(t) == "" then Resolved(None) else Resolved(parse(t));
    }
  }
}
