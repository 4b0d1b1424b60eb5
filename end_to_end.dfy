/** The mock backend's replies as the response normaliser sees them. */
module EndToEnd {
  import opened Wrappers
  import opened Json
  import opened JsStrings
  import opened ErrorHandling
  import opened RoutineHandlers

  /** A response that carries `reply`: its status, a JSON content type, and a non-blank body text
      that parses back to the reply's JSON (what `HttpResponse.json` sends). */
  ghost predicate Carries(reply: Reply, head: Head, text: string, parse: Parser) {
    && head.status == reply.status
    && IsJsonContentType(head)
    && HeaderGet(head, "content-length") != Some("0")
    && !IsBlank(text)
    && parse(text) == Some(reply.body)
  }

  /** The mock's 555 envelope reaches the caller as a `RoutineApiError` with the envelope's
      message, status code, error type and details; the fallback message is not used. */
  lemma MockedErrorReachesCaller(details: seq<Json>, head: Head, text: string, fallback: string, parse: Parser)
    requires Carries(MockedErrorReply(details), head, text, parse)
    ensures Normalize(head, Some(text), fallback, parse)
         == Thrown(RoutineApiError(ERROR_NAME, JString("Mocked error message"), JNumber(555.0),
                                   JString("MOCKED_ERROR"), Some(JArray(details))))
  {
    EnvelopeCase(head, text, fallback, parse, MockedErrorBody(details));
  }

  /** A successful create, list or delete reply decodes to the JSON the mock sent. */
  lemma SuccessReplyDecodes(reply: Reply, head: Head, text: string, fallback: string, parse: Parser)
    requires reply.status == OK_STATUS
    requires Carries(reply, head, text, parse)
    ensures Normalize(head, Some(text), fallback, parse) == Resolved(Some(reply.body))
  {
    SuccessBodyCase(head, Some(text), fallback, parse);
  }

  /** A 200 response with content-length "0" resolves to `undefined` whatever its body. */
  lemma EmptySuccessIsUndefined(head: Head, body: Option<string>, fallback: string, parse: Parser)
    requires head.status == 200 && HeaderGet(head, "content-length") == Some("0")
    ensures Normalize(head, body, fallback, parse) == Resolved(None)
  {
    NoContentCase(head, body, fallback, parse);
  }
}
