/**
 * The outbound HTTP request message the builders fill in, and the outcome of
 * handing it to the transport.
 */
module Http {
  import opened Wrappers
  import OidcConstants

  /** The HTTP method (`verb`, since `method` is a Dafny keyword). */
  datatype HttpMethod = Get | Post | Other(name: string)

  /** An `Authorization` header value: a scheme and its parameter. */
  datatype Authorization = Authorization(scheme: string, parameter: string)

  /**
   * What an HttpRequestMessage carries on the wire, as far as the builders are
   * concerned. `content` is the form body, given as the dictionary it encodes.
   */
  datatype Message = Message(
    requestUri: Option<string>,
    verb: HttpMethod,
    accept: seq<string>,
    authorization: Option<Authorization>,
    content: Option<map<string, string>>)

  /** The state of `new HttpRequestMessage()`: GET, no URI, no headers, no content. */
  const EmptyMessage := Message(None, Get, [], None, None)

  /** HttpRequestMessage: its fields are assigned one by one by the builders. */
  class HttpRequest {
    var requestUri: Option<string>
    var verb: HttpMethod
    var accept: seq<string>
    var authorization: Option<Authorization>
    var content: Option<map<string, string>>

    constructor ()
      ensures Wire() == EmptyMessage
    {
      requestUri, verb, accept, authorization, content := None, Get, [], None, None;
    }

    function Wire(): Message
      reads this
    {
      Message(requestUri, verb, accept, authorization, content)
    }

    /** Overwrites every field (what an unseen helper or visitor leaves behind). */
    method Assign(m: Message)
      modifies this
      ensures Wire() == m
    {
      requestUri, verb, accept, authorization, content := m.requestUri, m.verb, m.accept, m.authorization, m.content;
    }

    /** `Headers.Accept.Clear()` followed by `Headers.Accept.Add(mediaType)`. */
    method AcceptOnly(mediaType: string)
      modifies this
      ensures Wire() == old(Wire()).(accept := [mediaType])
    {
      accept := [];
      accept := accept + [mediaType];
    }

    /** `SetBearerToken(token)`: RFC 6750 section 2.1. */
    method SetBearerToken(token: string)
      modifies this
      ensures Wire() == old(Wire()).(authorization := Some(Authorization(OidcConstants.BearerScheme, token)))
    {
      authorization := Some(Authorization(OidcConstants.BearerScheme, token));
    }
  }

  datatype HttpResponse = HttpResponse(status: int, body: string)

  datatype TransportException = TransportException(message: string)

  /** What `SendAsync` does with one message: it throws, or a response comes back. */
  datatype TransportOutcome = Threw(exception: TransportException) | Received(response: HttpResponse)

  /** The caller-supplied invoker; any function is allowed, so every outcome is covered. */
  type Transport = Message -> TransportOutcome
}
