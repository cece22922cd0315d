/** What comes back from the service and how it is classified. The service
    answers every request with status 200 and signals failure only by a
    body that begins with a fixed text. */
module Responses {

  import opened Wrappers

  /** The literal after the '^' anchor of the bad-response pattern. */
  const BadRequestPrefix := "Bad API request"

  /** The three ways a call can fail. Each carries the text Go's error value
      would report. */
  datatype Error =
    | Validation(msg: string)  // rejected locally, before any request
    | Service(body: string)    // the service's own bad-request body
    | Transport(msg: string)   // the exchange itself failed

  function ErrorText(e: Error): string
  {
    match e
    case Validation(m) => m
    case Service(b) => b
    case Transport(m) => m
  }

  /** What the network delivers for one request: the whole body, or the
      transport's failure. */
  datatype Reply = Body(text: string) | TransportFailure(msg: string)

  /** The text a finished call reports: its value, or its error's text. */
  function Text(r: Result<string, Error>): string
  {
    match r
    case Ok(s) => s
    case Err(e) => ErrorText(e)
  }

  /** s begins with the bad-request text. An anchored pattern matches only
      at offset 0, so the text later in s does not count. */
  predicate IsBadResponse(s: string)
  {
    |BadRequestPrefix| <= |s| && s[..|BadRequestPrefix|] == BadRequestPrefix
  }

  /** checkResponseError: an anchored literal match, one character at a time. */
  method CheckResponseError(s: string) returns (bad: bool)
    ensures bad <==> IsBadResponse(s)
  {
    var pattern := BadRequestPrefix;
    if |s| < |pattern| {
      return false;
    }
    var i := 0;
    while i < |pattern|
      invariant 0 <= i <= |pattern|
      invariant s[..i] == pattern[..i]
    {
      if s[i] != pattern[i] {
        assert s[..|pattern|][i] != pattern[i];
        return false;
      }
      i := i + 1;
    }
    assert pattern[..i] == pattern;
    return true;
  }

  /** The classification tail of RequestHandler: a bad-request body becomes
      an error whose text is the body, any other body is the result. */
  function Classify(body: string): (r: Result<string, Error>)
    ensures r.Ok? <==> !IsBadResponse(body)
    ensures Text(r) == body
    ensures r.Err? ==> r.error.Service?
  {
    if IsBadResponse(body) then Err(Service(body)) else Ok(body)
  }

  /** RequestHandler after the request is sent: transport failures pass
      through, bodies are classified. */
  function Receive(reply: Reply): (r: Result<string, Error>)
    ensures r.Ok? ==> reply.Body? && !IsBadResponse(reply.text)
    ensures r.Err? && r.error.Service? ==> reply.Body? && IsBadResponse(reply.text)
    ensures r.Err? ==> !r.error.Validation?
    ensures reply.TransportFailure? <==> r.Err? && r.error.Transport?
    ensures Text(r) == (if reply.Body? then reply.text else reply.msg)
  {
    match reply
    case TransportFailure(m) => Err(Transport(m))
    case Body(s) => Classify(s)
  }

  /** Extending a bad body never rescues it, and a body that does not start
      with the prefix stays good whatever precedes the prefix inside it. */
  lemma ClassifyIsAnchored(s: string, t: string)
    ensures IsBadResponse(s) ==> IsBadResponse(s + t)
    ensures |s| > 0 && s[0] != BadRequestPrefix[0] ==> !IsBadResponse(s + BadRequestPrefix + t)
  {
  }

  /** The prefix followed by anything is a service error carrying the whole
      body; a body shorter than the prefix, even a truncated prefix, is a
      success. */
  lemma ClassifyExactlyPrefix(rest: string, body: string)
    ensures Classify(BadRequestPrefix + rest) == Err(Service(BadRequestPrefix + rest))
    ensures |body| < |BadRequestPrefix| ==> Classify(body) == Ok(body)
  {
  }
}
