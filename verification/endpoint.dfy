/** The service's configuration: the Gotify base URL is turned, once, into the
    endpoint that messages are posted to. */
module Endpoint {

  /** Python's `s.endswith(suffix)`. */
  predicate EndsWith(s: string, suffix: string) {
    |suffix| <= |s| && s[|s| - |suffix|..] == suffix
  }

  /** The path segment appended to the base URL. */
  const MessageSegment: string := "message"

  /** The endpoint built from a configured base URL: a `/` is added only when the
      URL does not already end with one, then the `message` segment. */
  function MessageEndpoint(url: string): (r: string)
    ensures EndsWith(r, "/" + MessageSegment)
    ensures |url| <= |r| && r[..|url|] == url
    ensures |r| == |url| + |MessageSegment| + (if EndsWith(url, "/") then 0 else 1)
  {
    var base := if EndsWith(url, "/") then url else url + "/";
    base + MessageSegment
  }

  /** The base an endpoint was built from, with its trailing `/`. */
  function BaseOf(endpoint: string): (r: string)
    requires EndsWith(endpoint, MessageSegment)
    ensures r + MessageSegment == endpoint
  {
    endpoint[..|endpoint| - |MessageSegment|]
  }

  /** Recovering the base from an endpoint gives the configured URL, with a `/`
      added exactly when it had none. */
  lemma BaseOfEndpoint(url: string)
    ensures BaseOf(MessageEndpoint(url)) == (if EndsWith(url, "/") then url else url + "/")
  {
    var r := MessageEndpoint(url);
    var base := if EndsWith(url, "/") then url else url + "/";
    assert r == base + MessageSegment;
    assert r[..|r| - |MessageSegment|] == base;
  }

  /** Every string ending in `/message` is the endpoint of its own base:
      `MessageEndpoint` after `BaseOf` is the identity on such strings. */
  lemma EndpointOfBase(endpoint: string)
    requires EndsWith(endpoint, "/" + MessageSegment)
    ensures MessageEndpoint(BaseOf(endpoint)) == endpoint
  {
    var b := BaseOf(endpoint);
    assert b[|b| - 1] == endpoint[|endpoint| - |"/" + MessageSegment|];
    assert EndsWith(b, "/");
  }

  /** A URL with and without one trailing slash name the same endpoint: the
      slash is never doubled. */
  lemma SlashIsNotDoubled(url: string)
    requires !EndsWith(url, "/")
    ensures MessageEndpoint(url + "/") == MessageEndpoint(url)
  {
    assert EndsWith(url + "/", "/");
  }

  /** Normalising is not idempotent: an endpoint given as the base URL gets a
      second `/message` segment, since it does not end with `/`. */
  lemma RenormalisingAppendsAgain(endpoint: string)
    requires EndsWith(endpoint, "/" + MessageSegment)
    ensures MessageEndpoint(endpoint) == endpoint + "/" + MessageSegment
    ensures MessageEndpoint(endpoint) != endpoint
  {
    assert endpoint[|endpoint| - 1] == ("/" + MessageSegment)[|MessageSegment|];
    assert !EndsWith(endpoint, "/");
  }

  /** The configured service: the normalised endpoint and the API token. */
  datatype Service = Service(endpoint: string, token: string)

  /** The service's constructor: keeps the token and stores the normalised endpoint. */
  function Configure(url: string, token: string): (s: Service)
    ensures EndsWith(s.endpoint, "/" + MessageSegment)
    ensures |url| <= |s.endpoint| && s.endpoint[..|url|] == url
    ensures |s.endpoint| == |url| + |MessageSegment| + (if EndsWith(url, "/") then 0 else 1)
    ensures s.token == token
  {
    Service(MessageEndpoint(url), token)
  }
}
