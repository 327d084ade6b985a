/**
  The two pure builders of the client: `report` turns an error and an optional second
  argument into a payload, and `send` wraps a payload in the description of the HTTP
  request that delivers it.
 */
module Payloads {
  import opened Wrappers
  import opened Json

  /** The three fields the client reads from an error object; any of them may be undefined. */
  datatype ErrorInfo = ErrorInfo(name: Value, message: Value, stack: Value)

  /** The object handed to `send`. */
  datatype Payload = Payload(name: Value, message: Value, stack: Value, metaData: Value, props: map<string, Value>)

  /** What `report` does to its second argument before sending: a falsy value becomes `{}`. */
  function Normalized(data: Value): Value
  {
    if Falsy(data) then EmptyObject else data
  }

  /** Reads the second argument of `report` back out of a payload: the labels if any, else the metadata. */
  function Attached(p: Payload): Value
  {
    if "labels" in p.props then p.props["labels"] else p.metaData
  }

  /**
    The payload `report(err, data)` sends. The error's name, message and stack are
    copied; an array becomes `props.labels` with empty metadata, any other value
    becomes the metadata (a falsy one as `{}`) with empty props.
   */
  function ReportPayload(err: ErrorInfo, data: Value): (p: Payload)
    ensures p.name == err.name && p.message == err.message && p.stack == err.stack
    ensures p.props.Keys <= {"labels"}
    ensures "labels" in p.props <==> data.Arr?
    ensures data.Arr? ==> p.metaData == EmptyObject
    ensures Attached(p) == Normalized(data)
  {
    if data.Arr? then
      Payload(err.name, err.message, err.stack, EmptyObject, map["labels" := data])
    else
      Payload(err.name, err.message, err.stack, Normalized(data), map[])
  }

  /** Two calls of `report` with the same error send the same payload exactly when their data agree up to falsiness. */
  lemma ReportPayloadInjective(err: ErrorInfo, d1: Value, d2: Value)
    ensures ReportPayload(err, d1) == ReportPayload(err, d2) <==> Normalized(d1) == Normalized(d2)
  {
  }

  datatype Request = Request(url: string, httpMethod: string, headers: map<string, string>, body: Payload)

  const ErrorsPath: string := "/errors"
  const BearerPrefix: string := "Bearer "

  /** The endpoint a URL addresses when it ends in `/errors`. */
  function EndpointOf(url: string): Option<string>
  {
    if |url| >= |ErrorsPath| && url[|url| - |ErrorsPath|..] == ErrorsPath then
      Some(url[..|url| - |ErrorsPath|])
    else
      None
  }

  /** The key carried by an `authorization` header of the bearer scheme. */
  function BearerToken(header: string): Option<string>
  {
    if |header| >= |BearerPrefix| && header[..|BearerPrefix|] == BearerPrefix then
      Some(header[|BearerPrefix|..])
    else
      None
  }

  /**
    The request `send(payload)` hands to `fetch`: a POST to the client's endpoint
    followed by `/errors`, authorised with the API key as a bearer token, with a JSON
    body. The body is the payload itself; its JSON text is not modelled.
   */
  function SendRequest(endpoint: string, apiKey: string, payload: Payload): (r: Request)
    ensures r.httpMethod == "post"
    ensures r.headers.Keys == {"authorization", "content-type"}
    ensures r.headers["content-type"] == "application/json"
    ensures EndpointOf(r.url) == Some(endpoint)
    ensures BearerToken(r.headers["authorization"]) == Some(apiKey)
    ensures r.body == payload
  {
    var url := endpoint + ErrorsPath;
    var auth := BearerPrefix + apiKey;
    assert url[|url| - |ErrorsPath|..] == ErrorsPath && url[..|url| - |ErrorsPath|] == endpoint;
    assert auth[..|BearerPrefix|] == BearerPrefix && auth[|BearerPrefix|..] == apiKey;
    Request(url, "post", map["authorization" := auth, "content-type" := "application/json"], payload)
  }

  /** Requests for different endpoints, keys or payloads are different: `send` loses nothing. */
  lemma SendRequestInjective(e1: string, k1: string, p1: Payload, e2: string, k2: string, p2: Payload)
    ensures SendRequest(e1, k1, p1) == SendRequest(e2, k2, p2) <==> e1 == e2 && k1 == k2 && p1 == p2
  {
  }
}
