/**
 * The request a method turns into, as far as the method tests observe it:
 * an HTTP verb, the endpoint name and a JSON body, and the request built from
 * it for a base URL and a bot token.
 */
module Request {
  import opened Wrappers
  import opened Json

  datatype RequestMethod = Get | Post

  datatype RequestBody = Empty | JsonBody(value: Json)

  datatype RequestBuilder = RequestBuilder(verb: RequestMethod, path: string, body: RequestBody)

  datatype HttpRequest = HttpRequest(verb: RequestMethod, url: string, body: RequestBody)

  datatype EncodeError = EncodeError(message: string)

  /** A POST request to `path` carrying `value` as its JSON body; encoding a JSON tree never fails. */
  function JsonRequest(path: string, value: Json): (r: Result<RequestBuilder, EncodeError>)
    ensures r.Ok?
    ensures r.value.verb == Post && r.value.path == path && r.value.body == JsonBody(value)
  {
    Ok(RequestBuilder(Post, path, JsonBody(value)))
  }

  /** The request addressed to `{base}/bot{token}/{path}`, with the builder's verb and body. */
  function Build(b: RequestBuilder, baseUrl: string, token: string): (r: HttpRequest)
    ensures r.verb == b.verb && r.body == b.body
    ensures |r.url| == |baseUrl| + 4 + |token| + 1 + |b.path|
    ensures r.url[..|baseUrl|] == baseUrl
    ensures r.url[|baseUrl|..|baseUrl| + 4] == "/bot"
    ensures r.url[|baseUrl| + 4..|baseUrl| + 4 + |token|] == token
    ensures r.url[|r.url| - |b.path| - 1..] == "/" + b.path
  {
    HttpRequest(b.verb, baseUrl + "/bot" + token + "/" + b.path, b.body)
  }
}
