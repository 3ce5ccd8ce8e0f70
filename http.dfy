/** The upstream HTTP exchange as the adapters see it. The transport itself
    (the async client, headers, redirects) is outside the model: a GET is a
    pure function from the request to the response it returns. */
module Http {
  import opened PyJson

  /** A GET request: the URL and the query parameters, in the order given. */
  datatype Request = Request(url: string, params: seq<(string, Json)>)

  /** A response: the status code and what `response.json()` returns, or
      `None` when decoding the body raises. */
  datatype Response = Response(status: nat, body: Option<Json>)

  /** The upstream indexes, as seen from the adapters. */
  type Transport = Request -> Response

  const HTTP_OK: nat := 200

  /** A GET without query parameters. */
  function Get(url: string): Request {
    Request(url, [])
  }
}
