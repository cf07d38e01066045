/**
 * The boundary between the library and its HTTP transport: the four public
 * client operations (`get`, `post`, `put`, `delete`), the request handed
 * to the transport, and what the transport does with it.
 */
module Http {
  import opened Values

  datatype Verb = GET | POST | PUT | DELETE

  /**
   * A call on the client's public surface, as the resource services make
   * it: `get($endpoint, $query)`, `post($endpoint, $data)`,
   * `put($endpoint, $data)` or `delete($endpoint)`.
   */
  datatype ApiCall =
    | Get(endpoint: string, query: Dict)
    | Post(endpoint: string, data: Dict)
    | Put(endpoint: string, data: Dict)
    | Delete(endpoint: string)

  function VerbOf(call: ApiCall): Verb
  {
    match call
    case Get(_, _) => GET
    case Post(_, _) => POST
    case Put(_, _) => PUT
    case Delete(_) => DELETE
  }

  /** The request options each public operation passes on to `request`. */
  function OptionsOf(call: ApiCall): (options: Dict)
    ensures "headers" !in options
  {
    match call
    case Get(_, q) => map["query" := Arr(q)]
    case Post(_, d) => map["json" := Arr(d)]
    case Put(_, d) => map["json" := Arr(d)]
    case Delete(_) => map[]
  }

  /** What the client hands to the transport. */
  datatype HttpRequest = HttpRequest(verb: Verb, endpoint: string, options: Dict)

  /** The response carried by a transport exception, when it has one. */
  datatype ErrorResponse = ErrorResponse(status: int, body: Value)

  /**
   * What the transport does with a request: it answers with a status and
   * a decoded JSON body, or it throws (with or without a response).
   */
  datatype HttpOutcome =
    | Response(status: int, body: Dict)
    | Thrown(message: string, code: int, response: Option<ErrorResponse>)
}
