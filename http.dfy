/**
  What a `fetch` call delivers to the pages, with the network replaced by
  a value: either the request fails, or a response arrives with its status
  and a body that `response.json()` parses or refuses.
*/
module Http {
  import opened Json

  /** The response body as `response.json()` delivers it: a parse error's text, or the value. */
  datatype Body = Unparsable(message: string) | Parsed(value: Value)

  /** What the network answers to a request. */
  datatype Reply =
    | NetworkFailure(message: string)
    | Response(ok: bool, status: int, statusText: string, body: Body)
}
