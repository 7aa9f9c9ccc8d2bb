/**
 * HTTP responses as plain input values, and the two status checks the
 * program relies on: httpx's `raise_for_status` (anything but 2xx raises)
 * and aiohttp's `ClientResponse.raise_for_status()`, which the Gradio client
 * calls on each reply (400 and above raise).
 */
module Http {
  import opened Wrappers
  import opened Bytes
  import opened JsonValue

  datatype Response = Response(status: int, content: Bytes)

  /** httpx: only a 2xx status passes `raise_for_status`. */
  predicate HttpxOk(status: int) {
    200 <= status < 300
  }

  /** aiohttp's `resp.raise_for_status()`: every status below 400 passes. */
  predicate AiohttpOk(status: int) {
    status < 400
  }

  /** `response.raise_for_status()` followed by `response.content` (httpx). */
  function RaiseForStatus(resp: Response): (r: Res<Bytes>)
    ensures r.Ok? <==> HttpxOk(resp.status)
    ensures r.Ok? ==> r.value == resp.content
    ensures r.Err? ==> r.error == HttpStatusError(resp.status)
  {
    if HttpxOk(resp.status) then Ok(resp.content) else Err(HttpStatusError(resp.status))
  }
}
