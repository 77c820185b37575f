/** The request/response shapes shared by the Next.js API routes: an inbound
    request, the single upstream call a route may plan, the upstream's outcome, and
    the response the route writes (status, optional Allow header, body). */
module Http {

  import opened Wrappers
  import opened Values

  /** An inbound request: its method (verb), the parsed query string and the JSON body. */
  datatype Request = Request(verb: string, query: Record, body: Record)

  /** HTTP verbs of the upstream calls. */
  datatype Verb = Get | Post | Patch | Delete

  /** One outbound call: verb, absolute URL and JSON body (None sends no body). */
  datatype UpstreamCall = UpstreamCall(verb: Verb, url: string, body: Option<Json>)

  /** What the awaited upstream call produced: its payload, or a thrown error. */
  datatype Outcome<+T> = Delivered(data: T) | Failed

  datatype Body<+T> = Payload(value: T) | ErrorBody(error: string) | Text(text: string)

  /** A response: status code, the Allow header when one is set, and the body. */
  datatype Response<+T> = Response(status: nat, allow: Option<seq<string>>, body: Body<T>)

  /** What a route does with one request: the upstream call it makes, if any, and
      the response it sends. */
  datatype Exchange<+T> = Exchange(call: Option<UpstreamCall>, response: Response<T>)

  const InternalServerError := "Internal Server Error"

  /** 200 with the upstream payload, unchanged. */
  function Ok<T>(data: T): Response<T> {
    Response(200, None, Payload(data))
  }

  /** 500 with {error: "Internal Server Error"}: every caught failure. */
  function ServerError<T>(): Response<T> {
    Response(500, None, ErrorBody(InternalServerError))
  }

  /** 405 with an Allow header and the text "Method <m> Not Allowed". */
  function NotAllowed<T>(verb: string, allow: seq<string>): Response<T> {
    Response(405, Some(allow), Text("Method " + verb + " Not Allowed"))
  }

  /** Make the call, then answer 200 with its payload or 500 if it threw. */
  function Forward<T>(call: UpstreamCall, upstream: Outcome<T>): (x: Exchange<T>)
    ensures x.call == Some(call) && x.response.allow.None?
    ensures x.response.status == 200 <==> upstream.Delivered?
    ensures upstream.Delivered? ==> x.response.body == Payload(upstream.data)
    ensures upstream.Failed? ==> x.response == ServerError()
  {
    match upstream
    case Delivered(data) => Exchange(Some(call), Ok(data))
    case Failed => Exchange(Some(call), ServerError())
  }
}
