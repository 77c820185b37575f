/** The /api/evaluate route: a POST-only forward of "evaluate index" to the
    retriever service, whose call is a GET. */
module EvaluateApi {

  import opened Wrappers
  import opened Text
  import opened Values
  import opened Http

  const RetrieverUrl := "http://retriever:8000"

  const Allowed := ["POST"]

  /** EvaluatorService.evaluateIndex. */
  function EvaluateIndexCall(indexId: Option<int>): UpstreamCall {
    UpstreamCall(Get, RetrieverUrl + "/evaluate/" + NumberText(indexId), None)
  }

  function Handle(req: Request, upstream: Outcome<Json>): (x: Exchange<Json>)
    ensures x.call.Some? <==> req.verb in Allowed
    ensures req.verb == "POST" ==>
              x.call == Some(EvaluateIndexCall(ParseInt(Interp(Field(req.body, "indexId")))))
    ensures req.verb == "POST" ==>
              x.response == if upstream.Delivered? then Ok(upstream.data) else ServerError()
    ensures req.verb != "POST" ==> x.response == NotAllowed(req.verb, Allowed)
  {
    if req.verb == "POST" then
      Forward(EvaluateIndexCall(ParseInt(Interp(Field(req.body, "indexId")))), upstream)
    else
      Exchange(None, NotAllowed(req.verb, Allowed))
  }

  /** The 405 Allow header names exactly the one method served. */
  lemma AllowIsExact(req: Request, other: Request, upstream: Outcome<Json>)
    requires Handle(req, upstream).response.status == 405
    ensures other.verb in Handle(req, upstream).response.allow.value <==> Handle(other, upstream).call.Some?
  {
  }
}
