/** The /api/retriever route: forwards "install dataset" (GET) and "build index"
    (POST) to the retriever service. Both upstream calls are GETs. */
module RetrieverApi {

  import opened Wrappers
  import opened Text
  import opened Values
  import opened Http

  const RetrieverUrl := "http://retriever:8000"

  /** The Allow header the route sends on a 405, as written. */
  const AllowAsWritten := ["GET"]

  /** The methods the route actually serves. */
  const Served := ["GET", "POST"]

  // RetrieverService: the call each operation makes. Ids are parseInt results and
  // render as "NaN" when parsing failed.

  function InstallDatasetCall(datasetName: string, datasetId: Option<int>): UpstreamCall {
    UpstreamCall(Get, RetrieverUrl + "/install/" + datasetName + "/" + NumberText(datasetId), None)
  }

  function BuildIndexCall(datasetId: Option<int>, modelId: Option<int>): UpstreamCall {
    UpstreamCall(Get, RetrieverUrl + "/build/" + NumberText(datasetId) + "/" + NumberText(modelId), None)
  }

  /** parseInt(v, 10) of a query or body value (undefined parses to NaN). */
  function IdOf(r: Record, key: string): Option<int> {
    ParseInt(Interp(Field(r, key)))
  }

  /** The route handler as written: GET installs, POST builds, anything else is
      405 with an Allow header that names GET only. */
  function Handle(req: Request, upstream: Outcome<Json>): (x: Exchange<Json>)
    ensures x.call.Some? <==> req.verb in Served
    ensures req.verb == "GET" ==>
              x.call == Some(InstallDatasetCall(Interp(Field(req.query, "datasetName")), IdOf(req.query, "datasetId")))
    ensures req.verb == "POST" ==>
              x.call == Some(BuildIndexCall(IdOf(req.body, "datasetId"), IdOf(req.body, "modelId")))
    ensures req.verb in Served ==>
              x.response == if upstream.Delivered? then Ok(upstream.data) else ServerError()
    ensures req.verb !in Served ==> x.response == NotAllowed(req.verb, AllowAsWritten)
  {
    if req.verb == "GET" then
      Forward(InstallDatasetCall(Interp(Field(req.query, "datasetName")), IdOf(req.query, "datasetId")), upstream)
    else if req.verb == "POST" then
      Forward(BuildIndexCall(IdOf(req.body, "datasetId"), IdOf(req.body, "modelId")), upstream)
    else
      Exchange(None, NotAllowed(req.verb, AllowAsWritten))
  }

  /** The 405 answer as written advertises GET only, while a POST to the same route
      is served: the Allow header omits a supported method. */
  lemma AllowOmitsPost(query: Record, body: Record, upstream: Outcome<Json>)
    ensures Handle(Request("PUT", query, body), upstream).response.allow == Some(["GET"])
    ensures Handle(Request("POST", query, body), upstream).call.Some?
    ensures "POST" !in Handle(Request("PUT", query, body), upstream).response.allow.value
  {
  }

  /** The handler with the Allow header section 15.5.6 of RFC 9110 asks for: the
      methods the route serves. Served requests are handled exactly as before. */
  function HandleCorrected(req: Request, upstream: Outcome<Json>): (x: Exchange<Json>)
    ensures req.verb in Served ==> x == Handle(req, upstream)
    ensures x.response.status == 405 <==> req.verb !in Served
    ensures x.response.status == 405 ==> x.response.allow == Some(Served) && x.call.None?
  {
    if req.verb in Served then Handle(req, upstream) else Exchange(None, NotAllowed(req.verb, Served))
  }

  /** With the corrected header, every method the 405 names is one the route serves
      and every method it serves is named. */
  lemma CorrectedAllowIsExact(req: Request, other: Request, upstream: Outcome<Json>)
    requires HandleCorrected(req, upstream).response.status == 405
    ensures other.verb in HandleCorrected(req, upstream).response.allow.value <==>
              HandleCorrected(other, upstream).call.Some?
  {
  }
}
