/** The retriever's PostgREST client: builds the request URL from an endpoint and
    turns the HTTP response into a parsed body, a fixed "executed" notice, or an
    HTTPException. */
module PostgRESTClient {

  import opened Wrappers
  import opened Values

  const BaseUrl := "http://postgrest:3000"

  /** The request `request` sends: method, URL and optional JSON body. */
  datatype ClientRequest = ClientRequest(verb: string, url: string, json: Option<Json>)

  /** The URL `request` sends to: the base URL, a slash and the endpoint, so the
      endpoint can be read back from everything after the base URL's slash. */
  function RequestUrl(endpoint: string): (url: string)
    ensures |url| == |BaseUrl| + 1 + |endpoint|
    ensures url[..|BaseUrl| + 1] == BaseUrl + "/"
    ensures url[|BaseUrl| + 1..] == endpoint
  {
    BaseUrl + "/" + endpoint
  }

  function BuildRequest(verb: string, endpoint: string, data: Option<Json>): ClientRequest {
    ClientRequest(verb, RequestUrl(endpoint), data)
  }

  /** An HTTP response: status code, body text, and the body's JSON parse (None
      when the text is not JSON). */
  datatype RawResponse = RawResponse(status: int, text: string, json: Option<Json>)

  datatype ClientError =
    | HttpException(status: int, detail: string)
    | JsonDecodeError

  /** {"detail": "Request executed successfully"} */
  const Executed := Obj(map["detail" := Str("Request executed successfully")])

  predicate Accepted(status: int) {
    status == 200 || status == 201 || status == 204
  }

  /** What `request` returns or raises for a response. */
  function Classify(r: RawResponse): (res: Result<Json, ClientError>)
    // Any status outside {200, 201, 204} raises, carrying that status and the text.
    ensures !Accepted(r.status) <==> res.Failure? && res.error.HttpException?
    ensures !Accepted(r.status) ==> res.error == HttpException(r.status, r.text)
    // An accepted empty body, and any 204, gives the fixed notice.
    ensures Accepted(r.status) && (|r.text| == 0 || r.status == 204) ==> res == Success(Executed)
    // 200 and 201 with a body give the parsed body.
    ensures (r.status == 200 || r.status == 201) && |r.text| > 0 ==>
              res == if r.json.Some? then Success(r.json.value) else Failure(JsonDecodeError)
  {
    if !Accepted(r.status) then Failure(HttpException(r.status, r.text))
    else if |r.text| == 0 then Success(Executed)
    else if r.status != 204 then
      (match r.json
       case Some(v) => Success(v)
       case None => Failure(JsonDecodeError))
    else Success(Executed)
  }

  /** A successful result is either the fixed notice or the body of a 200/201, and
      the body of a 204 is never parsed. */
  lemma SuccessShapes(r: RawResponse)
    requires Classify(r).Success?
    ensures Classify(r).value == Executed || (r.status in {200, 201} && r.json == Some(Classify(r).value))
    ensures r.status == 204 ==> Classify(r).value == Executed
  {
  }
}
