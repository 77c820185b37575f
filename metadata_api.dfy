/** The /api/metadata route: a pass-through from the browser to the PostgREST
    metadata store. GET reads the entity name from the query string; every other
    method reads entityName, data and id from the JSON body. */
module MetadataApi {

  import opened Wrappers
  import opened Values
  import opened Http

  const PostgrestUrl := "http://postgrest:3000"

  /** The methods the route serves, as its 405 Allow header lists them. */
  const Allowed := ["GET", "POST", "PATCH", "DELETE"]

  /** The collection URL of an entity. The name is not validated: any string
      becomes the path segment. */
  function CollectionUrl(entityName: string): string {
    PostgrestUrl + "/" + entityName
  }

  /** The URL of one row, addressed with PostgREST's id=eq filter. */
  function RowUrl(entityName: string, id: string): string {
    CollectionUrl(entityName) + "?id=eq." + id
  }

  // MetadataEntityService: the call each of its four operations makes.

  function FetchCall(entityName: string): UpstreamCall {
    UpstreamCall(Get, CollectionUrl(entityName), None)
  }

  function CreateCall(entityName: string, entity: Option<Json>): UpstreamCall {
    UpstreamCall(Post, CollectionUrl(entityName), entity)
  }

  function UpdateCall(entityName: string, id: string, entity: Option<Json>): UpstreamCall {
    UpstreamCall(Patch, RowUrl(entityName, id), entity)
  }

  function DeleteCall(entityName: string, id: string): UpstreamCall {
    UpstreamCall(Delete, RowUrl(entityName, id), None)
  }

  /** entityName as the route reads it (query for GET, body otherwise), rendered
      the way the template literal renders it ("undefined" when absent). */
  function EntityName(req: Request): string {
    Interp(Field(if req.verb == "GET" then req.query else req.body, "entityName"))
  }

  /** data from the body; a GET never reads it. */
  function Data(req: Request): Option<Json> {
    if req.verb == "GET" then None else Field(req.body, "data")
  }

  /** id from the body, rendered into the filter. */
  function Id(req: Request): string {
    if req.verb == "GET" then Interp(None) else Interp(Field(req.body, "id"))
  }

  /** The route handler: one switch on the method. */
  function Handle(req: Request, upstream: Outcome<Json>): (x: Exchange<Json>)
    // The Allow header lists exactly the methods that are served (section 15.5.6 of RFC 9110).
    ensures x.call.Some? <==> req.verb in Allowed
    ensures req.verb !in Allowed ==> x.response == NotAllowed(req.verb, Allowed)
    // A served method answers 200 with the upstream payload unchanged, or 500.
    ensures req.verb in Allowed ==>
              x.response == if upstream.Delivered? then Ok(upstream.data) else ServerError()
    ensures req.verb == "GET" ==> x.call == Some(FetchCall(EntityName(req)))
    ensures req.verb == "POST" ==> x.call == Some(CreateCall(EntityName(req), Field(req.body, "data")))
    ensures req.verb == "PATCH" ==>
              x.call == Some(UpdateCall(EntityName(req), Interp(Field(req.body, "id")), Field(req.body, "data")))
    ensures req.verb == "DELETE" ==> x.call == Some(DeleteCall(EntityName(req), Interp(Field(req.body, "id"))))
  {
    var entityName := EntityName(req);
    if req.verb == "GET" then Forward(FetchCall(entityName), upstream)
    else if req.verb == "POST" then Forward(CreateCall(entityName, Data(req)), upstream)
    else if req.verb == "PATCH" then Forward(UpdateCall(entityName, Id(req), Data(req)), upstream)
    else if req.verb == "DELETE" then Forward(DeleteCall(entityName, Id(req)), upstream)
    else Exchange(None, NotAllowed(req.verb, Allowed))
  }

  /** Whatever string arrives as entityName becomes the path segment of the call,
      for reads and for writes alike. */
  lemma EntityNameNotValidated(e: string, query: Record, body: Record, upstream: Outcome<Json>)
    requires Field(query, "entityName") == Some(Str(e))
    requires Field(body, "entityName") == Some(Str(e))
    ensures Handle(Request("GET", query, body), upstream).call.value.url == PostgrestUrl + "/" + e
    ensures Handle(Request("POST", query, body), upstream).call.value.url == PostgrestUrl + "/" + e
  {
  }

  /** PATCH and DELETE of the same entity and id address the same row URL; only
      PATCH carries a body. */
  lemma UpdateAndDeleteShareRowUrl(query: Record, body: Record, upstream: Outcome<Json>)
    ensures var p := Handle(Request("PATCH", query, body), upstream).call.value;
            var d := Handle(Request("DELETE", query, body), upstream).call.value;
            p.url == d.url && d.body.None? && p.body == Field(body, "data")
  {
  }
}
