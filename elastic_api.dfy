/** The /api/elastic route: a fuzzy multi-field search on one Elasticsearch index,
    whose hits are normalised into Document records. */
module ElasticApi {

  import opened Wrappers
  import opened Values
  import opened Http

  const ElasticsearchNode := "http://elasticsearch:9200"

  /** A search hit: _id, _index, _score and the string fields of _source. */
  datatype Hit = Hit(id: string, index: string, score: real, source: map<string, string>)

  /** The normalised record the pages display. A field missing from _source is
      undefined (None). */
  datatype Document = Document(id: string, title: Option<string>, content: Option<string>,
                               score: string, dataset: string)

  function SourceField(source: map<string, string>, key: string): Option<string> {
    if key in source then Some(source[key]) else None
  }

  /** mapElasticResponseToDocument: hits.map, in order. `scoreText` is the
      engine's rendering of a score (toString on a float). */
  function MapHits(hits: seq<Hit>, scoreText: real -> string): (docs: seq<Document>)
    ensures |docs| == |hits|
    ensures forall i :: 0 <= i < |hits| ==>
              && docs[i].id == hits[i].id
              && docs[i].title == SourceField(hits[i].source, "title")
              && docs[i].content == SourceField(hits[i].source, "txt")
              && docs[i].score == scoreText(hits[i].score)
              && docs[i].dataset == hits[i].index
    decreases |hits|
  {
    if |hits| == 0 then []
    else
      var h := hits[0];
      [Document(h.id, SourceField(h.source, "title"), SourceField(h.source, "txt"), scoreText(h.score), h.index)]
      + MapHits(hits[1..], scoreText)
  }

  /** The mapping distributes over concatenation: the documents of a list of hits
      are the documents of its parts, in the same order. */
  lemma MapHitsAppend(a: seq<Hit>, b: seq<Hit>, scoreText: real -> string)
    ensures MapHits(a + b, scoreText) == MapHits(a, scoreText) + MapHits(b, scoreText)
  {
    var whole, parts := MapHits(a + b, scoreText), MapHits(a, scoreText) + MapHits(b, scoreText);
    forall i | 0 <= i < |whole| ensures whole[i] == parts[i] {
      if i < |a| {
        assert (a + b)[i] == a[i];
      } else {
        assert (a + b)[i] == b[i - |a|];
      }
    }
  }

  /** A source field called "content" plays no part: content comes from "txt". */
  lemma ContentComesFromTxt(hits: seq<Hit>, i: nat, scoreText: real -> string)
    requires i < |hits|
    ensures MapHits(hits, scoreText)[i].content == SourceField(hits[i].source, "txt")
    ensures "txt" !in hits[i].source ==> MapHits(hits, scoreText)[i].content.None?
  {
  }

  datatype MultiMatch = MultiMatch(query: Option<Json>, fields: seq<string>, fuzziness: string)

  /** The search call: target index, the multi_match query and the result size. */
  datatype SearchRequest = SearchRequest(index: Option<Json>, multiMatch: MultiMatch, size: nat)

  /** The request `search` sends. */
  function SearchFor(query: Option<Json>, index: Option<Json>): SearchRequest {
    SearchRequest(index, MultiMatch(query, ["txt", "title"], "AUTO"), 10)
  }

  /** One search call and the response: the route makes the call whatever the method. */
  datatype SearchExchange = SearchExchange(search: SearchRequest, response: Response<seq<Document>>)

  /** The route handler. `result` is what the engine returned (its hits) or Failed
      when the call threw. */
  function Handle(req: Request, result: Outcome<seq<Hit>>, scoreText: real -> string): (x: SearchExchange)
    ensures x.search.index == Field(req.body, "index")
    ensures x.search.multiMatch == MultiMatch(Field(req.body, "query"), ["txt", "title"], "AUTO")
    ensures x.search.size == 10
    ensures result.Delivered? ==> x.response == Ok(MapHits(result.data, scoreText))
    ensures result.Failed? ==> x.response == ServerError()
  {
    var search := SearchFor(Field(req.body, "query"), Field(req.body, "index"));
    match result
    case Delivered(hits) => SearchExchange(search, Ok(MapHits(hits, scoreText)))
    case Failed => SearchExchange(search, ServerError())
  }

  /** The route never looks at the method: two requests with the same body are
      treated alike, and none is answered with 405. */
  lemma MethodIgnored(r1: Request, r2: Request, result: Outcome<seq<Hit>>, scoreText: real -> string)
    requires r1.body == r2.body
    ensures Handle(r1, result, scoreText) == Handle(r2, result, scoreText)
    ensures Handle(r1, result, scoreText).response.status != 405
  {
  }

  /** A hit with title "A" and txt "B" in index scifact maps to the document with
      those fields. */
  lemma WorkedExample(scoreText: real -> string)
    requires scoreText(1.2) == "1.2"
    ensures MapHits([Hit("1", "scifact", 1.2, map["title" := "A", "txt" := "B"])], scoreText)
            == [Document("1", Some("A"), Some("B"), "1.2", "scifact")]
  {
  }
}
