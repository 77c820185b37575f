/** How the pieces meet: each page's request, handed to the route it targets,
    makes the upstream call the page intends, and the index name the retriever
    builds is the one the search page resolves back to the dataset's Elasticsearch
    index. */
module Flows {

  import opened Wrappers
  import opened Text
  import opened Values
  import opened Http
  import MetadataApi
  import RetrieverApi
  import EvaluateApi
  import ElasticApi
  import BEIRUtils
  import DatasetsPage
  import SearchPage
  import IndexesPage
  import EvaluatePage

  /** An Install click on the Datasets page asks the retriever to install that
      dataset under that id. */
  lemma InstallReachesRetriever(datasetId: int, datasetName: string, upstream: Outcome<Json>)
    ensures RetrieverApi.Handle(
              Request("GET", DatasetsPage.DownloadQuery(datasetId, datasetName), map[]), upstream).call ==
            Some(UpstreamCall(Get, RetrieverApi.RetrieverUrl + "/install/" + datasetName + "/" + IntText(datasetId), None))
  {
    ParseIntText(datasetId);
  }

  /** A build of two rows with integer ids asks the retriever to build exactly
      that pair. */
  lemma BuildReachesRetriever(dataset: Record, model: Record, datasetId: int, modelId: int, upstream: Outcome<Json>)
    requires Field(dataset, "id") == Some(Num(datasetId)) && Field(model, "id") == Some(Num(modelId))
    ensures RetrieverApi.Handle(
              Request("POST", map[], IndexesPage.BuildBody(dataset, model)), upstream).call ==
            Some(UpstreamCall(Get, RetrieverApi.RetrieverUrl + "/build/" + IntText(datasetId) + "/" + IntText(modelId), None))
  {
    ParseIntText(datasetId);
    ParseIntText(modelId);
  }

  /** A dropped row without an id reaches the retriever as NaN. */
  lemma BuildWithoutDatasetIdSendsNaN(dataset: Record, model: Record, upstream: Outcome<Json>)
    requires "id" !in dataset
    ensures RetrieverApi.Handle(
              Request("POST", map[], IndexesPage.BuildBody(dataset, model)), upstream).call ==
            Some(RetrieverApi.BuildIndexCall(None, RetrieverApi.IdOf(IndexesPage.BuildBody(dataset, model), "modelId")))
  {
    ParseIntNoDigits("undefined");
  }

  /** An evaluation of an index with an integer id asks the retriever to evaluate
      that index. */
  lemma EvaluateReachesRetriever(index: Record, indexId: int, upstream: Outcome<Json>)
    requires Field(index, "id") == Some(Num(indexId))
    ensures EvaluateApi.Handle(Request("POST", map[], EvaluatePage.EvaluateBody(index)), upstream).call ==
            Some(UpstreamCall(Get, EvaluateApi.RetrieverUrl + "/evaluate/" + IntText(indexId), None))
  {
    ParseIntText(indexId);
  }

  /** The import record reaches PostgREST as a POST of that record to datasets. */
  lemma ImportCreatesDatasetRow(record: Record, upstream: Outcome<Json>)
    ensures MetadataApi.Handle(DatasetsPage.RecordRequest(record), upstream).call ==
            Some(UpstreamCall(Post, MetadataApi.PostgrestUrl + "/datasets", Some(Obj(record))))
  {
    assert MetadataApi.PostgrestUrl + "/" + "datasets" == MetadataApi.PostgrestUrl + "/datasets";
  }

  /** A search sends the query and the resolved index name to Elasticsearch, ten
      hits at most. */
  lemma SearchReachesElastic(query: string, selected: string, result: Outcome<seq<ElasticApi.Hit>>, scoreText: real -> string)
    ensures var body := map["query" := Str(query), "index" := Str(SearchPage.IndexName(selected))];
            var x := ElasticApi.Handle(Request("POST", map[], body), result, scoreText);
            x.search.index == Some(Str(SearchPage.IndexName(selected))) &&
            x.search.multiMatch.query == Some(Str(query)) && x.search.size == 10
  {
  }

  /** The selector value of an index that `build` named after a dataset resolves to
      the name of that dataset's Elasticsearch index, which the model was loaded
      under; dataset names read back from the store are already lower-case. */
  lemma SearchTargetsBuiltIndex(datasetName: string)
    requires '+' !in datasetName && Trimmed(datasetName) && |datasetName| > 0
    ensures SearchPage.IndexName(Lower(BEIRUtils.IndexName(BEIRUtils.Bm25Name, Lower(datasetName)))) ==
            Lower(datasetName)
  {
    LowerKeepsNonLetters(datasetName, '+');
    SearchPage.LowerTrimmed(datasetName);
    SearchPage.IndexNameRoundTrip(BEIRUtils.Bm25Name, Lower(datasetName));
    LowerIdempotent(datasetName);
  }
}
