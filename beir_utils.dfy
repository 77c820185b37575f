/** The retriever's BEIR layer: the metadata store reached through PostgREST
    (datasets, models and indexes tables), and the Dataset, Model and Index objects
    built from it. The store is a class whose tables the PATCH and POST requests
    update in place; the objects are values. Downloading, corpus loading, indexing
    into Elasticsearch and the BEIR evaluation are external and enter as parameters
    or are left out. */
module BEIRUtils {

  import opened Wrappers
  import opened Text
  import opened Values
  import PostgRESTClient

  const BeirDatasetsBaseUrl := "https://public.ukp.informatik.tu-darmstadt.de/thakur/BEIR/datasets"
  const LexicalServerHostName := "elasticsearch"
  /** The only model the retriever supports. */
  const Bm25Name := "BM25"
  const ShardCount := 4

  /** A row of a metadata table. */
  type Row = Record

  /** The exceptions the layer raises. */
  datatype PyError =
    | ValueError(message: string)
    | NotImplementedError(message: string)
    | KeyError(key: string)
    | AttributeError(name: string)
    | TypeError
    | FileNotFoundError(message: string)

  /** The PostgREST horizontal filter a lookup sends. */
  datatype RowFilter =
    | IdEq(id: int)
    | NameILike(pattern: string)

  datatype Query = Query(table: string, filter: RowFilter)

  /** The query string of a filter. */
  function FilterText(f: RowFilter): string {
    match f
    case IdEq(id) => "id=eq." + IntText(id)
    case NameILike(p) => "name=ilike." + p
  }

  /** The endpoint a query is sent to, relative to the PostgREST base URL. */
  function Endpoint(q: Query): (e: string)
    ensures q.filter.IdEq? ==> e == q.table + "?id=eq." + IntText(q.filter.id)
    ensures q.filter.NameILike? ==> e == q.table + "?name=ilike." + q.filter.pattern
  {
    q.table + "?" + FilterText(q.filter)
  }

  /** The GET request a lookup sends through the PostgREST client. */
  function LookupRequest(q: Query): PostgRESTClient.ClientRequest {
    PostgRESTClient.BuildRequest("GET", Endpoint(q), None)
  }

  /** A string cut at the first '?' gives back the part before it and the part after. */
  lemma {:induction false} CutAtMark(a: string, x: string, b: string, y: string)
    requires '?' !in a && '?' !in b
    requires a + "?" + x == b + "?" + y
    ensures a == b && x == y
  {
    var s := a + "?" + x;
    assert s[|a|] == '?';
    assert (b + "?" + y)[|b|] == '?';
    assert |a| == |b| by {
      assert forall i :: 0 <= i < |a| ==> s[i] == a[i];
      assert forall i :: 0 <= i < |b| ==> (b + "?" + y)[i] == b[i];
    }
    assert a == s[..|a|];
    assert b == (b + "?" + y)[..|b|];
    assert x == s[|a| + 1..];
    assert y == (b + "?" + y)[|b| + 1..];
  }

  /** An id filter's query string starts with 'i', a name filter's with 'n'. */
  lemma FilterTextHead(f: RowFilter)
    ensures |FilterText(f)| > 0 && FilterText(f)[0] == (if f.IdEq? then 'i' else 'n')
  {
  }

  /** Different filters have different query strings: an id is read back from its
      decimal text, and the two filter kinds differ in their first character. */
  lemma {:induction false} FilterTextInjective(f: RowFilter, g: RowFilter)
    requires FilterText(f) == FilterText(g)
    ensures f == g
  {
    FilterTextHead(f);
    FilterTextHead(g);
    match (f, g)
    case (IdEq(m), IdEq(n)) =>
      assert FilterText(f)[6..] == IntText(m);
      assert FilterText(g)[6..] == IntText(n);
      ParseIntText(m);
      ParseIntText(n);
    case (NameILike(p), NameILike(q)) =>
      assert FilterText(f)[11..] == p;
      assert FilterText(g)[11..] == q;
    case _ =>
  }

  /** The URL a lookup requests identifies its query: two lookups on tables whose
      names hold no '?' send the same request exactly when they ask for the same
      table and filter, so the rows the store answers with (`Select`) are a function
      of the URL sent. */
  lemma {:induction false} LookupRequestIdentifiesQuery(q1: Query, q2: Query)
    requires '?' !in q1.table && '?' !in q2.table
    ensures LookupRequest(q1) == LookupRequest(q2) <==> q1 == q2
  {
    if LookupRequest(q1) == LookupRequest(q2) {
      assert PostgRESTClient.RequestUrl(Endpoint(q1))[|PostgRESTClient.BaseUrl| + 1..] == Endpoint(q1);
      assert PostgRESTClient.RequestUrl(Endpoint(q2))[|PostgRESTClient.BaseUrl| + 1..] == Endpoint(q2);
      CutAtMark(q1.table, FilterText(q1.filter), q2.table, FilterText(q2.filter));
      FilterTextInjective(q1.filter, q2.filter);
    }
  }

  /** Whether a row passes a filter. `ilike` is a case-insensitive match; the
      pattern is compared as a literal string. */
  predicate Matches(row: Row, f: RowFilter) {
    match f
    case IdEq(id) => Field(row, "id") == Some(Num(id))
    case NameILike(p) => "name" in row && row["name"].Str? && Lower(row["name"].s) == Lower(p)
  }

  function Matcher(f: RowFilter): Row -> bool {
    (r: Row) => Matches(r, f)
  }

  /** An index row's dataset_id and model_id, when present, are integers or null,
      as the indexes table's foreign-key columns are. */
  predicate IdColumns(row: Row) {
    && ("dataset_id" in row ==> row["dataset_id"].Num? || row["dataset_id"].Null?)
    && ("model_id" in row ==> row["model_id"].Num? || row["model_id"].Null?)
  }

  /** The three tables exist, every row has an integer id, and index rows keep
      their id columns. */
  predicate WellFormed(tables: map<string, seq<Row>>) {
    && "datasets" in tables && "models" in tables && "indexes" in tables
    && (forall t, i :: t in tables && 0 <= i < |tables[t]| ==>
          "id" in tables[t][i] && tables[t][i]["id"].Num?)
    && (forall i :: 0 <= i < |tables["indexes"]| ==> IdColumns(tables["indexes"][i]))
  }

  /** A datasets row `Dataset(id)` can load: a string name to lower-case, a type,
      and a string path whose files exist. */
  predicate Loadable(row: Row, onDisk: string -> bool) {
    && "name" in row && row["name"].Str?
    && "type" in row
    && "path" in row && row["path"].Str? && onDisk(row["path"].s)
  }

  /** A matching row of the given table under a patch: the patch's columns replace
      the row's. */
  function Patched(rows: seq<Row>, id: int, patch: Row): (r: seq<Row>)
    ensures |r| == |rows|
    ensures forall i :: 0 <= i < |rows| ==>
              r[i] == if Matches(rows[i], IdEq(id)) then rows[i] + patch else rows[i]
  {
    seq(|rows|, i requires 0 <= i < |rows| => if Matches(rows[i], IdEq(id)) then rows[i] + patch else rows[i])
  }

  /** The row `set_index` posts; `assignedId` is the id PostgreSQL gives it and
      `createdAt` the ISO timestamp of the call. */
  function IndexRow(assignedId: int, datasetId: int, modelId: int, createdAt: string, name: string): Row {
    map["id" := Num(assignedId), "dataset_id" := Num(datasetId), "model_id" := Num(modelId),
        "created_at" := Str(createdAt), "name" := Str(name)]
  }

  /** The name `build` gives an index. */
  function IndexName(modelName: string, datasetName: string): string {
    modelName + " + " + datasetName
  }

  /** The metadata store as the retriever sees it through PostgREST. */
  class MetadataStore {
    var tables: map<string, seq<Row>>

    ghost predicate Valid()
      reads this
    {
      WellFormed(tables)
    }

    constructor(initial: map<string, seq<Row>>)
      requires WellFormed(initial)
      ensures Valid() && tables == initial
    {
      tables := initial;
    }

    /** The rows a GET with this query returns, in table order. */
    function Select(q: Query): (rows: seq<Row>)
      reads this
      requires Valid() && q.table in tables
      ensures forall r :: r in rows <==> r in tables[q.table] && Matches(r, q.filter)
    {
      Filter(tables[q.table], Matcher(q.filter))
    }

    /** `response[0]` of a GET, or the ValueError raised when nothing matches. */
    function First(q: Query, notFound: string): (r: Result<Row, PyError>)
      reads this
      requires Valid() && q.table in tables
      ensures r.Failure? <==> forall i :: 0 <= i < |tables[q.table]| ==> !Matches(tables[q.table][i], q.filter)
      ensures r.Failure? ==> r.error == ValueError(notFound)
      ensures r.Success? ==> exists k :: 0 <= k < |tables[q.table]| && tables[q.table][k] == r.value &&
                                         Matches(r.value, q.filter) &&
                                         forall j :: 0 <= j < k ==> !Matches(tables[q.table][j], q.filter)
    {
      FilterHeadIsFind(tables[q.table], Matcher(q.filter));
      var rows := Select(q);
      if |rows| == 0 then Failure(ValueError(notFound)) else Success(rows[0])
    }

    function GetDatasetById(id: int): (r: Result<Row, PyError>)
      reads this
      requires Valid()
      ensures r.Failure? <==> forall i :: 0 <= i < |tables["datasets"]| ==> tables["datasets"][i]["id"] != Num(id)
      ensures r.Failure? ==> r.error == ValueError("Dataset with id '" + IntText(id) + "' does not exist.")
      ensures r.Success? ==> r.value in tables["datasets"] && r.value["id"] == Num(id)
    {
      First(Query("datasets", IdEq(id)), "Dataset with id '" + IntText(id) + "' does not exist.")
    }

    function GetModelById(id: int): (r: Result<Row, PyError>)
      reads this
      requires Valid()
      ensures r.Failure? <==> forall i :: 0 <= i < |tables["models"]| ==> tables["models"][i]["id"] != Num(id)
      ensures r.Failure? ==> r.error == ValueError("Model with id '" + IntText(id) + "' does not exist.")
      ensures r.Success? ==> r.value in tables["models"] && r.value["id"] == Num(id)
    {
      First(Query("models", IdEq(id)), "Model with id '" + IntText(id) + "' does not exist.")
    }

    function GetIndexById(id: int): (r: Result<Row, PyError>)
      reads this
      requires Valid()
      ensures r.Failure? <==> forall i :: 0 <= i < |tables["indexes"]| ==> tables["indexes"][i]["id"] != Num(id)
      ensures r.Failure? ==> r.error == ValueError("Index with id '" + IntText(id) + "' does not exist.")
      ensures r.Success? ==> r.value in tables["indexes"] && r.value["id"] == Num(id) && IdColumns(r.value)
    {
      First(Query("indexes", IdEq(id)), "Index with id '" + IntText(id) + "' does not exist.")
    }

    /** `response[0]["id"]` of a case-insensitive name lookup. */
    function GetDatasetId(name: string): (r: Result<int, PyError>)
      reads this
      requires Valid()
      ensures r.Failure? <==> forall i :: 0 <= i < |tables["datasets"]| ==> !Matches(tables["datasets"][i], NameILike(name))
      ensures r.Failure? ==> r.error == ValueError("Dataset with name '" + name + "' does not exist.")
      ensures r.Success? ==> exists row :: row in tables["datasets"] && Matches(row, NameILike(name)) && row["id"] == Num(r.value)
    {
      var row :- First(Query("datasets", NameILike(name)), "Dataset with name '" + name + "' does not exist.");
      Success(row["id"].n)
    }

    function GetModelId(name: string): (r: Result<int, PyError>)
      reads this
      requires Valid()
      ensures r.Failure? <==> forall i :: 0 <= i < |tables["models"]| ==> !Matches(tables["models"][i], NameILike(name))
      ensures r.Failure? ==> r.error == ValueError("Model with name '" + name + "' does not exist.")
      ensures r.Success? ==> exists row :: row in tables["models"] && Matches(row, NameILike(name)) && row["id"] == Num(r.value)
    {
      var row :- First(Query("models", NameILike(name)), "Model with name '" + name + "' does not exist.");
      Success(row["id"].n)
    }

    /** PATCH datasets?id=eq.<id> with {path, type}. */
    method UpdateDataset(datasetId: int, path: Json, datasetType: Json)
      requires Valid()
      modifies this
      ensures Valid()
      ensures tables == old(tables)["datasets" := Patched(old(tables)["datasets"], datasetId,
                                                          map["path" := path, "type" := datasetType])]
    {
      var patch: Row := map["path" := path, "type" := datasetType];
      var rows := Patched(tables["datasets"], datasetId, patch);
      tables := tables["datasets" := rows];
    }

    /** POST indexes with the new index's row. */
    method SetIndex(datasetId: int, modelId: int, name: string, createdAt: string, assignedId: int)
      requires Valid()
      modifies this
      ensures Valid()
      ensures tables == old(tables)["indexes" := old(tables)["indexes"] +
                                                 [IndexRow(assignedId, datasetId, modelId, createdAt, name)]]
    {
      tables := tables["indexes" := tables["indexes"] + [IndexRow(assignedId, datasetId, modelId, createdAt, name)]];
    }

    /** `Dataset(dataset_name_or_id, is_custom_dataset)`. A name builds the BEIR
        download URL without touching the store; an id reads the row, lower-cases its
        name and loads the files at its path, which `onDisk` says exist or not. A
        path that is not a string fails `os.path.exists` with a TypeError. */
    function NewDataset(nameOrId: Json, isCustom: Json, onDisk: string -> bool): (r: Result<DatasetObj, PyError>)
      reads this
      requires Valid()
      ensures nameOrId.Str? ==>
                r == Success(DatasetObj(nameOrId.s, Some(BeirDatasetsBaseUrl + "/" + nameOrId.s + ".zip"),
                                        Str(if PyTruthy(isCustom) then "custom" else "beir"), Null))
      ensures nameOrId.Num? && GetDatasetById(nameOrId.n).Failure? ==> r == Failure(GetDatasetById(nameOrId.n).error)
      ensures nameOrId.Num? && GetDatasetById(nameOrId.n).Success? ==>
                var row := GetDatasetById(nameOrId.n).value;
                && (r.Success? <==> Loadable(row, onDisk))
                && (r.Success? ==> r.value == DatasetObj(Lower(row["name"].s), None, row["type"], row["path"]))
                && ("name" !in row ==> r == Failure(KeyError("name")))
                && ("name" in row && !row["name"].Str? ==> r == Failure(AttributeError("lower")))
                && ("name" in row && row["name"].Str? && "type" !in row ==> r == Failure(KeyError("type")))
                && ("name" in row && row["name"].Str? && "type" in row && "path" !in row ==> r == Failure(KeyError("path")))
                && ("name" in row && row["name"].Str? && "type" in row && "path" in row && !row["path"].Str? ==>
                      r == Failure(TypeError))
                && ("name" in row && row["name"].Str? && "type" in row && "path" in row && row["path"].Str? ==>
                      (onDisk(row["path"].s) || r == Failure(FileNotFoundError(row["path"].s + " not found"))))
      ensures !nameOrId.Str? && !nameOrId.Num? ==>
                r == Failure(ValueError("dataset_name_or_id must be either a string or an integer"))
    {
      match nameOrId
      case Str(name) =>
        Success(DatasetObj(name, Some(BeirDatasetsBaseUrl + "/" + name + ".zip"),
                           Str(if PyTruthy(isCustom) then "custom" else "beir"), Null))
      case Num(id) =>
        var row :- GetDatasetById(id);
        var name :- Column(row, "name");
        if !name.Str? then Failure(AttributeError("lower"))
        else
          var datasetType :- Column(row, "type");
          var path :- Column(row, "path");
          if !path.Str? then Failure(TypeError)
          else if !onDisk(path.s) then Failure(FileNotFoundError(path.s + " not found"))
          else Success(DatasetObj(Lower(name.s), None, datasetType, path))
      case _ =>
        Failure(ValueError("dataset_name_or_id must be either a string or an integer"))
    }

    /** `Model(name, model_id)`: a truthy name wins; otherwise a truthy id reads the
        model's name from the store. */
    function NewModel(name: Json, modelId: Json): (r: Result<ModelObj, PyError>)
      reads this
      requires Valid()
      requires modelId.Null? || modelId.Num?
      ensures PyTruthy(name) ==> r == Success(ModelObj(name, None))
      ensures !PyTruthy(name) && !PyTruthy(modelId) ==>
                r == Failure(ValueError("Either name or model_id must be provided"))
      ensures !PyTruthy(name) && PyTruthy(modelId) ==>
                var row := GetModelById(modelId.n);
                r == if row.Failure? then Failure(row.error)
                     else if "name" in row.value then Success(ModelObj(row.value["name"], None))
                     else Failure(KeyError("name"))
    {
      if PyTruthy(name) then Success(ModelObj(name, None))
      else if PyTruthy(modelId) then
        var row :- GetModelById(modelId.n);
        var modelName :- Column(row, "name");
        Success(ModelObj(modelName, None))
      else Failure(ValueError("Either name or model_id must be provided"))
    }

    /** `Index(dataset, model, index_id)`: a truthy id rebuilds the dataset and the
        model from the index row and loads the model under the dataset's name without
        re-initialising it; each failure on the way is raised as it is. Otherwise
        both objects must be given. */
    function NewIndex(dataset: Option<DatasetObj>, model: Option<ModelObj>, indexId: Option<int>,
                      onDisk: string -> bool): (r: Result<IndexObj, PyError>)
      reads this
      requires Valid()
      ensures indexId.Some? && indexId.value != 0 && GetIndexById(indexId.value).Failure? ==>
                r == Failure(GetIndexById(indexId.value).error)
      ensures indexId.Some? && indexId.value != 0 && GetIndexById(indexId.value).Success? ==>
                var row := GetIndexById(indexId.value).value;
                && ("dataset_id" !in row ==> r == Failure(KeyError("dataset_id")))
                && ("dataset_id" in row ==>
                      var ds := NewDataset(row["dataset_id"], Null, onDisk);
                      && (ds.Failure? ==> r == Failure(ds.error))
                      && (ds.Success? && "model_id" !in row ==> r == Failure(KeyError("model_id")))
                      && (ds.Success? && "model_id" in row ==>
                            var m := NewModel(Null, row["model_id"]);
                            && (m.Failure? ==> r == Failure(m.error))
                            && (m.Success? && m.value.name != Str(Bm25Name) ==>
                                  r == Failure(NotImplementedError("Model not supported")))
                            && (m.Success? && m.value.name == Str(Bm25Name) ==>
                                  r == Success(IndexObj(ds.value, ModelObj(m.value.name,
                                         Some(Bm25Config(ds.value.name, LexicalServerHostName, false, ShardCount))))))))
      ensures (indexId.None? || indexId.value == 0) ==>
                r == if dataset.Some? && model.Some? then Success(IndexObj(dataset.value, model.value))
                     else Failure(ValueError("Either index_id or both dataset and model must be provided"))
    {
      if indexId.Some? && indexId.value != 0 then
        var row :- GetIndexById(indexId.value);
        assert row in tables["indexes"];
        var datasetId :- Column(row, "dataset_id");
        var ds :- NewDataset(datasetId, Null, onDisk);
        var modelId :- Column(row, "model_id");
        var m :- NewModel(Null, modelId);
        var loaded :- LoadModel(m, ds.name, false);
        Success(IndexObj(ds, loaded))
      else if dataset.Some? && model.Some? then Success(IndexObj(dataset.value, model.value))
      else Failure(ValueError("Either index_id or both dataset and model must be provided"))
    }

    /** `Dataset.download`: fetch and unzip from the dataset's URL (the resulting
        path is `downloadedPath`), then record the path and type on the dataset's
        row, found by its name. A dataset read by id has no URL attribute, so
        downloading it raises AttributeError before anything is fetched. */
    method Download(ds: DatasetObj, downloadedPath: string) returns (after: DatasetObj, r: Result<int, PyError>)
      requires Valid()
      modifies this
      ensures Valid()
      ensures ds.url.None? ==> after == ds && r == Failure(AttributeError("url"))
      ensures ds.url.Some? ==> after == ds.(dataPath := Str(downloadedPath)) && r == old(GetDatasetId(ds.name))
      ensures r.Failure? ==> tables == old(tables)
      ensures r.Success? ==>
                tables == old(tables)["datasets" := Patched(old(tables)["datasets"], r.value,
                                                            map["path" := Str(downloadedPath), "type" := ds.datasetType])]
    {
      if ds.url.None? {
        return ds, Failure(AttributeError("url"));
      }
      after := ds.(dataPath := Str(downloadedPath));
      r := GetDatasetId(ds.name);
      if r.Success? {
        UpdateDataset(r.value, after.dataPath, after.datasetType);
      }
    }

    /** `Index.build`: only BM25 builds, and only once its engine is loaded; the new
        index row refers to the dataset and model found by name. */
    method Build(index: IndexObj, createdAt: string, assignedId: int) returns (r: Result<string, PyError>)
      requires Valid()
      modifies this
      ensures Valid()
      ensures index.model.name != Str(Bm25Name) ==> r == Failure(NotImplementedError("Model not supported"))
      ensures index.model.name == Str(Bm25Name) && index.model.engine.None? ==> r == Failure(AttributeError("index"))
      ensures r.Success? <==>
                && index.model.name == Str(Bm25Name) && index.model.engine.Some?
                && old(GetDatasetId(index.dataset.name)).Success?
                && old(GetModelId(Bm25Name)).Success?
      ensures index.model.name == Str(Bm25Name) && index.model.engine.Some? &&
              old(GetDatasetId(index.dataset.name)).Failure? ==>
                r == Failure(old(GetDatasetId(index.dataset.name)).error)
      ensures index.model.name == Str(Bm25Name) && index.model.engine.Some? &&
              old(GetDatasetId(index.dataset.name)).Success? && old(GetModelId(Bm25Name)).Failure? ==>
                r == Failure(old(GetModelId(Bm25Name)).error)
      ensures r.Failure? ==> tables == old(tables)
      ensures r.Success? ==>
                && r.value == IndexName(Bm25Name, index.dataset.name)
                && tables == old(tables)["indexes" := old(tables)["indexes"] +
                                 [IndexRow(assignedId, old(GetDatasetId(index.dataset.name)).value,
                                           old(GetModelId(Bm25Name)).value, createdAt, r.value)]]
    {
      if index.model.name != Str(Bm25Name) {
        return Failure(NotImplementedError("Model not supported"));
      }
      if index.model.engine.None? {
        return Failure(AttributeError("index"));
      }
      var datasetId := GetDatasetId(index.dataset.name);
      if datasetId.Failure? {
        return Failure(datasetId.error);
      }
      var modelId := GetModelId(Bm25Name);
      if modelId.Failure? {
        return Failure(modelId.error);
      }
      var name := IndexName(Bm25Name, index.dataset.name);
      SetIndex(datasetId.value, modelId.value, name, createdAt, assignedId);
      r := Success(name);
    }

    /** A dataset read back by id can be found again by its (lower-cased) name. */
    lemma DatasetFoundByOwnName(id: int, isCustom: Json, onDisk: string -> bool)
      requires Valid()
      requires NewDataset(Num(id), isCustom, onDisk).Success?
      ensures GetDatasetId(NewDataset(Num(id), isCustom, onDisk).value.name).Success?
    {
      var row := GetDatasetById(id).value;
      var name := NewDataset(Num(id), isCustom, onDisk).value.name;
      LowerIdempotent(row["name"].s);
      assert Matches(row, NameILike(name));
      var k :| 0 <= k < |tables["datasets"]| && tables["datasets"][k] == row;
      assert !Matches(tables["datasets"][k], NameILike(name)) == false;
    }
  }

  /** `row[key]`, raising KeyError when the column is missing. */
  function Column(row: Row, key: string): (r: Result<Json, PyError>)
    ensures r == if key in row then Success(row[key]) else Failure(KeyError(key))
  {
    if key in row then Success(row[key]) else Failure(KeyError(key))
  }

  /** A Dataset object: its name, its BEIR download URL (set only when built from a
      name), its type ("beir" or "custom") and the path its files were unzipped to. */
  datatype DatasetObj = DatasetObj(name: string, url: Option<string>, datasetType: Json, dataPath: Json)

  /** The BM25 search engine a loaded model holds. */
  datatype Bm25Config = Bm25Config(indexName: string, hostname: string, initialize: bool, shards: nat)

  /** A Model object: its name and, once loaded, its engine. */
  datatype ModelObj = ModelObj(name: Json, engine: Option<Bm25Config>)

  datatype IndexObj = IndexObj(dataset: DatasetObj, model: ModelObj)

  /** `Model.load(name, initialize)`: only BM25 is supported. */
  function LoadModel(m: ModelObj, indexName: string, initialize: bool): (r: Result<ModelObj, PyError>)
    ensures r.Success? <==> m.name == Str(Bm25Name)
    ensures r.Success? ==> r.value == ModelObj(m.name, Some(Bm25Config(indexName, LexicalServerHostName, initialize, ShardCount)))
    ensures r.Failure? ==> r.error == NotImplementedError("Model not supported")
  {
    if m.name == Str(Bm25Name) then
      Success(m.(engine := Some(Bm25Config(indexName, LexicalServerHostName, initialize, ShardCount))))
    else Failure(NotImplementedError("Model not supported"))
  }

  /** The check `Index.evaluate` makes before handing the model's engine to BEIR's
      retrieval: only the name is checked, so an engine that was never loaded is
      handed on as it is. */
  function EvaluateCheck(index: IndexObj): (r: Result<Option<Bm25Config>, PyError>)
    ensures r.Success? <==> index.model.name == Str(Bm25Name)
    ensures r.Success? ==> r.value == index.model.engine
    ensures r.Failure? ==> r.error == NotImplementedError("Model not supported")
  {
    if index.model.name != Str(Bm25Name) then Failure(NotImplementedError("Model not supported"))
    else Success(index.model.engine)
  }
}
