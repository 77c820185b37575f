/** The Datasets page: lists the datasets split into custom and BEIR ones, lets the
    user import a custom dataset (three file uploads and one metadata record), and
    installs a dataset through the retriever route while its button shows
    "Installing...". */
module DatasetsPage {

  import opened Wrappers
  import opened Text
  import opened Values
  import opened Http

  /** A dataset as the page lists it. `path` is absent until it is installed. */
  datatype Dataset = Dataset(id: int, name: string, datasetType: string, queriesSize: int,
                             corpusSize: int, path: Option<string>)

  /** A dataset counts as installed when its path is a non-empty string. */
  predicate Installed(d: Dataset) {
    d.path.Some? && |d.path.value| > 0
  }

  predicate IsCustom(d: Dataset) {
    d.datasetType == "custom"
  }

  predicate IsNotCustom(d: Dataset) {
    d.datasetType != "custom"
  }

  /** The tags renderTags shows: the type split at ", ". */
  function Tags(datasetType: string): (tags: seq<string>)
    ensures |tags| >= 1
  {
    Split(datasetType, ", ")
  }

  /** The tags read back with ", " give the type again: no part of it is dropped. */
  lemma TagsCoverType(datasetType: string)
    ensures Join(Tags(datasetType), ", ") == datasetType
  {
    JoinSplit(datasetType, ", ");
  }

  /** `content.split('\n').length`: the line count stored as a size. */
  function LineCount(content: string): (n: nat)
    ensures n >= 1
  {
    |Split(content, "\n")|
  }

  /** The line count is one more than the number of newlines, so a file that ends
      with a newline counts an empty last line. */
  lemma LineCountIsNewlinesPlusOne(content: string)
    ensures LineCount(content) == Count(content, '\n') + 1
    ensures LineCount(content + "\n") == LineCount(content) + 1
  {
    SplitCount(content, '\n');
    SplitCount(content + "\n", '\n');
    CountAppendNewline(content);
  }

  lemma {:induction false} CountAppendNewline(s: string)
    ensures Count(s + "\n", '\n') == Count(s, '\n') + 1
    decreases |s|
  {
    if |s| > 0 {
      assert (s + "\n")[1..] == s[1..] + "\n";
      CountAppendNewline(s[1..]);
    }
  }

  // ---------------------------------------------------------------------------
  // importing a custom dataset

  /** An uploaded file: its file name and its text. */
  datatype FileInput = FileInput(name: string, content: string)

  /** The import form. */
  datatype Form = Form(datasetName: string, description: string, corpus: Option<FileInput>,
                       queries: Option<FileInput>, qrels: Option<FileInput>)

  /** One POST to /api/saveFile. */
  datatype SaveFile = SaveFile(path: string, content: string)

  /** What a submit does: it is turned down with an alert, or the corpus upload is
      sent and fails (nothing else is sent), or the corpus is saved and the queries
      and qrels uploads and the metadata record follow. `alert` is the message the
      submit ends with; `reload` says whether the page reloads afterwards. */
  datatype Submission =
    | Rejected(alert: string)
    | CorpusNotSaved(corpusSave: SaveFile, alert: string)
    | Submitted(corpusSave: SaveFile, queriesSave: Option<SaveFile>, qrelsSave: Option<SaveFile>,
                record: Record, alert: string, reload: bool)

  /** The folder an import goes to, relative to the datasets root. */
  function DatasetPath(datasetName: string): string {
    "custom/" + Lower(datasetName)
  }

  /** The metadata record posted for an import. The name keeps the case the user
      typed; the path uses the lower-cased folder. */
  function DatasetRecord(form: Form, createdAt: string, queriesSize: int, corpusSize: int): Record {
    map["name" := Str(form.datasetName), "description" := Str(form.description),
        "created_at" := Str(createdAt), "type" := Str("custom"),
        "path" := Str("/app/datasets/" + DatasetPath(form.datasetName)),
        "queries_size" := Num(queriesSize), "corpus_size" := Num(corpusSize)]
  }

  /** The request that creates the record through /api/metadata. */
  function RecordRequest(record: Record): Request {
    Request("POST", map[], map["entityName" := Str("datasets"), "data" := Obj(record)])
  }

  function UploadOf(file: Option<FileInput>, path: string): Option<SaveFile> {
    match file
    case None => None
    case Some(f) => Some(SaveFile(path, f.content))
  }

  function Submit(form: Form, createdAt: string, corpusSaved: bool, recordSaved: bool, queriesSize: int): Submission
    requires form.corpus.Some?
  {
    var folder := DatasetPath(form.datasetName);
    var corpusSave := SaveFile(folder + "/corpus.jsonl", form.corpus.value.content);
    if !corpusSaved then CorpusNotSaved(corpusSave, "Error saving corpus file. Please try again later.")
    else
      Submitted(corpusSave,
                UploadOf(form.queries, folder + "/queries.jsonl"),
                UploadOf(form.qrels, folder + "/qrels/test.tsv"),
                DatasetRecord(form, createdAt, queriesSize, LineCount(form.corpus.value.content)),
                if recordSaved then "Dataset created successfully!"
                else "Error creating dataset metadata. Please try again later.",
                recordSaved)
  }

  /** handleSubmit as written. `corpusSaved` and `recordSaved` say whether the
      corpus upload and the metadata POST succeeded. The queries line count is
      taken by the queries reader's callback, which cannot run before the record is
      built, so the record always carries the initial 0. */
  function HandleSubmit(form: Form, createdAt: string, corpusSaved: bool, recordSaved: bool): (s: Submission)
    ensures form.corpus.None? ==> s == Rejected("Please upload corpus file.")
    ensures form.corpus.Some? && !EndsWith(form.corpus.value.name, ".jsonl") ==>
              s == Rejected("Files must be in JSONL format.")
    ensures s.Rejected? <==> form.corpus.None? || !EndsWith(form.corpus.value.name, ".jsonl")
    ensures s.CorpusNotSaved? <==> !s.Rejected? && !corpusSaved
    ensures s.CorpusNotSaved? ==> s.alert == "Error saving corpus file. Please try again later."
    ensures !s.Rejected? ==>
              s.corpusSave == SaveFile(DatasetPath(form.datasetName) + "/corpus.jsonl", form.corpus.value.content)
    ensures s.Submitted? ==>
              && s.queriesSave.Some? == form.queries.Some?
              && s.qrelsSave.Some? == form.qrels.Some?
              && (s.queriesSave.Some? ==>
                    s.queriesSave.value == SaveFile(DatasetPath(form.datasetName) + "/queries.jsonl",
                                                    form.queries.value.content))
              && (s.qrelsSave.Some? ==>
                    s.qrelsSave.value == SaveFile(DatasetPath(form.datasetName) + "/qrels/test.tsv",
                                                  form.qrels.value.content))
              && s.record == DatasetRecord(form, createdAt, 0, Count(form.corpus.value.content, '\n') + 1)
              && s.alert == (if recordSaved then "Dataset created successfully!"
                             else "Error creating dataset metadata. Please try again later.")
              && s.reload == recordSaved
  {
    if form.corpus.None? then Rejected("Please upload corpus file.")
    else if !EndsWith(form.corpus.value.name, ".jsonl") then Rejected("Files must be in JSONL format.")
    else
      LineCountIsNewlinesPlusOne(form.corpus.value.content);
      Submit(form, createdAt, corpusSaved, recordSaved, 0)
  }

  /** The as-written record never reflects an uploaded queries file: its
      queries_size is 0 while the file has at least one line. */
  lemma QueriesSizeIgnored(form: Form, createdAt: string, recordSaved: bool)
    requires form.queries.Some?
    requires HandleSubmit(form, createdAt, true, recordSaved).Submitted?
    ensures HandleSubmit(form, createdAt, true, recordSaved).record["queries_size"] !=
            Num(LineCount(form.queries.value.content))
  {
  }

  /** The number of queries lines the record should carry: the line count of the
      queries file, or 0 without one. */
  function QueriesRows(form: Form): (n: nat)
    ensures form.queries.Some? ==> n == Count(form.queries.value.content, '\n') + 1
    ensures form.queries.None? ==> n == 0
  {
    if form.queries.Some? then
      LineCountIsNewlinesPlusOne(form.queries.value.content);
      LineCount(form.queries.value.content)
    else 0
  }

  /** handleSubmit with the queries file counted before the record is built. It
      sends the same uploads and differs from the as-written result in the record's
      queries_size only. */
  function HandleSubmitCorrected(form: Form, createdAt: string, corpusSaved: bool, recordSaved: bool): (s: Submission)
    ensures !s.Submitted? ==> s == HandleSubmit(form, createdAt, corpusSaved, recordSaved)
    ensures s.Submitted? <==> HandleSubmit(form, createdAt, corpusSaved, recordSaved).Submitted?
    ensures s.Submitted? ==>
              s == HandleSubmit(form, createdAt, corpusSaved, recordSaved).(record :=
                     DatasetRecord(form, createdAt, QueriesRows(form), Count(form.corpus.value.content, '\n') + 1))
  {
    if form.corpus.None? || !EndsWith(form.corpus.value.name, ".jsonl") then
      HandleSubmit(form, createdAt, corpusSaved, recordSaved)
    else
      LineCountIsNewlinesPlusOne(form.corpus.value.content);
      Submit(form, createdAt, corpusSaved, recordSaved, QueriesRows(form))
  }

  /** Names that differ only in letter case import into the same folder. */
  lemma CaseInsensitiveFolder(a: string, b: string)
    requires Lower(a) == Lower(b)
    ensures DatasetPath(a) == DatasetPath(b)
  {
  }

  // ---------------------------------------------------------------------------
  // the page's state

  /** The query string downloadDataset sends to /api/retriever. */
  function DownloadQuery(datasetId: int, datasetName: string): Record {
    map["datasetName" := Str(datasetName), "datasetId" := Str(IntText(datasetId))]
  }

  function DownloadUrl(datasetId: int, datasetName: string): string {
    "/api/retriever?datasetName=" + datasetName + "&datasetId=" + IntText(datasetId)
  }

  class Page {
    /** The datasets fetched on load. */
    var datasets: seq<Dataset>
    /** The dataset being installed, if any. */
    var loadingDatasetId: Option<int>

    constructor()
      ensures datasets == [] && loadingDatasetId.None?
    {
      datasets := [];
      loadingDatasetId := None;
    }

    /** The fetch on load stores the list it receives. */
    method Loaded(data: seq<Dataset>)
      modifies this
      ensures datasets == data && loadingDatasetId == old(loadingDatasetId)
    {
      datasets := data;
    }

    /** The "Custom Datasets" section. */
    function CustomDatasets(): (r: seq<Dataset>)
      reads this
      ensures forall d :: d in r <==> d in datasets && IsCustom(d)
    {
      Filter(datasets, IsCustom)
    }

    /** The "BEIR Datasets" section: every dataset whose type is not "custom". */
    function BeirDatasets(): (r: seq<Dataset>)
      reads this
      ensures forall d :: d in r <==> d in datasets && !IsCustom(d)
    {
      Filter(datasets, IsNotCustom)
    }

    /** The two sections together show every dataset exactly once. */
    lemma SectionsPartition()
      ensures multiset(CustomDatasets()) + multiset(BeirDatasets()) == multiset(datasets)
    {
      FilterPartition(datasets, IsCustom, IsNotCustom);
    }

    /** An install button is disabled while its dataset is being installed. */
    predicate Disabled(d: Dataset)
      reads this
    {
      loadingDatasetId == Some(d.id)
    }

    /** The label of a dataset's button. */
    function ButtonLabel(d: Dataset): (caption: string)
      reads this
      ensures Installed(d) ==> caption == "More Info"
      ensures !Installed(d) ==> (caption == "Installing..." <==> Disabled(d))
    {
      if Installed(d) then "More Info" else if Disabled(d) then "Installing..." else "Install"
    }

    /** downloadDataset up to its request: the dataset is marked as loading and the
        install request is sent. */
    method BeginDownload(datasetId: int, datasetName: string) returns (url: string, query: Record)
      modifies this
      ensures loadingDatasetId == Some(datasetId) && datasets == old(datasets)
      ensures url == DownloadUrl(datasetId, datasetName) && query == DownloadQuery(datasetId, datasetName)
      ensures forall d :: Disabled(d) <==> d.id == datasetId
    {
      loadingDatasetId := Some(datasetId);
      url := DownloadUrl(datasetId, datasetName);
      query := DownloadQuery(datasetId, datasetName);
    }

    /** downloadDataset after its request: `succeeded` is false when the fetch threw,
        the response was not ok or its JSON did not parse. Either way the loading
        mark is cleared; a success reloads the page. */
    method FinishDownload(succeeded: bool) returns (alert: string, reload: bool)
      modifies this
      ensures loadingDatasetId.None? && datasets == old(datasets)
      ensures forall d :: !Disabled(d)
      ensures reload == succeeded
      ensures alert == if succeeded then "Download completed successfully!"
                       else "Error downloading dataset. Please try again later."
    {
      if succeeded {
        alert, reload := "Download completed successfully!", true;
      } else {
        alert, reload := "Error downloading dataset. Please try again later.", false;
      }
      loadingDatasetId := None;
    }
  }
}
