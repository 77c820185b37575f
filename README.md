# toolgle in Dafny

toolgle is a small information-retrieval workbench:

- A Next.js front end lists BEIR datasets and imports custom ones, builds BM25 indexes of (dataset, model) pairs, evaluates them, and searches them.
- Its API routes forward to three back ends:
  - the PostgREST metadata store;
  - the Python retriever service, which downloads datasets, builds indexes and evaluates them with BEIR;
  - Elasticsearch.

This project models the decision logic of that system and proves properties of it:

- **API routes.** Each Next.js route is a function from a request and the upstream outcome to the one upstream call it makes and the response it writes.
- **Retriever client.** The PostgREST client's response classification is a function.
- **BEIR layer.** The metadata store is a class over a table map. Lookups are functions that read it; `update_dataset`, `set_index`, `download` and `build` are methods that change it. The `Dataset`, `Model` and `Index` objects are values built by the constructors' case analysis, with Python truthiness.
- **Pages.** Each page is a class whose fields are its React state. Each async handler is split at its `await` into a Begin method and a Finish/Complete method. The Finish/Complete method takes the outcome as a parameter.
- **JavaScript and Python built-ins.** These are modelled explicitly:
  - template-literal rendering, including `undefined` and `NaN`;
  - `parseInt` with radix 10 and with no radix (which accepts hexadecimal);
  - ASCII `toLowerCase` and `trim`;
  - `split` and `join`;
  - `filter` and `find`.
- **Cross-file lemmas** (module `Flows`) follow a click from a page through a route to the upstream call. One of them proves the round trip at the core of search: the name `build` gives an index, lower-cased by the selector, resolves back to the dataset's Elasticsearch index.

Modules, one per source file plus shared ones:

- **Shared:**
  - `Wrappers`: Option and Result.
  - `Text`: string and number built-ins.
  - `Values`: JSON values, truthiness, filter and find.
  - `Http`: requests, responses and upstream calls.
  - `Ticker`: the dots animation.
  - `Flows`: the cross-file lemmas.
- **Routes:** `MetadataApi`, `RetrieverApi`, `EvaluateApi`, `ElasticApi`.
- **Retriever:** `PostgRESTClient`, `BEIRUtils`.
- **Pages:** `DatasetsPage`, `SearchPage`, `IndexesPage`, `EvaluatePage`.

## Model

| member | source | states |
|---|---|---|
| Text.ParseInt | frontend/pages/api/retriever.ts:31 | `parseInt(s, 10)` is NaN exactly when no decimal digit follows the leading white space and the sign |
| Text.ParseIntText | frontend/pages/api/retriever.ts:31-35 | the decimal text of any integer parses back to that integer, with radix 10 and with no radix |
| Text.ParseIntNoDigits | frontend/pages/api/retriever.ts:35 | a value rendered as "undefined" (a missing body field) parses to NaN |
| Text.TrimPadded | frontend/pages/index.tsx:82 | `trim` removes exactly the white space around a trimmed non-empty string |
| Text.SplitAt | frontend/pages/index.tsx:82 | the first piece of a split on a character is everything before its first occurrence |
| Text.SplitWithout | frontend/pages/index.tsx:82 | a string without the separator splits into itself alone |
| Text.JoinSplit | frontend/pages/datasets.tsx:244 | joining the pieces of a split with the same separator restores the string |
| Text.SplitCount | frontend/pages/datasets.tsx:86 | a split on one character gives one piece more than the character's occurrences |
| Text.LowerIdempotent | retriever/BEIRUtils.py:115 | lower-casing an already lower-cased name changes nothing |
| Text.LowerKeepsNonLetters | frontend/pages/index.tsx:180 | lower-casing neither adds nor removes a non-letter such as '+' |
| Values.Interp | frontend/pages/api/retriever.ts:9 | a template literal renders a missing value as "undefined", a string as itself and an integer as its decimal text |
| Values.Filter | frontend/pages/datasets.tsx:270-271 | `filter` keeps exactly the elements that satisfy the predicate and never grows the list |
| Values.Find | frontend/pages/indexes.tsx:79 | `find` is undefined iff nothing matches; otherwise it is the first matching element |
| Values.FilterHeadIsFind | retriever/BEIRUtils.py:44-46 | the first row of a filtered result exists iff some row matches, and it is the first match |
| Values.FilterPartition | frontend/pages/datasets.tsx:270-300 | filtering by a predicate and by its negation splits a list into two parts that together hold every element exactly as often |
| Http.Forward | frontend/pages/api/metadata.ts:70-74 | a served request makes its call and answers 200 with the upstream payload unchanged, or 500 with the error body when the call threw |
| MetadataApi.Handle | frontend/pages/api/metadata.ts:42-74 | GET fetches the collection named in the query. POST creates, PATCH updates and DELETE deletes, using the body's entityName, data and id, addressing the row with `?id=eq.`. Any other method gets 405 with Allow GET, POST, PATCH, DELETE and makes no call. A call made answers 200 with its payload or 500 |
| MetadataApi.EntityNameNotValidated | frontend/pages/api/metadata.ts:13-21 | whatever string arrives as entityName becomes the path segment of the call |
| MetadataApi.UpdateAndDeleteShareRowUrl | frontend/pages/api/metadata.ts:23-31 | PATCH and DELETE address the same row URL, and only PATCH sends a body |
| RetrieverApi.Handle | frontend/pages/api/retriever.ts:26-49 | GET asks the retriever to install the dataset. POST asks it to build an index, with a GET call. Ids go through `parseInt` and render as NaN when parsing fails. Other methods get 405 with Allow GET only. A call made answers 200 or 500 |
| RetrieverApi.AllowOmitsPost | frontend/pages/api/retriever.ts:40-43 | the 405 answer advertises GET only, yet POST to the same route is served |
| RetrieverApi.HandleCorrected | frontend/pages/api/retriever.ts:40-43 | served methods are handled as before; 405 happens iff the method is not served, and its Allow header is GET and POST |
| RetrieverApi.CorrectedAllowIsExact | frontend/pages/api/retriever.ts:28-43 | with the corrected header, a method is listed in Allow iff the route serves it (section 15.5.6 of RFC 9110) |
| EvaluateApi.Handle | frontend/pages/api/evaluate.ts:19-31 | POST asks the retriever to evaluate the parsed index id, with a GET call, and answers 200 with the payload or 500. Other methods get 405 with Allow POST and make no call |
| EvaluateApi.AllowIsExact | frontend/pages/api/evaluate.ts:20-26 | a method is listed in the 405's Allow header iff the route serves it |
| ElasticApi.MapHits | frontend/pages/api/elastic.ts:7-15 | one document per hit, in order. id is `_id`, title is `_source.title`, content is `_source.txt`, score is the score's text and dataset is `_index` |
| ElasticApi.MapHitsAppend | frontend/pages/api/elastic.ts:8 | the mapping distributes over concatenation |
| ElasticApi.ContentComesFromTxt | frontend/pages/api/elastic.ts:11 | content comes from `txt` and is undefined without it, whatever other fields exist |
| ElasticApi.Handle | frontend/pages/api/elastic.ts:17-55 | the search targets the body's index with a fuzzy (AUTO) multi_match over txt and title and at most 10 hits; the answer is 200 with the mapped hits or 500 |
| ElasticApi.MethodIgnored | frontend/pages/api/elastic.ts:42-55 | the route never looks at the method: equal bodies are handled alike and nothing is answered with 405 |
| ElasticApi.WorkedExample | frontend/pages/api/elastic.ts:7-15 | a hit with title "A" and txt "B" in index scifact maps to the document with those fields |
| PostgRESTClient.RequestUrl | retriever/PostgRESTClient.py:7-11 | the request URL starts with the base URL and a slash, and the endpoint is read back from everything after them |
| PostgRESTClient.Classify | retriever/PostgRESTClient.py:14-20 | a status outside 200, 201 and 204 raises with that status and text. An empty body or a 204 gives the fixed "executed" notice. A 200 or 201 with a body gives the parsed body |
| PostgRESTClient.SuccessShapes | retriever/PostgRESTClient.py:17-20 | a success is the fixed notice or a parsed 200/201 body; a 204 body is never parsed |
| BEIRUtils.Endpoint | retriever/BEIRUtils.py:42 | lookups go to `<table>?id=eq.<id>` or `<table>?name=ilike.<name>` |
| BEIRUtils.FilterTextInjective | retriever/BEIRUtils.py:42 | different filters send different query strings: an id is read back from its decimal text, and id and name filters never collide |
| BEIRUtils.LookupRequestIdentifiesQuery | retriever/BEIRUtils.py:39-43 | two lookups on tables whose names hold no '?' (datasets, models and indexes) send the same GET request through the client iff they ask for the same table and filter, so the URL sent determines the rows the store answers with |
| BEIRUtils.MetadataStore.Select | retriever/BEIRUtils.py:40-43 | a GET returns exactly the rows of the table that pass the filter |
| BEIRUtils.MetadataStore.First | retriever/BEIRUtils.py:44-46 | the first matching row, or ValueError with the given message iff no row matches |
| BEIRUtils.MetadataStore.GetDatasetById | retriever/BEIRUtils.py:39-46 | a datasets row with that id, or ValueError "Dataset with id '<id>' does not exist." iff there is none |
| BEIRUtils.MetadataStore.GetModelById | retriever/BEIRUtils.py:48-55 | a models row with that id, or ValueError iff there is none |
| BEIRUtils.MetadataStore.GetIndexById | retriever/BEIRUtils.py:57-64 | an indexes row with that id, or ValueError iff there is none |
| BEIRUtils.MetadataStore.GetDatasetId | retriever/BEIRUtils.py:78-85 | the id of a datasets row whose name matches case-insensitively, or ValueError iff there is none |
| BEIRUtils.MetadataStore.GetModelId | retriever/BEIRUtils.py:87-94 | the id of a models row whose name matches case-insensitively, or ValueError iff there is none |
| BEIRUtils.MetadataStore.UpdateDataset | retriever/BEIRUtils.py:32-37 | the rows with that id get exactly path and type replaced; no other table or row changes |
| BEIRUtils.MetadataStore.SetIndex | retriever/BEIRUtils.py:66-76 | one row with the dataset id, model id, timestamp and name is appended to indexes; nothing else changes |
| BEIRUtils.MetadataStore.NewDataset | retriever/BEIRUtils.py:97-134 | a string names a BEIR dataset: URL `<base>/<name>.zip`, type custom iff the flag is truthy. An integer reads the row and succeeds iff the row has a string name, a type and a string path whose files exist, giving the lower-cased name, type and path. A failed lookup passes on its ValueError. A missing column raises KeyError. A non-string name raises AttributeError. A non-string path raises TypeError. Missing files raise FileNotFoundError "<path> not found". Anything else raises ValueError |
| BEIRUtils.MetadataStore.NewModel | retriever/BEIRUtils.py:149-158 | a truthy name wins; otherwise a truthy id reads the stored name; otherwise ValueError |
| BEIRUtils.MetadataStore.NewIndex | retriever/BEIRUtils.py:180-192 | a truthy index id reads the row. Its dataset is the dataset built from the row's dataset_id, and its model is the model read by the row's model_id, loaded as BM25 under the dataset's name without re-initialising. The lookup's ValueError, KeyError for a missing column, the dataset's and model's own errors, and NotImplementedError for a model other than BM25 are raised as they are. Without an id, both objects are required, else ValueError |
| BEIRUtils.LoadModel | retriever/BEIRUtils.py:162-173 | loads succeed iff the model is BM25, giving an engine on host elasticsearch with 4 shards; otherwise NotImplementedError |
| BEIRUtils.MetadataStore.Download | retriever/BEIRUtils.py:107-130 | a dataset read by id has no URL, so downloading it raises AttributeError and changes nothing. Otherwise the dataset's path becomes the download path. The row found by the dataset's name gets that path and type. A failed name lookup leaves the store unchanged |
| BEIRUtils.MetadataStore.Build | retriever/BEIRUtils.py:194-207 | only a loaded BM25 model builds. A model not named BM25 raises NotImplementedError and an unloaded engine AttributeError. Then a dataset name or the BM25 model name that no row matches raises the lookup's ValueError ("Dataset with name '<n>' does not exist." or the model's). Success appends one index row named "BM25 + <dataset>" that refers to the dataset and model found by name. A failure leaves the store unchanged |
| BEIRUtils.EvaluateCheck | retriever/BEIRUtils.py:209-225 | evaluation proceeds iff the model is named BM25, handing on its engine as it stands; another model raises NotImplementedError |
| BEIRUtils.MetadataStore.DatasetFoundByOwnName | retriever/BEIRUtils.py:113-145 | a dataset read back by id can always be found again by its lower-cased name |
| DatasetsPage.HandleSubmit | frontend/pages/datasets.tsx:53-203 | a missing or non-.jsonl corpus is refused with its alert and nothing is sent. Uploads go under `custom/<lower-cased name>`. A failed corpus upload stops everything. A failed corpus upload alerts "Error saving corpus file. Please try again later.". The queries and qrels files are uploaded with their own text to `queries.jsonl` and `qrels/test.tsv`. The record keeps the typed name, has type custom, path `/app/datasets/custom/<lower>`, corpus size = newlines + 1, and queries size 0. The submit ends with "Dataset created successfully!" and a reload exactly when the record POST succeeds, and otherwise with "Error creating dataset metadata. Please try again later." and no reload |
| DatasetsPage.QueriesSizeIgnored | frontend/pages/datasets.tsx:108-180 | the as-written record's queries_size differs from the line count of any uploaded queries file |
| DatasetsPage.QueriesRows | frontend/pages/datasets.tsx:113 | the queries line count is its newlines + 1, or 0 without a queries file |
| DatasetsPage.HandleSubmitCorrected | frontend/pages/datasets.tsx:108-182 | the same uploads and alerts as written, and a record that differs only in carrying the queries line count |
| DatasetsPage.LineCount | frontend/pages/datasets.tsx:86 | a line count is at least 1, even for empty content |
| DatasetsPage.LineCountIsNewlinesPlusOne | frontend/pages/datasets.tsx:86 | the line count is the number of newlines + 1, so a trailing newline counts one more line |
| DatasetsPage.TagsCoverType | frontend/pages/datasets.tsx:243-249 | the tags joined with ", " give back the type |
| DatasetsPage.CaseInsensitiveFolder | frontend/pages/datasets.tsx:56-75 | names that differ only in letter case import into the same folder |
| DatasetsPage.Page.constructor | frontend/pages/datasets.tsx:16-17 | the page starts with no datasets and none installing |
| DatasetsPage.Page.Loaded | frontend/pages/datasets.tsx:19-36 | the fetched datasets are stored, and the installing mark is unchanged |
| DatasetsPage.Page.CustomDatasets | frontend/pages/datasets.tsx:270-271 | the custom section holds exactly the datasets of type custom |
| DatasetsPage.Page.BeirDatasets | frontend/pages/datasets.tsx:299-300 | the BEIR section holds exactly the other datasets |
| DatasetsPage.Page.SectionsPartition | frontend/pages/datasets.tsx:270-300 | the two sections together show every dataset exactly once |
| DatasetsPage.Page.ButtonLabel | frontend/pages/datasets.tsx:280-291 | an installed dataset shows More Info; otherwise the label is Installing... iff its button is disabled |
| DatasetsPage.Page.BeginDownload | frontend/pages/datasets.tsx:205-219 | the dataset becomes the loading one, so exactly the buttons with its id are disabled, and the install URL and query are sent |
| DatasetsPage.Page.FinishDownload | frontend/pages/datasets.tsx:221-240 | the loading mark clears on success and on failure, enabling every button; success alerts and reloads, failure alerts its error |
| SearchPage.Options | frontend/pages/index.tsx:178-182 | one option per index row with a non-empty name, in row order, valued by the lower-cased name and showing the name |
| SearchPage.OptionsMembers | frontend/pages/index.tsx:178-182 | an entry is offered iff some row with a non-empty name gives it |
| SearchPage.IndexName | frontend/pages/index.tsx:82 | a selector value without '+' is used unchanged |
| SearchPage.IndexNamePiece | frontend/pages/index.tsx:82 | a value with '+' resolves to the piece between its first '+' and the next '+' or the end, trimmed and lower-cased |
| SearchPage.IndexNameRoundTrip | frontend/pages/index.tsx:82 | the lower-cased "<model> + <dataset>" resolves to the lower-cased dataset name when neither part has a '+' and the dataset name is trimmed and non-empty |
| SearchPage.Preview | frontend/pages/index.tsx:218 | content up to 200 characters is shown whole; longer content shows its first 200 characters followed by "..." |
| SearchPage.PreviewIsPrefix | frontend/pages/index.tsx:28 | a preview is never longer than 203 characters and always starts the content |
| SearchPage.Page.constructor | frontend/pages/index.tsx:32-39 | the page starts idle with an empty query and no results, and scifact selected |
| SearchPage.Page.IndexesLoaded | frontend/pages/index.tsx:40-57 | the fetched index rows replace the list, and nothing else changes |
| SearchPage.Page.OpenModal | frontend/pages/index.tsx:62-65 | the clicked document becomes the selected one and the modal opens, and nothing else changes |
| SearchPage.Page.CloseModal | frontend/pages/index.tsx:67-69 | the modal closes, keeping the selected document, and nothing else changes |
| SearchPage.Page.BeginSearch | frontend/pages/index.tsx:71-93 | an empty query is refused with its alert and changes nothing; otherwise loading starts and the query and the resolved index name are posted |
| SearchPage.Page.CompleteSearch | frontend/pages/index.tsx:94-105 | a rejected fetch leaves the page loading. Otherwise loading stops and loadedOnce is set. The documents are stored on an ok response, undefined otherwise |
| IndexesPage.Installed | frontend/pages/indexes.tsx:49 | exactly the datasets whose path is not null are offered, including those with no path at all |
| IndexesPage.Dropped | frontend/pages/indexes.tsx:78-79 | a drop selects a row iff `parseInt` of the dragged text is a number some row has as id; the row has that id; otherwise the zone holds undefined |
| IndexesPage.DragAndDropSelects | frontend/pages/indexes.tsx:76-89 | dragging a card and dropping it selects that card's row when no earlier row shares its id |
| IndexesPage.BuildBody | frontend/pages/indexes.tsx:98-101 | the body carries datasetId and modelId from the two rows' ids, and omits an undefined one |
| IndexesPage.Caption | frontend/pages/indexes.tsx:166 | while building: "Building Index" and the dots. With both zones filled: "Build Index for <dataset> and <model>". Otherwise the first empty zone's null or undefined is spelled out |
| IndexesPage.CaptionShowsNull | frontend/pages/indexes.tsx:166 | before anything is dropped the caption reads "Build Index null" |
| IndexesPage.CaptionCorrected | frontend/pages/indexes.tsx:166 | the same caption while building or with both zones filled; "Build Index" alone otherwise |
| IndexesPage.Page.constructor | frontend/pages/indexes.tsx:7-13 | the page starts with empty lists, both zones null and no build running |
| IndexesPage.Page.Loaded | frontend/pages/indexes.tsx:24-74 | the three fetched lists are stored, the datasets narrowed to the installable ones; the zones and the build state are unchanged |
| IndexesPage.Page.DropDataset | frontend/pages/indexes.tsx:76-85 | the dataset zone gets the drop's result, and the model zone is unchanged |
| IndexesPage.Page.DropModel | frontend/pages/indexes.tsx:76-85 | the model zone gets the drop's result, and the dataset zone is unchanged |
| IndexesPage.Page.BeginBuild | frontend/pages/indexes.tsx:91-101 | without both zones filled, the alert shows, no request is made and the busy flag is unchanged; otherwise building starts and the ids are posted |
| IndexesPage.Page.FinishBuild | frontend/pages/indexes.tsx:102-113 | only status 200 succeeds (alert and reload); any other status or a thrown request alerts the error; building stops either way |
| IndexesPage.Page.Tick | frontend/pages/indexes.tsx:15-22 | while building, each tick advances the dots by the ticker rule |
| IndexesPage.Page.ButtonCaption | frontend/pages/indexes.tsx:166 | the caption as rendered: "Building Index" and the dots while building, "Build Index null 🏭" or "Build Index undefined 🏭" while the dataset zone is null or undefined, "Build Index null 🏭" or "Build Index undefined 🏭" for an empty model zone beside a filled dataset zone, and "Build Index for <dataset> and <model> 🏭" with both zones filled |
| Ticker.Next | frontend/pages/indexes.tsx:18 | fewer than three dots grow by one; three start over from none |
| Ticker.IterateCycles | frontend/pages/indexes.tsx:13-18 | from no dots the animation cycles "", ".", "..", "..." with period four and never shows more than three |
| Ticker.ReturnsToEmpty | frontend/pages/evaluate.tsx:39-46 | from any state the dots return to none within four ticks |
| EvaluatePage.EvaluateBody | frontend/pages/evaluate.tsx:55-57 | the body carries the selected index's id, and omits it when undefined |
| EvaluatePage.Page.constructor | frontend/pages/evaluate.tsx:14-18 | the page starts with no indexes, nothing selected, an empty result and no evaluation running |
| EvaluatePage.Page.Loaded | frontend/pages/evaluate.tsx:20-37 | the fetched index rows are stored, and nothing else changes |
| EvaluatePage.Page.Select | frontend/pages/evaluate.tsx:88 | clicking a card selects it and highlights it |
| EvaluatePage.Page.Highlighted | frontend/pages/evaluate.tsx:87 | with nothing selected, a card is highlighted iff it has no id. Otherwise it is highlighted iff it and the selection both lack an id or have equal ids |
| EvaluatePage.Page.NoSelectionHighlightsIdless | frontend/pages/evaluate.tsx:87 | with nothing selected, a card is highlighted iff it has no id |
| EvaluatePage.Page.SameIdSameHighlight | frontend/pages/evaluate.tsx:87 | cards with equal ids are highlighted together |
| EvaluatePage.Page.Tick | frontend/pages/evaluate.tsx:39-46 | while evaluating, each tick advances the dots by the ticker rule |
| EvaluatePage.Page.ButtonCaption | frontend/pages/evaluate.tsx:98 | "Evaluating" and the dots while evaluating, "Evaluate 🧪" otherwise |
| EvaluatePage.Page.ShowsResult | frontend/pages/evaluate.tsx:107-109 | the result replaces the blurred sample iff it is not the initial empty string, null, false or 0 |
| EvaluatePage.Page.BeginEvaluate | frontend/pages/evaluate.tsx:48-57 | with nothing selected, the alert shows and nothing else changes; otherwise evaluation starts and the id is posted |
| EvaluatePage.Page.FinishEvaluate | frontend/pages/evaluate.tsx:58-68 | only a 200 replaces the result with its data. Anything else alerts and keeps the previous result. Evaluation stops either way |
| Flows.InstallReachesRetriever | frontend/pages/datasets.tsx:214 | an Install click asks the retriever to install that dataset name under that id |
| Flows.BuildReachesRetriever | frontend/pages/indexes.tsx:98-101 | building two rows with integer ids asks the retriever to build exactly that pair |
| Flows.BuildWithoutDatasetIdSendsNaN | frontend/pages/indexes.tsx:99 | a dataset row without an id reaches the retriever as NaN |
| Flows.EvaluateReachesRetriever | frontend/pages/evaluate.tsx:55-57 | evaluating an index with an integer id asks the retriever to evaluate that id |
| Flows.ImportCreatesDatasetRow | frontend/pages/datasets.tsx:167-184 | the import record reaches PostgREST as a POST of exactly that record to datasets |
| Flows.SearchReachesElastic | frontend/pages/index.tsx:84-93 | a search sends whatever query it holds, and the resolved index name, to Elasticsearch, with at most ten hits |
| Flows.SearchTargetsBuiltIndex | retriever/BEIRUtils.py:202 | the selector value of an index that build named after a dataset resolves to the lower-cased dataset name, the name its engine was loaded under |

## Left out

- **Transport.** HTTP, Elasticsearch and PostgREST transport are not modelled. Each upstream result is a parameter: the route's `Outcome`, the search hits, or the response status.
- **Errors between retriever and store.** The metadata store answers every request from the BEIR layer. An HTTPException raised by the PostgREST client inside a lookup is not modelled for that layer; `PostgRESTClient.Classify` covers it on its own.
- **External BEIR work.** Downloading and unzipping, reading a corpus, BM25 indexing and the BEIR metrics are external and floating point.
  - The download's resulting path is a parameter.
  - Whether the stored files exist is a predicate parameter (`onDisk`).
  - The index's Elasticsearch content is not modelled.
- **Supplied values.** Timestamps are parameters: the ISO creation time and `datetime.now()`. So is the id PostgreSQL assigns to a new index row.
- BEIRUtils.MetadataStore.GetDatasetId: `ilike` is modelled as ASCII case-insensitive equality. Its `%` and `_` wildcards are not modelled. The same holds for GetModelId.
- BEIRUtils.MetadataStore.NewDataset: a bool argument is treated as neither string nor integer and raises ValueError. In Python a bool is an int and would query the id "True" or "False".
- BEIRUtils.MetadataStore.NewDataset: a path that is not a string raises TypeError. The path column holds text, so only a string or null occurs. Python would treat an integer path as a file descriptor, which is not modelled. `GenericDataLoader.load` reading the files is external, and its failures are not modelled.
- BEIRUtils.EvaluateCheck: an engine that was never loaded is handed to BEIR's retrieval, which fails inside that external code. That failure is not modelled.
- Values.Interp: JavaScript numbers are modelled as unbounded integers. Doubles are not modelled, and neither are precision above 2^53, the exponent form of `${n}` from 1e21 up, or non-integer values (`${1.5}` is "1.5" and `parseInt` of it gives 1). This applies equally to Text.ParseInt and to the ids the retriever and evaluate routes pass on.
- SearchPage.Preview: the limit counts characters, whereas `.length` and `substring` count UTF-16 code units. Content with characters outside the Basic Multilingual Plane, such as emoji, is cut later by the model than by the page.
- BEIRUtils.MetadataStore.NewModel: requires an integer or null model id, as its annotation and the indexes schema give.
- Text.Lower: `toLowerCase`, Python's `lower` and `trim` are ASCII-only. Unicode case mapping and white space are not modelled.
- ElasticApi.MapHits: the score's text is an opaque function. JavaScript float formatting is not modelled.
- DatasetsPage.DownloadQuery: the query the route receives is given directly. URL encoding and decoding of the dataset name are not modelled, so a name containing `&`, `=`, `#`, `%` or `+` is assumed absent.
- **Sort order.** The datasets page sorts each section by `(a, b) => (a.path ? -1 : 1)`. That comparator ignores `b`, so the order depends on the engine's sort; only section membership is modelled.
- **Fetch on load.** Every page fetches once on load. Only a successful fetch is modelled: a method that stores the list. A body that is not a list, and the render failures it would cause, are not modelled. Neither are the render failures from an undefined result list or undefined content on the search page.
- **Async timing.** The FileReader callbacks and upload races on the datasets page are asynchronous. The model fixes the one ordering the code allows: the record is built before the queries callback runs. Whether the queries and qrels uploads succeed is not modelled, nor the alerts their callbacks show on failure. The outer "Error creating dataset" alert, raised only if starting the corpus read throws, is not modelled either.
- **Timers and browser effects.** `setInterval` timing is not modelled; a tick is a method that may run only while busy. The modal's open flag and selected document are modelled, but its rendering is not. Also left out: page reloads (reported as a flag) and the clipboard copy of the evaluate page.
- **Other sources.**
  - frontend/pages/api/saveFile.ts (file-system writes) is not part of this model.
  - retriever/main.py (FastAPI wiring that calls the BEIR layer) is not part of this model.
  - frontend/pages/models.tsx and frontend/components/Sidebar.tsx (static markup) are not part of this model.
  - The types declared in frontend/types.ts appear as `ElasticApi.Document`.

## Findings

| source | as written | input that shows it | evidently intended | confidence | as-written member | corrected member |
|---|---|---|---|---|---|---|
| frontend/pages/api/retriever.ts:41 | the 405 Allow header lists GET only | a PUT to /api/retriever gets Allow GET, yet a POST to the same route is served | Allow lists GET and POST, as section 15.5.6 of RFC 9110 requires | medium, not executed | RetrieverApi.AllowOmitsPost | RetrieverApi.HandleCorrected |
| frontend/pages/datasets.tsx:180 | queries_size is read before the queries reader's callback sets it | importing with any queries file posts queries_size 0 | queries_size is the queries file's line count | high, not executed | DatasetsPage.QueriesSizeIgnored | DatasetsPage.HandleSubmitCorrected |
| frontend/pages/indexes.tsx:166 | the `&&` chain in the caption yields null or undefined for an empty zone, and the template literal prints it | first render, nothing dropped: the button reads "Build Index null 🏭" | "Build Index 🏭" until both zones are filled | high, not executed | IndexesPage.CaptionShowsNull | IndexesPage.CaptionCorrected |
