/** The Indexes page: the user drags an installed dataset and a model onto two drop
    zones and builds an index of the pair through the retriever route, while the
    button animates "Building Index...". */
module IndexesPage {

  import opened Wrappers
  import opened Text
  import opened Values
  import Ticker

  /** A datasets row is offered for indexing unless its path is null; a row with no
      path column at all is offered too. */
  predicate Installable(row: Record) {
    Field(row, "path") != Some(Null)
  }

  /** The datasets the page offers, in the order they were fetched. */
  function Installed(rows: seq<Record>): (offered: seq<Record>)
    ensures forall r :: r in offered <==> r in rows && Field(r, "path") != Some(Null)
  {
    Filter(rows, Installable)
  }

  /** What a drop zone holds: the initial null, the undefined a drop that matched
      nothing leaves, or a row. */
  datatype Selection = NullSel | UndefinedSel | Selected(row: Record)

  /** The row a drop with the dragged text picks: the first whose id equals
      parseInt of the text. A text that does not parse (NaN) matches nothing. */
  function Dropped(rows: seq<Record>, text: string): (s: Selection)
    ensures s.Selected? <==> ParseIntAuto(text).Some? &&
                             exists k :: 0 <= k < |rows| && Field(rows[k], "id") == Some(Num(ParseIntAuto(text).value))
    ensures s.Selected? ==> s.row in rows && Field(s.row, "id") == Some(Num(ParseIntAuto(text).value))
    ensures !s.Selected? ==> s == UndefinedSel
  {
    match ParseIntAuto(text)
    case None => UndefinedSel
    case Some(n) =>
      match Find(rows, (r: Record) => Field(r, "id") == Some(Num(n)))
      case None => UndefinedSel
      case Some(r) => Selected(r)
  }

  /** Dragging a card and dropping it back selects that card's row, provided no
      earlier row has the same id. */
  lemma DragAndDropSelects(rows: seq<Record>, k: nat, id: int)
    requires k < |rows| && Field(rows[k], "id") == Some(Num(id))
    requires forall j :: 0 <= j < k ==> Field(rows[j], "id") != Some(Num(id))
    ensures Dropped(rows, IntText(id)) == Selected(rows[k])
  {
    ParseIntText(id);
    var p := (r: Record) => Field(r, "id") == Some(Num(id));
    var found := Find(rows, p);
    assert p(rows[k]);
    var m :| 0 <= m < |rows| && rows[m] == found.value && p(found.value) &&
             forall j :: 0 <= j < m ==> !p(rows[j]);
    assert !(m < k) by { assert p(rows[m]); }
    assert m == k;
  }

  /** The JSON body of a build request. A key whose value is undefined is left out,
      as JSON.stringify does. */
  function BuildBody(dataset: Record, model: Record): (body: Record)
    ensures "datasetId" in body <==> "id" in dataset
    ensures "modelId" in body <==> "id" in model
    ensures "datasetId" in body ==> body["datasetId"] == dataset["id"]
    ensures "modelId" in body ==> body["modelId"] == model["id"]
    ensures body.Keys <= {"datasetId", "modelId"}
  {
    var withDataset: Record := if "id" in dataset then map["datasetId" := dataset["id"]] else map[];
    if "id" in model then withDataset["modelId" := model["id"]] else withDataset
  }

  /** How a selection renders inside a template literal. */
  function SelectionText(s: Selection): string {
    match s
    case NullSel => "null"
    case UndefinedSel => "undefined"
    case Selected(row) => Interp(Field(row, "name"))
  }

  const Factory := " \U{1F3ED}"

  /** The build button's caption as written. When a zone is empty the `&&` chain
      yields that zone's null or undefined, which the template literal spells out. */
  function Caption(isBuilding: bool, dots: string, dataset: Selection, model: Selection): (caption: string)
    ensures isBuilding ==> caption == "Building Index" + dots
    ensures !isBuilding && dataset.Selected? && model.Selected? ==>
              caption == "Build Index for " + SelectionText(dataset) + " and " + SelectionText(model) + Factory
    ensures !isBuilding && !dataset.Selected? ==> caption == "Build Index " + SelectionText(dataset) + Factory
    ensures !isBuilding && dataset.Selected? && !model.Selected? ==>
              caption == "Build Index " + SelectionText(model) + Factory
  {
    if isBuilding then "Building Index" + dots
    else if !dataset.Selected? then "Build Index " + SelectionText(dataset) + Factory
    else if !model.Selected? then "Build Index " + SelectionText(model) + Factory
    else "Build Index for " + SelectionText(dataset) + " and " + SelectionText(model) + Factory
  }

  /** On first render, before anything is dropped, the caption reads
      "Build Index null": the empty zone leaks into the text. */
  lemma CaptionShowsNull(model: Selection)
    ensures Caption(false, "", NullSel, model) == "Build Index null" + Factory
  {
  }

  /** The caption with the pair's text left out when a zone is empty. */
  function CaptionCorrected(isBuilding: bool, dots: string, dataset: Selection, model: Selection): (caption: string)
    ensures isBuilding || (dataset.Selected? && model.Selected?) ==>
              caption == Caption(isBuilding, dots, dataset, model)
    ensures !isBuilding && !(dataset.Selected? && model.Selected?) ==> caption == "Build Index" + Factory
  {
    if isBuilding || (dataset.Selected? && model.Selected?) then Caption(isBuilding, dots, dataset, model)
    else "Build Index" + Factory
  }

  class Page {
    var indexes: seq<Record>
    var datasets: seq<Record>
    var models: seq<Record>
    var selectedDataset: Selection
    var selectedModel: Selection
    var isBuilding: bool
    var dots: string

    constructor()
      ensures indexes == [] && datasets == [] && models == []
      ensures selectedDataset == NullSel && selectedModel == NullSel
      ensures !isBuilding && dots == ""
    {
      indexes, datasets, models := [], [], [];
      selectedDataset, selectedModel := NullSel, NullSel;
      isBuilding, dots := false, "";
    }

    /** The three fetches on load; the datasets are narrowed to the installable ones. */
    method Loaded(indexRows: seq<Record>, datasetRows: seq<Record>, modelRows: seq<Record>)
      modifies this
      ensures indexes == indexRows && datasets == Installed(datasetRows) && models == modelRows
      ensures selectedDataset == old(selectedDataset) && selectedModel == old(selectedModel)
      ensures isBuilding == old(isBuilding) && dots == old(dots)
    {
      indexes, datasets, models := indexRows, Installed(datasetRows), modelRows;
    }

    /** handleDrop on the dataset zone: the zone now holds the match or undefined,
        replacing what it held before. */
    method DropDataset(text: string)
      modifies this
      ensures selectedDataset == Dropped(datasets, text)
      ensures selectedModel == old(selectedModel) && datasets == old(datasets) && models == old(models)
      ensures indexes == old(indexes)
      ensures isBuilding == old(isBuilding) && dots == old(dots)
    {
      selectedDataset := Dropped(datasets, text);
    }

    /** handleDrop on the model zone. */
    method DropModel(text: string)
      modifies this
      ensures selectedModel == Dropped(models, text)
      ensures selectedDataset == old(selectedDataset) && datasets == old(datasets) && models == old(models)
      ensures indexes == old(indexes)
      ensures isBuilding == old(isBuilding) && dots == old(dots)
    {
      selectedModel := Dropped(models, text);
    }

    /** One tick of the interval that runs while building. */
    method Tick()
      requires isBuilding
      modifies this
      ensures dots == Ticker.Next(old(dots)) && isBuilding
      ensures selectedDataset == old(selectedDataset) && selectedModel == old(selectedModel)
      ensures indexes == old(indexes) && datasets == old(datasets) && models == old(models)
    {
      dots := Ticker.Next(dots);
    }

    /** handleSubmit up to its request: both zones must hold a row; then building
        starts and the ids are posted to /api/retriever. */
    method BeginBuild() returns (alert: Option<string>, body: Option<Record>)
      modifies this
      ensures !(selectedDataset.Selected? && selectedModel.Selected?) ==>
                alert == Some("Please select both a dataset and a model.") && body.None? &&
                isBuilding == old(isBuilding)
      ensures selectedDataset.Selected? && selectedModel.Selected? ==>
                alert.None? && isBuilding && body == Some(BuildBody(selectedDataset.row, selectedModel.row))
      ensures selectedDataset == old(selectedDataset) && selectedModel == old(selectedModel)
      ensures dots == old(dots) && datasets == old(datasets) && models == old(models)
      ensures indexes == old(indexes)
    {
      if !(selectedDataset.Selected? && selectedModel.Selected?) {
        alert, body := Some("Please select both a dataset and a model."), None;
        return;
      }
      isBuilding := true;
      alert, body := None, Some(BuildBody(selectedDataset.row, selectedModel.row));
    }

    /** handleSubmit after its request: `status` is the response status, or None
        when the request threw. Only 200 counts as success; building stops either
        way. */
    method FinishBuild(status: Option<int>) returns (alert: string, reload: bool)
      modifies this
      ensures !isBuilding && reload == (status == Some(200))
      ensures alert == if status == Some(200) then "Index created successfully!"
                       else "Error creating index. Please try again later."
      ensures selectedDataset == old(selectedDataset) && selectedModel == old(selectedModel)
      ensures dots == old(dots) && indexes == old(indexes) && datasets == old(datasets) && models == old(models)
    {
      if status == Some(200) {
        alert, reload := "Index created successfully!", true;
      } else {
        alert, reload := "Error creating index. Please try again later.", false;
      }
      isBuilding := false;
    }

    /** The build button's caption as the page renders it, empty-zone text included. */
    function ButtonCaption(): (caption: string)
      reads this
      ensures isBuilding ==> caption == "Building Index" + dots
      ensures !isBuilding && selectedDataset == NullSel ==> caption == "Build Index null" + Factory
      ensures !isBuilding && selectedDataset == UndefinedSel ==> caption == "Build Index undefined" + Factory
      ensures !isBuilding && selectedDataset.Selected? && !selectedModel.Selected? ==>
                caption == "Build Index " + SelectionText(selectedModel) + Factory
      ensures !isBuilding && selectedDataset.Selected? && selectedModel.Selected? ==>
                caption == "Build Index for " + Interp(Field(selectedDataset.row, "name")) + " and " +
                           Interp(Field(selectedModel.row, "name")) + Factory
    {
      Caption(isBuilding, dots, selectedDataset, selectedModel)
    }
  }
}
