/** The Evaluate page: the user picks an index and asks the evaluate route to score
    it; the result replaces the sample shown until then, and the button animates
    "Evaluating..." meanwhile. */
module EvaluatePage {

  import opened Wrappers
  import opened Values
  import Ticker

  /** `selectedIndex?.id`: undefined when nothing is selected. */
  function SelectedId(selected: Option<Record>): Option<Json> {
    match selected
    case None => None
    case Some(row) => Field(row, "id")
  }

  /** The body of an evaluate request; an undefined id is left out. */
  function EvaluateBody(index: Record): (body: Record)
    ensures "indexId" in body <==> "id" in index
    ensures "indexId" in body ==> body["indexId"] == index["id"]
    ensures body.Keys <= {"indexId"}
  {
    if "id" in index then map["indexId" := index["id"]] else map[]
  }

  class Page {
    var indexes: seq<Record>
    var selectedIndex: Option<Record>
    var evaluationResult: Json
    var isEvaluating: bool
    var dots: string

    constructor()
      ensures indexes == [] && selectedIndex.None? && evaluationResult == Str("")
      ensures !isEvaluating && dots == ""
    {
      indexes, selectedIndex, evaluationResult := [], None, Str("");
      isEvaluating, dots := false, "";
    }

    method Loaded(rows: seq<Record>)
      modifies this
      ensures indexes == rows && selectedIndex == old(selectedIndex)
      ensures evaluationResult == old(evaluationResult) && isEvaluating == old(isEvaluating) && dots == old(dots)
    {
      indexes := rows;
    }

    /** Clicking an index card selects it. */
    method Select(row: Record)
      modifies this
      ensures selectedIndex == Some(row) && Highlighted(row)
      ensures indexes == old(indexes) && evaluationResult == old(evaluationResult)
      ensures isEvaluating == old(isEvaluating) && dots == old(dots)
    {
      selectedIndex := Some(row);
    }

    /** A card is highlighted when its id equals the selection's id, compared as
        `===` compares them: with nothing selected, a card without an id matches
        the undefined on the left. */
    predicate Highlighted(row: Record)
      reads this
      ensures Highlighted(row) <==>
                if selectedIndex.None? then "id" !in row
                else ("id" in selectedIndex.value <==> "id" in row) &&
                     ("id" in row ==> selectedIndex.value["id"] == row["id"])
    {
      SelectedId(selectedIndex) == Field(row, "id")
    }

    /** With nothing selected, exactly the cards without an id are highlighted. */
    lemma NoSelectionHighlightsIdless(row: Record)
      requires selectedIndex.None?
      ensures Highlighted(row) <==> "id" !in row
    {
    }

    /** Two rows with the same id are highlighted together. */
    lemma SameIdSameHighlight(a: Record, b: Record)
      requires Field(a, "id") == Field(b, "id")
      ensures Highlighted(a) <==> Highlighted(b)
    {
    }

    /** The results pane shows the result once it is truthy and the sample before:
        the initial empty string, null, false and 0 show the sample. */
    predicate ShowsResult()
      reads this
      ensures ShowsResult() <==> evaluationResult !in {Str(""), Null, Bool(false), Num(0)}
    {
      JsTruthy(Some(evaluationResult))
    }

    method Tick()
      requires isEvaluating
      modifies this
      ensures dots == Ticker.Next(old(dots)) && isEvaluating
      ensures selectedIndex == old(selectedIndex) && evaluationResult == old(evaluationResult)
      ensures indexes == old(indexes)
    {
      dots := Ticker.Next(dots);
    }

    function ButtonCaption(): (caption: string)
      reads this
      ensures isEvaluating ==> caption == "Evaluating" + dots
      ensures !isEvaluating ==> caption == "Evaluate \U{1F9EA}"
    {
      if isEvaluating then "Evaluating" + dots else "Evaluate \U{1F9EA}"
    }

    /** handleEvaluate up to its request: an index must be selected; then the page
        starts evaluating and posts the index's id. */
    method BeginEvaluate() returns (alert: Option<string>, body: Option<Record>)
      modifies this
      ensures selectedIndex.None? ==>
                alert == Some("Please select an index to evaluate.") && body.None? && isEvaluating == old(isEvaluating)
      ensures selectedIndex.Some? ==>
                alert.None? && isEvaluating && body == Some(EvaluateBody(selectedIndex.value))
      ensures selectedIndex == old(selectedIndex) && evaluationResult == old(evaluationResult)
      ensures dots == old(dots) && indexes == old(indexes)
    {
      if selectedIndex.None? {
        alert, body := Some("Please select an index to evaluate."), None;
        return;
      }
      isEvaluating := true;
      alert, body := None, Some(EvaluateBody(selectedIndex.value));
    }

    /** handleEvaluate after its request: `response` is the status and data, or
        None when the request threw. Only a 200 stores its data; anything else
        alerts and keeps the previous result. Evaluation stops either way. */
    method FinishEvaluate(response: Option<(int, Json)>) returns (alert: Option<string>)
      modifies this
      ensures !isEvaluating
      ensures response.Some? && response.value.0 == 200 ==>
                evaluationResult == response.value.1 && alert.None?
      ensures !(response.Some? && response.value.0 == 200) ==>
                evaluationResult == old(evaluationResult) && alert == Some("Error evaluating index. Please try again later.")
      ensures selectedIndex == old(selectedIndex) && dots == old(dots) && indexes == old(indexes)
    {
      if response.Some? && response.value.0 == 200 {
        evaluationResult := response.value.1;
        alert := None;
      } else {
        alert := Some("Error evaluating index. Please try again later.");
      }
      isEvaluating := false;
    }
  }
}
