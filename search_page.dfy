/** The search page: picks an index from the indexes table, sends the query to the
    /api/elastic route and lists the documents it returns, each with a preview of
    its content. */
module SearchPage {

  import opened Wrappers
  import opened Text
  import opened Values
  import ElasticApi

  /** Longest content shown in a result before it is cut. */
  const ContentLimit := 200

  /** The index searched before the user picks one. */
  const DefaultIndex := "scifact"

  /** An entry of the index selector: the value sent and the text shown. */
  datatype SelectOption = SelectOption(value: string, text: string)

  /** The selector's entries: one per index row with a non-empty name, in row
      order, valued by the lower-cased name and showing the name as stored. */
  function Options(indexes: seq<Record>): (opts: seq<SelectOption>)
    requires forall k :: 0 <= k < |indexes| && "name" in indexes[k] ==>
               indexes[k]["name"].Str? || indexes[k]["name"].Null?
    ensures |opts| == |Filter(indexes, HasName)|
    ensures forall k :: 0 <= k < |opts| ==> NamedOption(Filter(indexes, HasName)[k]) == Some(opts[k])
    decreases |indexes|
  {
    if |indexes| == 0 then []
    else
      var rest := Options(indexes[1..]);
      var named := Filter(indexes[1..], HasName);
      match NamedOption(indexes[0])
      case Some(o) =>
        assert Filter(indexes, HasName) == [indexes[0]] + named;
        [o] + rest
      case None =>
        assert Filter(indexes, HasName) == named;
        rest
  }

  /** An entry is offered exactly when some row names it. */
  lemma OptionsMembers(indexes: seq<Record>, o: SelectOption)
    requires forall k :: 0 <= k < |indexes| && "name" in indexes[k] ==>
               indexes[k]["name"].Str? || indexes[k]["name"].Null?
    ensures o in Options(indexes) <==> exists k :: 0 <= k < |indexes| && NamedOption(indexes[k]) == Some(o)
  {
    var opts, named := Options(indexes), Filter(indexes, HasName);
    if o in opts {
      var i :| 0 <= i < |opts| && opts[i] == o;
      assert named[i] in named;
      var k :| 0 <= k < |indexes| && indexes[k] == named[i];
    }
    if k :| 0 <= k < |indexes| && NamedOption(indexes[k]) == Some(o) {
      assert HasName(indexes[k]);
      assert indexes[k] in named;
      var i :| 0 <= i < |named| && named[i] == indexes[k];
      assert opts[i] == o;
    }
  }

  /** Whether a row contributes an entry to the selector. */
  predicate HasName(idx: Record) {
    NamedOption(idx).Some?
  }

  /** The entry one row contributes, if its name is truthy. */
  function NamedOption(idx: Record): (o: Option<SelectOption>)
    ensures o.Some? <==> JsTruthy(Field(idx, "name")) && idx["name"].Str?
    ensures o.Some? ==> o.value == SelectOption(Lower(idx["name"].s), idx["name"].s)
  {
    if "name" in idx && idx["name"].Str? && |idx["name"].s| > 0 then
      Some(SelectOption(Lower(idx["name"].s), idx["name"].s))
    else None
  }

  /** The Elasticsearch index a selector value names. Index names have the form
      "<model> + <dataset>"; the part after the first '+' is trimmed and
      lower-cased. A value without '+' is used as it is. */
  function IndexName(selected: string): (name: string)
    ensures '+' !in selected ==> name == selected
  {
    if '+' in selected then
      CountPositive(selected, '+');
      SplitCount(selected, '+');
      assert "+" == ['+'];
      Lower(Trim(Split(selected, "+")[1]))
    else selected
  }

  /** The index a selector value names is the piece between its first '+' and the
      next '+' (or the end), trimmed and lower-cased. */
  lemma IndexNamePiece(a: string, b: string, c: string)
    requires '+' !in a && '+' !in b
    ensures IndexName(a + "+" + b) == Lower(Trim(b))
    ensures IndexName(a + "+" + b + "+" + c) == Lower(Trim(b))
  {
    assert "+" == ['+'];
    var one := a + "+" + b;
    assert one[|a|] == '+';
    SplitAt(a, '+', b);
    SplitWithout(b, '+');
    assert Split(one, "+")[1] == b;
    var two := a + "+" + b + "+" + c;
    assert two[|a|] == '+';
    assert two == a + ['+'] + (b + ['+'] + c);
    SplitAt(a, '+', b + ['+'] + c);
    SplitAt(b, '+', c);
    assert Split(two, "+")[1] == b;
  }

  /** The selector value of a built index names the dataset's Elasticsearch index:
      the index name "<model> + <dataset>", lower-cased, maps back to the lower-cased
      dataset name. */
  lemma IndexNameRoundTrip(model: string, dataset: string)
    requires '+' !in model && '+' !in dataset
    requires Trimmed(dataset) && |dataset| > 0
    ensures IndexName(Lower(model + " + " + dataset)) == Lower(dataset)
  {
    var full := model + " + " + dataset;
    assert full == (model + " ") + ['+'] + (" " + dataset);
    LowerAppend(model + " ", ['+'] + (" " + dataset));
    LowerAppend(['+'], " " + dataset);
    LowerAppend(model, " ");
    LowerAppend(" ", dataset);
    var lm, ld := Lower(model), Lower(dataset);
    assert Lower(full) == (lm + " ") + ['+'] + (" " + ld) by {
      assert (model + " ") + (['+'] + (" " + dataset)) == full;
    }
    LowerKeepsNonLetters(model, '+');
    LowerKeepsNonLetters(dataset, '+');
    assert '+' !in lm + " ";
    assert '+' !in " " + ld;
    assert '+' in Lower(full) by { assert Lower(full)[|lm| + 1] == '+'; }
    SplitAt(lm + " ", '+', " " + ld);
    SplitWithout(" " + ld, '+');
    assert "+" == ['+'];
    assert Split(Lower(full), "+")[1] == " " + ld;
    LowerTrimmed(dataset);
    TrimPadded(" ", ld, "");
    assert " " + ld + "" == " " + ld;
    LowerIdempotent(dataset);
  }

  /** Lower-casing keeps a string trimmed and non-empty. */
  lemma LowerTrimmed(s: string)
    requires Trimmed(s) && |s| > 0
    ensures Trimmed(Lower(s)) && |Lower(s)| > 0
  {
    assert Lower(s)[0] == LowerChar(s[0]);
    assert Lower(s)[|s| - 1] == LowerChar(s[|s| - 1]);
  }

  /** The content shown in a result: at most 200 characters, followed by "..." when
      it was cut. */
  function Preview(content: string): (shown: string)
    ensures |content| <= ContentLimit ==> shown == content
    ensures |content| > ContentLimit ==>
              |shown| == ContentLimit + 3 && shown[..ContentLimit] == content[..ContentLimit] &&
              shown[ContentLimit..] == "..."
  {
    if |content| > ContentLimit then content[..ContentLimit] + "..." else content
  }

  /** A preview never exceeds 203 characters and always starts the content. */
  lemma PreviewIsPrefix(content: string)
    ensures |Preview(content)| <= ContentLimit + 3
    ensures |content| > ContentLimit ==> Preview(content)[..ContentLimit] == content[..ContentLimit]
    ensures |content| <= ContentLimit ==> Preview(content) == content
  {
  }

  /** How the /api/elastic fetch settled: it threw (network failure or an
      unparsable body), answered non-ok, or answered ok with documents. */
  datatype SearchOutcome =
    | Rejected
    | NotOk
    | Documents(docs: seq<ElasticApi.Document>)

  class Page {
    var isLoading: bool
    var loadedOnce: bool
    var query: string
    /** None stands for the undefined a non-ok response stores. */
    var recommendedDocuments: Option<seq<ElasticApi.Document>>
    var modalIsOpen: bool
    var selectedDocument: Option<ElasticApi.Document>
    /** The selector's value. */
    var index: string
    var indexes: seq<Record>

    constructor()
      ensures !isLoading && !loadedOnce && query == "" && recommendedDocuments == Some([])
      ensures !modalIsOpen && selectedDocument.None? && index == DefaultIndex && indexes == []
    {
      isLoading, loadedOnce, query := false, false, "";
      recommendedDocuments := Some([]);
      modalIsOpen, selectedDocument := false, None;
      index, indexes := DefaultIndex, [];
    }

    /** The search button is disabled while a search is in flight. */
    predicate SearchDisabled()
      reads this
    {
      isLoading
    }

    method IndexesLoaded(data: seq<Record>)
      modifies this
      ensures indexes == data
      ensures isLoading == old(isLoading) && loadedOnce == old(loadedOnce) && index == old(index)
      ensures recommendedDocuments == old(recommendedDocuments) && query == old(query)
      ensures modalIsOpen == old(modalIsOpen) && selectedDocument == old(selectedDocument)
    {
      indexes := data;
    }

    method OpenModal(d: ElasticApi.Document)
      modifies this
      ensures selectedDocument == Some(d) && modalIsOpen
      ensures isLoading == old(isLoading) && loadedOnce == old(loadedOnce) && query == old(query)
      ensures recommendedDocuments == old(recommendedDocuments) && index == old(index) && indexes == old(indexes)
    {
      selectedDocument := Some(d);
      modalIsOpen := true;
    }

    method CloseModal()
      modifies this
      ensures !modalIsOpen && selectedDocument == old(selectedDocument)
      ensures isLoading == old(isLoading) && loadedOnce == old(loadedOnce) && query == old(query)
      ensures recommendedDocuments == old(recommendedDocuments) && index == old(index) && indexes == old(indexes)
    {
      modalIsOpen := false;
    }

    /** getRecommendations up to its fetch: an empty query is refused with an
        alert; otherwise the page starts loading and posts the query and the index
        name to /api/elastic. */
    method BeginSearch() returns (alert: Option<string>, body: Option<Record>)
      modifies this
      ensures query == "" ==> alert == Some("Please let us know what you'd like to learn!") && body.None?
      ensures query == "" ==> isLoading == old(isLoading)
      ensures query != "" ==> alert.None? && isLoading &&
                              body == Some(map["query" := Str(query), "index" := Str(IndexName(index))])
      ensures query == old(query) && index == old(index) && loadedOnce == old(loadedOnce)
      ensures recommendedDocuments == old(recommendedDocuments) && indexes == old(indexes)
      ensures modalIsOpen == old(modalIsOpen) && selectedDocument == old(selectedDocument)
    {
      if query == "" {
        alert, body := Some("Please let us know what you'd like to learn!"), None;
        return;
      }
      isLoading := true;
      var indexName := IndexName(index);
      alert := None;
      body := Some(map["query" := Str(query), "index" := Str(indexName)]);
    }

    /** getRecommendations after its fetch. A rejected fetch escapes the handler
        before the loading flag is cleared, so the page stays loading; a non-ok
        response stores undefined; an ok one stores the documents. */
    method CompleteSearch(outcome: SearchOutcome)
      modifies this
      ensures outcome.Rejected? ==>
                isLoading == old(isLoading) && loadedOnce == old(loadedOnce) &&
                recommendedDocuments == old(recommendedDocuments)
      ensures !outcome.Rejected? ==> !isLoading && loadedOnce
      ensures outcome.NotOk? ==> recommendedDocuments.None?
      ensures outcome.Documents? ==> recommendedDocuments == Some(outcome.docs)
      ensures query == old(query) && index == old(index) && indexes == old(indexes)
      ensures modalIsOpen == old(modalIsOpen) && selectedDocument == old(selectedDocument)
    {
      if outcome.Rejected? {
        return;
      }
      recommendedDocuments := if outcome.NotOk? then None else Some(outcome.docs);
      isLoading := false;
      loadedOnce := true;
    }
  }
}
