/** The street-name search widget (script.js): input normalisation, a fuzzy search
    scored by Levenshtein similarity, result ordering by mode, suggestion lists, and
    the search button's rule that exactly one input field may be filled. */
module StreetSearch {
  import opened Text
  import ED = EditDistance
  import Sorting

  /** One spreadsheet row after loading (every column is a trimmed string). */
  datatype Street = Street(historicalName: string, index: string, modernName: string, source: string)

  /** The field a query came from; `General` is the free-text box. */
  datatype Field = Name | Index | General

  /** normalizeInput's result: the normalised text and how to search it. */
  datatype Query = Query(normalized: string, kind: Field)

  /** A reported row with its similarity score. */
  datatype Scored = Scored(item: Street, similarity: real)

  datatype Suggestion = NoMatch | Suggest(text: string, item: Street)

  /** normalizeInput: trims and lower-cases; free text is an index query exactly when
      it holds a '.' (the source's second test, a regular expression that needs a
      '.', adds nothing to that). */
  function NormalizeInput(input: string, field: Field): (q: Query)
    ensures input == [] ==> q == Query([], field)
    ensures input != [] ==> q.normalized == Lower(Trim(input))
    ensures field != General || input == [] ==> q.kind == field
    ensures field == General && input != [] ==> (q.kind == Index <==> '.' in q.normalized)
  {
    if input == [] then Query([], field)
    else
      var normalized := Lower(Trim(input));
      if field == General then Query(normalized, if '.' in normalized then Index else Name)
      else Query(normalized, field)
  }

  /** Normalising an already normalised query changes nothing. */
  lemma NormalizeIdempotent(input: string, field: Field)
    requires field != General
    ensures var q := NormalizeInput(input, field); NormalizeInput(q.normalized, field) == q
  {
    var t := Trim(input);
    var l := Lower(t);
    LowerIdempotent(t);
    TrimFixed(l);
  }

  /** The text a query is compared with: the index column for index queries,
      the historical name otherwise, lower-cased. */
  function Target(q: Query, item: Street): string
  {
    Lower(if q.kind == Index then item.index else item.historicalName)
  }

  /** 1 - distance / longer length, or 0 without dividing when both strings are empty. */
  function Ratio(a: string, b: string): (s: real)
    ensures 0.0 <= s <= 1.0
    ensures s == 1.0 <==> a == b != []
  {
    if a == [] && b == [] then 0.0 else ED.Similarity(a, b)
  }

  function MaxLen(a: string, b: string): nat
  {
    if |a| <= |b| then |b| else |a|
  }

  /** The score search gives an item; in name mode a containing target scores 1. */
  function Similarity(q: Query, item: Street): (s: real)
    ensures 0.0 <= s <= 1.0
  {
    var t := Target(q, item);
    if q.kind != Index && Includes(t, q.normalized) then 1.0 else Ratio(q.normalized, t)
  }

  /** The inclusion test of search. */
  predicate Reported(q: Query, item: Street)
  {
    var t := Target(q, item);
    t == q.normalized || Similarity(q, item) > 0.7 || Includes(t, q.normalized)
  }

  /** What the forEach pushes, in data order. */
  function Matches(q: Query, data: seq<Street>): seq<Scored>
  {
    if data == [] then []
    else
      var last := data[|data| - 1];
      Matches(q, data[..|data| - 1]) + (if Reported(q, last) then [Scored(last, Similarity(q, last))] else [])
  }

  /** The comparator b.similarity - a.similarity: higher similarity goes first. */
  function BySimilarity(): (Scored, Scored) -> bool
  {
    (x: Scored, y: Scored) => x.similarity > y.similarity
  }

  function SearchResult(q: Query, data: seq<Street>): seq<Scored>
  {
    if q.normalized == [] || data == [] then [] else Sorting.Sort(Matches(q, data), BySimilarity())
  }

  /** The inner levenshtein: fills a (|b|+1) x (|a|+1) table row by row; the
      bottom-right cell is the edit distance of a and b. */
  method Levenshtein(a: string, b: string) returns (d: nat)
    ensures d == ED.Levenshtein(a, b)
  {
    var matrix := new nat[|b| + 1, |a| + 1];
    var i := 0;
    while i <= |a|
      invariant 0 <= i <= |a| + 1
      invariant forall k :: 0 <= k < i ==> matrix[0, k] == k
    {
      matrix[0, i] := i;
      i := i + 1;
    }
    var j := 0;
    while j <= |b|
      invariant 0 <= j <= |b| + 1
      invariant forall k :: 0 <= k <= |a| ==> matrix[0, k] == k
      invariant forall k :: 0 <= k < j ==> matrix[k, 0] == k
    {
      matrix[j, 0] := j;
      j := j + 1;
    }
    j := 1;
    while j <= |b|
      invariant 1 <= j <= |b| + 1
      invariant ED.RowsDone(matrix, a, b, j)
      invariant forall jj :: j <= jj <= |b| ==> matrix[jj, 0] == jj
    {
      ED.FillRow(matrix, a, b, j);
      j := j + 1;
    }
    d := matrix[|b|, |a|];
  }

  /** search: scores every row, keeps the reported ones, sorts by similarity. */
  method Search(q: Query, data: seq<Street>) returns (results: seq<Scored>)
    ensures results == SearchResult(q, data)
  {
    if q.normalized == [] || |data| == 0 {
      return [];
    }
    var pushed: seq<Scored> := [];
    var k := 0;
    while k < |data|
      invariant 0 <= k <= |data|
      invariant pushed == Matches(q, data[..k])
    {
      var item := data[k];
      var target: string;
      var similarity: real;
      if q.kind == Index {
        target := Lower(item.index);
        var distance := Levenshtein(q.normalized, target);
        var maxLen := MaxLen(q.normalized, target);
        similarity := if maxLen != 0 then 1.0 - (distance as real) / (maxLen as real) else 0.0;
      } else {
        target := Lower(item.historicalName);
        var distance := Levenshtein(q.normalized, target);
        var maxLen := MaxLen(q.normalized, target);
        similarity := if maxLen != 0 then 1.0 - (distance as real) / (maxLen as real) else 0.0;
        if Includes(target, q.normalized) {
          similarity := 1.0;
        }
      }
      if target == q.normalized || similarity > 0.7 || Includes(target, q.normalized) {
        pushed := pushed + [Scored(item, similarity)];
      }
      assert data[..k + 1][..k] == data[..k];
      k := k + 1;
    }
    assert data[..k] == data;
    results := Sorting.Sort(pushed, BySimilarity());
  }

  /** Index mode with both strings empty scores 0 without dividing. */
  lemma SimilarityEmpty(q: Query, item: Street)
    requires q.kind == Index && q.normalized == [] && Target(q, item) == []
    ensures Similarity(q, item) == 0.0
  {
  }

  /** Name mode: a historical name containing the query scores exactly 1. */
  lemma SimilarityContained(q: Query, item: Street)
    requires q.kind != Index && Includes(Target(q, item), q.normalized)
    ensures Similarity(q, item) == 1.0
  {
  }

  /** An exact target match scores 1 in either mode. */
  lemma SimilarityExact(q: Query, item: Street)
    requires Target(q, item) == q.normalized != []
    ensures Similarity(q, item) == 1.0
  {
  }

  /** Matches holds exactly the reported rows, each with its own score, and each row of the
      data as many times as it occurs there when reported, none otherwise. */
  lemma MatchesShape(q: Query, data: seq<Street>)
    ensures forall r :: r in Matches(q, data) <==> r.item in data && Reported(q, r.item) && r.similarity == Similarity(q, r.item)
    ensures forall x :: multiset(Matches(q, data))[Scored(x, Similarity(q, x))] == if Reported(q, x) then multiset(data)[x] else 0
    ensures |Matches(q, data)| <= |data|
  {
    MatchesMembers(q, data);
    MatchesCount(q, data);
  }

  lemma {:induction false} MatchesMembers(q: Query, data: seq<Street>)
    ensures forall r :: r in Matches(q, data) <==> r.item in data && Reported(q, r.item) && r.similarity == Similarity(q, r.item)
    ensures |Matches(q, data)| <= |data|
  {
    if data != [] {
      var init, last := data[..|data| - 1], data[|data| - 1];
      MatchesMembers(q, init);
      assert data == init + [last];
    }
  }

  lemma {:induction false} MatchesCount(q: Query, data: seq<Street>)
    ensures forall x :: multiset(Matches(q, data))[Scored(x, Similarity(q, x))] == if Reported(q, x) then multiset(data)[x] else 0
  {
    if data != [] {
      var init, last := data[..|data| - 1], data[|data| - 1];
      MatchesCount(q, init);
      assert data == init + [last];
      var tail := if Reported(q, last) then [Scored(last, Similarity(q, last))] else [];
      assert Matches(q, data) == Matches(q, init) + tail;
      assert multiset(Matches(q, data)) == multiset(Matches(q, init)) + multiset(tail);
      assert multiset(data) == multiset(init) + multiset{last};
      forall x ensures multiset(Matches(q, data))[Scored(x, Similarity(q, x))] == if Reported(q, x) then multiset(data)[x] else 0 {
        assert multiset(tail)[Scored(x, Similarity(q, x))] == if x == last && Reported(q, x) then 1 else 0;
      }
    }
  }

  /** The forEach works row by row: the matches of a + b are those of a followed by those
      of b, so they come in data order. */
  lemma {:induction false} MatchesAppend(q: Query, a: seq<Street>, b: seq<Street>)
    ensures Matches(q, a + b) == Matches(q, a) + Matches(q, b)
    decreases |b|
  {
    if b == [] {
      assert a + b == a;
    } else {
      var init := b[..|b| - 1];
      assert (a + b)[..|a + b| - 1] == a + init;
      assert (a + b)[|a + b| - 1] == b[|b| - 1];
      MatchesAppend(q, a, init);
    }
  }

  /** search's contract: an empty query or empty data gives nothing; otherwise the
      results are exactly the reported rows, each scored by Similarity (which lies in
      [0, 1]) and each as many times as it occurs in the data, highest similarity first. */
  lemma SearchCorrect(q: Query, data: seq<Street>)
    ensures q.normalized == [] || data == [] ==> SearchResult(q, data) == []
    ensures q.normalized != [] ==> forall r :: r in SearchResult(q, data) <==>
      r.item in data && Reported(q, r.item) && r.similarity == Similarity(q, r.item)
    ensures q.normalized != [] ==> forall x ::
      multiset(SearchResult(q, data))[Scored(x, Similarity(q, x))] == if Reported(q, x) then multiset(data)[x] else 0
    ensures |SearchResult(q, data)| <= |data|
    ensures forall r :: r in SearchResult(q, data) ==> 0.0 <= r.similarity <= 1.0
    ensures forall i, j :: 0 <= i < j < |SearchResult(q, data)| ==> SearchResult(q, data)[i].similarity >= SearchResult(q, data)[j].similarity
  {
    MatchesShape(q, data);
    var r := SearchResult(q, data);
    if q.normalized != [] && data != [] {
      var m := Matches(q, data);
      Sorting.SortSorted(m, BySimilarity());
      assert multiset(r) == multiset(m);
      forall s | s in r ensures s in m {
        assert s in multiset(r);
      }
      forall s | s in m ensures s in r {
        assert s in multiset(m);
      }
    }
  }

  /** filterResultsByMode: 'best' keeps the top result; any other mode keeps all
      results, reordered by modern name under the given collation. */
  function FilterResultsByMode(results: seq<Scored>, mode: string, collate: (string, string) -> bool): (r: seq<Scored>)
  {
    if mode == "best" then results[..if |results| < 1 then |results| else 1]
    else Sorting.Sort(results, (x: Scored, y: Scored) => collate(x.item.modernName, y.item.modernName))
  }

  lemma FilterResultsByModeCorrect(results: seq<Scored>, mode: string, collate: (string, string) -> bool)
    ensures mode == "best" ==> (|FilterResultsByMode(results, mode, collate)| <= 1
      && (results != [] ==> FilterResultsByMode(results, mode, collate) == [results[0]]))
    ensures mode != "best" ==> multiset(FilterResultsByMode(results, mode, collate)) == multiset(results)
    ensures mode != "best" && Sorting.StrictWeakOrder(collate) ==>
      forall i, j :: 0 <= i < j < |results| ==>
        !collate(FilterResultsByMode(results, mode, collate)[j].item.modernName, FilterResultsByMode(results, mode, collate)[i].item.modernName)
  {
    if mode != "best" && Sorting.StrictWeakOrder(collate) {
      var before := (x: Scored, y: Scored) => collate(x.item.modernName, y.item.modernName);
      assert Sorting.StrictWeakOrder(before) by {
        forall x: Scored, y: Scored ensures before(x, y) ==> !before(y, x) {
          assert collate(x.item.modernName, y.item.modernName) ==> !collate(y.item.modernName, x.item.modernName);
        }
        forall x: Scored, y: Scored, z: Scored ensures !before(y, x) && !before(z, y) ==> !before(z, x) {
          var a, b, c := x.item.modernName, y.item.modernName, z.item.modernName;
          assert !collate(b, a) && !collate(c, b) ==> !collate(c, a);
        }
      }
      Sorting.SortSorted(results, before);
    }
  }

  /** generateSuggestions: a single placeholder when nothing matched, otherwise
      the first three results labelled by the queried column. */
  function GenerateSuggestions(results: seq<Scored>, q: Query): (r: seq<Suggestion>)
    ensures results == [] ==> r == [NoMatch]
    ensures results != [] ==> |r| == (if |results| < 3 then |results| else 3)
    ensures results != [] ==> forall k :: 0 <= k < |r| ==>
      r[k] == Suggest(if q.kind == Index then results[k].item.index else results[k].item.historicalName, results[k].item)
  {
    if results == [] then [NoMatch]
    else
      var top := results[..if |results| < 3 then |results| else 3];
      seq(|top|, k requires 0 <= k < |top| =>
        Suggest(if q.kind == Index then top[k].item.index else top[k].item.historicalName, top[k].item))
  }

  /** getCurrentData: one data set by name, or both concatenated. */
  function GetCurrentData(source: string, en: seq<Street>, zh: seq<Street>): (r: seq<Street>)
    ensures source == "en" ==> r == en
    ensures source == "zh" ==> r == zh
    ensures source != "en" && source != "zh" ==> r == en + zh
  {
    if source == "en" then en else if source == "zh" then zh else en + zh
  }

  /** The field-selection rule of handleSearchButton: the one filled field, if exactly one is. */
  function SelectField(nameValue: string, indexValue: string, generalValue: string): (r: Option<(string, Field)>)
    ensures r.Some? <==> Filled(nameValue) + Filled(indexValue) + Filled(generalValue) == 1
    ensures r.Some? ==> (r.value.0 != [] &&
      r.value.0 == match r.value.1 case Name => nameValue case Index => indexValue case General => generalValue)
  {
    if nameValue != [] && indexValue == [] && generalValue == [] then Some((nameValue, Name))
    else if indexValue != [] && nameValue == [] && generalValue == [] then Some((indexValue, Index))
    else if generalValue != [] && nameValue == [] && indexValue == [] then Some((generalValue, General))
    else None
  }

  datatype Option<T> = None | Some(value: T)

  /** 1 for a non-empty input box (a truthy value), 0 for an empty one. */
  function Filled(v: string): nat
  {
    if v == [] then 0 else 1
  }

  const OneFieldError := "Please enter only one field: Street Number, Lot Number, or Search."
  const NoMatchesError := "No matches found."

  /** The input boxes, the error line and the result table of the page. */
  class SearchForm {
    var nameValue: string
    var indexValue: string
    var generalValue: string
    var errorMessage: string
    var displayed: seq<Scored>
    var suggestionsVisible: bool

    constructor ()
      ensures nameValue == [] && indexValue == [] && generalValue == []
      ensures errorMessage == [] && displayed == [] && !suggestionsVisible
    {
      nameValue, indexValue, generalValue := [], [], [];
      errorMessage, displayed := [], [];
      suggestionsVisible := false;
    }

    /** handleSearchButton: searches only when exactly one field is filled; shows the
        filtered results and copies the top one into the inputs, or reports the error. */
    method HandleSearchButton(source: string, en: seq<Street>, zh: seq<Street>, mode: string,
                              collate: (string, string) -> bool)
      modifies this
      ensures var sel := SelectField(old(nameValue), old(indexValue), old(generalValue));
        && (sel.None? ==> (errorMessage == OneFieldError && displayed == old(displayed) && !suggestionsVisible
              && nameValue == old(nameValue) && indexValue == old(indexValue) && generalValue == old(generalValue)))
        && (sel.Some? ==> Shown(SearchResult(NormalizeInput(sel.value.0, sel.value.1), GetCurrentData(source, en, zh)), mode, collate,
                                old(errorMessage), old(suggestionsVisible), old(nameValue), old(indexValue), old(generalValue)))
    {
      var query: Query;
      if nameValue != [] && indexValue == [] && generalValue == [] {
        query := NormalizeInput(nameValue, Name);
        assert SelectField(nameValue, indexValue, generalValue) == Some((nameValue, Name));
      } else if indexValue != [] && nameValue == [] && generalValue == [] {
        query := NormalizeInput(indexValue, Index);
        assert SelectField(nameValue, indexValue, generalValue) == Some((indexValue, Index));
      } else if generalValue != [] && nameValue == [] && indexValue == [] {
        query := NormalizeInput(generalValue, General);
        assert SelectField(nameValue, indexValue, generalValue) == Some((generalValue, General));
      } else {
        errorMessage := OneFieldError;
        suggestionsVisible := false;
        return;
      }
      var results := Search(query, GetCurrentData(source, en, zh));
      ShowResults(results, mode, collate);
    }

    /** The page after a search that returned `found`: the filtered results with the
        top one copied into the inputs, or the no-match message. */
    ghost predicate Shown(found: seq<Scored>, mode: string, collate: (string, string) -> bool,
                          oldError: string, oldVisible: bool, oldName: string, oldIndex: string, oldGeneral: string)
      reads this
    {
      && (found == [] ==> (displayed == [] && errorMessage == NoMatchesError && suggestionsVisible == oldVisible
            && nameValue == oldName && indexValue == oldIndex && generalValue == oldGeneral))
      && (found != [] ==>
            var shown := FilterResultsByMode(found, mode, collate);
            && shown != [] && displayed == shown && errorMessage == oldError && !suggestionsVisible
            && nameValue == (if shown[0].item.modernName != [] then shown[0].item.modernName else shown[0].item.historicalName)
            && indexValue == shown[0].item.index && generalValue == [])
    }

    method ShowResults(found: seq<Scored>, mode: string, collate: (string, string) -> bool)
      modifies this
      ensures Shown(found, mode, collate, old(errorMessage), old(suggestionsVisible), old(nameValue), old(indexValue), old(generalValue))
      ensures found == [] || errorMessage == old(errorMessage)
    {
      if |found| > 0 {
        var shown := FilterResultsByMode(found, mode, collate);
        FilterNonEmpty(found, mode, collate);
        displayed := shown;
        var top := shown[0];
        nameValue := if top.item.modernName != [] then top.item.modernName else top.item.historicalName;
        indexValue := top.item.index;
        generalValue := [];
        suggestionsVisible := false;
      } else {
        displayed := [];
        errorMessage := NoMatchesError;
      }
    }
  }

  lemma FilterNonEmpty(results: seq<Scored>, mode: string, collate: (string, string) -> bool)
    ensures |FilterResultsByMode(results, mode, collate)| == 0 <==> |results| == 0
  {
  }
}
