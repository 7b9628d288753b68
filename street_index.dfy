/** The street-index converter page (convertorver2/script.js): its own table-filling
    edit distance, a search over five text columns of every row, the parsing of the
    "(lat, lng)" coordinate cell, the data-source selector and the search button. */
module StreetIndex {
  import opened Text
  import opened Geometry
  import ED = EditDistance
  import Sorting

  /** One spreadsheet row after loading. */
  datatype Row = Row(historicalName: string, modernName: string, buildingName: string,
                     index: string, streetInfo: string, source: string,
                     coordX: Number, coordY: Number)

  /** The five columns search looks at. */
  datatype Column = HistoricalName | ModernName | BuildingName | IndexColumn | StreetInformation

  /** The columns in the order search visits them. */
  const Columns: seq<Column> := [HistoricalName, ModernName, BuildingName, IndexColumn, StreetInformation]

  /** A search hit: the row, its similarity and the column that matched. */
  datatype Hit = Hit(row: Row, sim: real, column: Column)

  function ColumnValue(r: Row, c: Column): string
  {
    match c
    case HistoricalName => r.historicalName
    case ModernName => r.modernName
    case BuildingName => r.buildingName
    case IndexColumn => r.index
    case StreetInformation => r.streetInfo
  }

  function MaxLen(a: string, b: string): nat
  {
    if |a| <= |b| then |b| else |a|
  }

  /** 1 - lev(term, v) / max(|term|, |v|); the term is never empty, so neither is the divisor. */
  function Sim(term: string, v: string): (s: real)
    requires term != []
    ensures 0.0 <= s <= 1.0
    ensures s == 1.0 <==> term == v
  {
    ED.Similarity(term, v)
  }

  /** The emission test of search for one column value. */
  predicate Emits(term: string, v: string)
    requires term != []
  {
    Includes(v, term) || Sim(term, v) > 0.85
  }

  /** The hits of one row for the columns cs, in column order. */
  function ColumnHits(term: string, r: Row, cs: seq<Column>): seq<Hit>
    requires term != []
  {
    if cs == [] then []
    else
      var c := cs[|cs| - 1];
      var v := Lower(ColumnValue(r, c));
      ColumnHits(term, r, cs[..|cs| - 1]) + (if Emits(term, v) then [Hit(r, Sim(term, v), c)] else [])
  }

  /** The hits of all rows, row by row, before sorting. */
  function Hits(term: string, data: seq<Row>): seq<Hit>
    requires term != []
  {
    if data == [] then [] else Hits(term, data[..|data| - 1]) + ColumnHits(term, data[|data| - 1], Columns)
  }

  function BySim(): (Hit, Hit) -> bool
  {
    (x: Hit, y: Hit) => x.sim > y.sim
  }

  function SearchResult(term: string, data: seq<Row>): seq<Hit>
  {
    if term == [] then [] else Sorting.Sort(Hits(term, data), BySim())
  }

  /** lev: column 0 is written while the rows are created, then row 0, then the
      rest row by row; the bottom-right cell is the edit distance. */
  method Lev(a: string, b: string) returns (d: nat)
    ensures d == ED.Levenshtein(a, b)
  {
    var m := new nat[|b| + 1, |a| + 1];
    var i := 0;
    while i <= |b|
      invariant 0 <= i <= |b| + 1
      invariant forall k :: 0 <= k < i ==> m[k, 0] == k
    {
      m[i, 0] := i;
      i := i + 1;
    }
    i := 1;
    while i <= |a|
      invariant 1 <= i <= |a| + 1
      invariant forall k :: 0 <= k <= |b| ==> m[k, 0] == k
      invariant forall k :: 0 <= k < i ==> m[0, k] == k
    {
      m[0, i] := i;
      i := i + 1;
    }
    var j := 1;
    while j <= |b|
      invariant 1 <= j <= |b| + 1
      invariant ED.RowsDone(m, a, b, j)
      invariant forall jj :: j <= jj <= |b| ==> m[jj, 0] == jj
    {
      ED.FillRow(m, a, b, j);
      j := j + 1;
    }
    d := m[|b|, |a|];
  }

  /** search: for every row and every one of the five columns, a hit when the
      lower-cased value contains the term or is similar enough; sorted by similarity. */
  method Search(term: string, data: seq<Row>) returns (out: seq<Hit>)
    ensures out == SearchResult(term, data)
  {
    if term == [] {
      return [];
    }
    out := [];
    var k := 0;
    while k < |data|
      invariant 0 <= k <= |data|
      invariant out == Hits(term, data[..k])
    {
      var rowHits := RowHits(term, data[k]);
      out := out + rowHits;
      assert data[..k + 1][..k] == data[..k];
      k := k + 1;
    }
    assert data[..k] == data;
    out := Sorting.Sort(out, BySim());
  }

  /** The forEach over the five columns of one row. */
  method RowHits(term: string, it: Row) returns (out: seq<Hit>)
    requires term != []
    ensures out == ColumnHits(term, it, Columns)
  {
    out := [];
    var f := 0;
    while f < |Columns|
      invariant 0 <= f <= |Columns|
      invariant out == ColumnHits(term, it, Columns[..f])
    {
      var v := Lower(ColumnValue(it, Columns[f]));
      var distance := Lev(term, v);
      var sim := 1.0 - (distance as real) / (MaxLen(term, v) as real);
      assert sim == Sim(term, v);
      if Includes(v, term) || sim > 0.85 {
        out := out + [Hit(it, sim, Columns[f])];
      }
      assert Columns[..f + 1][..f] == Columns[..f];
      f := f + 1;
    }
    assert Columns[..f] == Columns;
  }

  /** A row's hits: at most one per column, each for a column in cs whose value is emitted. */
  lemma {:induction false} ColumnHitsShape(term: string, r: Row, cs: seq<Column>)
    requires term != []
    ensures |ColumnHits(term, r, cs)| <= |cs|
    ensures forall h :: h in ColumnHits(term, r, cs) <==>
      h.row == r && h.column in cs && Emits(term, Lower(ColumnValue(r, h.column))) && h.sim == Sim(term, Lower(ColumnValue(r, h.column)))
  {
    if cs != [] {
      ColumnHitsShape(term, r, cs[..|cs| - 1]);
      assert cs == cs[..|cs| - 1] + [cs[|cs| - 1]];
    }
  }

  /** The position of a column in the visiting order. */
  function Rank(c: Column): nat
  {
    match c
    case HistoricalName => 0
    case ModernName => 1
    case BuildingName => 2
    case IndexColumn => 3
    case StreetInformation => 4
  }

  /** Visiting columns in increasing rank gives hits in increasing rank, so no column twice. */
  lemma {:induction false} ColumnHitsOrdered(term: string, r: Row, cs: seq<Column>)
    requires term != []
    requires forall p, q :: 0 <= p < q < |cs| ==> Rank(cs[p]) < Rank(cs[q])
    ensures forall i, j :: 0 <= i < j < |ColumnHits(term, r, cs)| ==>
      Rank(ColumnHits(term, r, cs)[i].column) < Rank(ColumnHits(term, r, cs)[j].column)
  {
    if cs != [] {
      var init := cs[..|cs| - 1];
      ColumnHitsOrdered(term, r, init);
      ColumnHitsShape(term, r, init);
      var prev := ColumnHits(term, r, init);
      var all := ColumnHits(term, r, cs);
      forall i, j | 0 <= i < j < |all| ensures Rank(all[i].column) < Rank(all[j].column) {
        if j >= |prev| {
          assert all[i] == prev[i] && prev[i] in prev;
          var p :| 0 <= p < |init| && init[p] == prev[i].column;
          assert cs[p] == init[p];
        }
      }
    }
  }

  /** Each row contributes at most one hit per column. */
  lemma {:induction false} HitsBound(term: string, data: seq<Row>)
    requires term != []
    ensures |Hits(term, data)| <= 5 * |data|
  {
    if data != [] {
      HitsBound(term, data[..|data| - 1]);
      ColumnHitsShape(term, data[|data| - 1], Columns);
    }
  }

  /** Search visits every column. */
  lemma ColumnListed(c: Column)
    ensures c in Columns
  {
    assert Columns[Rank(c)] == c;
  }

  /** Every hit is one the test emits for a row of the data, and every emitted pair is a hit. */
  lemma {:induction false} HitsMembers(term: string, data: seq<Row>)
    requires term != []
    ensures forall h :: h in Hits(term, data) <==>
      h.row in data && Emits(term, Lower(ColumnValue(h.row, h.column))) && h.sim == Sim(term, Lower(ColumnValue(h.row, h.column)))
  {
    if data != [] {
      var init := data[..|data| - 1];
      var last := data[|data| - 1];
      assert data == init + [last];
      HitsMembers(term, init);
      ColumnHitsShape(term, last, Columns);
      assert Hits(term, data) == Hits(term, init) + ColumnHits(term, last, Columns);
      forall h: Hit
        ensures h in Hits(term, data) <==>
          h.row in data && Emits(term, Lower(ColumnValue(h.row, h.column))) && h.sim == Sim(term, Lower(ColumnValue(h.row, h.column)))
      {
        assert h in Hits(term, data) <==> h in Hits(term, init) || h in ColumnHits(term, last, Columns);
        assert h.row in data <==> h.row in init || h.row == last;
        ColumnListed(h.column);
      }
    }
  }

  /** A row's hits carry pairwise different columns. */
  lemma RowHitsDistinct(term: string, r: Row)
    requires term != []
    ensures |ColumnHits(term, r, Columns)| <= 5
    ensures forall i, j :: 0 <= i < j < |ColumnHits(term, r, Columns)| ==>
      ColumnHits(term, r, Columns)[i].column != ColumnHits(term, r, Columns)[j].column
  {
    ColumnHitsShape(term, r, Columns);
    ColumnHitsOrdered(term, r, Columns);
  }

  /** search's contract: an empty term gives nothing; otherwise the result holds
      exactly the emitted (row, column) pairs with their similarity in [0, 1], at
      most five per row, highest similarity first. */
  lemma SearchCorrect(term: string, data: seq<Row>)
    ensures term == [] ==> SearchResult(term, data) == []
    ensures term != [] ==> forall h :: h in SearchResult(term, data) <==>
      h.row in data && Emits(term, Lower(ColumnValue(h.row, h.column))) && h.sim == Sim(term, Lower(ColumnValue(h.row, h.column)))
    ensures |SearchResult(term, data)| <= 5 * |data|
    ensures forall h :: h in SearchResult(term, data) ==> 0.0 <= h.sim <= 1.0
    ensures forall i, j :: 0 <= i < j < |SearchResult(term, data)| ==> SearchResult(term, data)[i].sim >= SearchResult(term, data)[j].sim
  {
    if term != [] {
      HitsBound(term, data);
      HitsMembers(term, data);
      var hs := Hits(term, data);
      var r := SearchResult(term, data);
      Sorting.SortSorted(hs, BySim());
      forall h | h in r ensures h in hs {
        assert h in multiset(r);
      }
      forall h | h in hs ensures h in r {
        assert h in multiset(hs);
      }
    }
  }

  /** The coordinate cell as sheet_to_json gives it: a string, or some other value. */
  datatype Cell = Text(s: string) | Other

  /** The text of a coordinate cell with its parentheses removed, trimmed. */
  function Cleaned(s: string): string
  {
    Trim(RemoveChars(s, {'(', ')'}))
  }

  /** The parts of the cleaned text between commas, each trimmed. */
  function CoordParts(s: string): (parts: seq<string>)
  {
    TrimEach(Split(Cleaned(s), ','))
  }

  /** Every part trimmed (the map(s => s.trim()) of loadData). */
  function TrimEach(parts: seq<string>): (r: seq<string>)
    ensures |r| == |parts|
    ensures forall k :: 0 <= k < |parts| ==> r[k] == Trim(parts[k])
  {
    if parts == [] then [] else [Trim(parts[0])] + TrimEach(parts[1..])
  }

  /** The coordinate parsing of loadData: both NaN unless the cell is a string with
      exactly two comma-separated parts; then part 0 and part 1 through parseFloat. */
  function ParseCoords(cell: Cell, parseFloat: string -> Number): (xy: (Number, Number))
  {
    if cell.Other? then (NaN, NaN)
    else
      var parts := CoordParts(cell.s);
      if |parts| == 2 then (parseFloat(parts[0]), parseFloat(parts[1])) else (NaN, NaN)
  }

  /** Exactly one comma in the text decides whether the parts are read. */
  lemma ParseCoordsCases(cell: Cell, parseFloat: string -> Number)
    ensures cell.Other? ==> ParseCoords(cell, parseFloat) == (NaN, NaN)
    ensures cell.Text? && Count(cell.s, ',') != 1 ==> ParseCoords(cell, parseFloat) == (NaN, NaN)
    ensures cell.Text? && Count(cell.s, ',') == 1 ==>
      (|CoordParts(cell.s)| == 2 &&
       ParseCoords(cell, parseFloat) == (parseFloat(CoordParts(cell.s)[0]), parseFloat(CoordParts(cell.s)[1])))
  {
    if cell.Text? {
      var removed := RemoveChars(cell.s, {'(', ')'});
      RemoveCharsKeepsCount(cell.s, {'(', ')'}, ',');
      TrimKeepsCount(removed, ',');
      SplitCount(Cleaned(cell.s), ',');
    }
  }

  /** A cell written as "(a,b)" with clean halves parses to parseFloat of each half. */
  lemma ParseCoordsWritten(a: string, b: string, parseFloat: string -> Number)
    requires forall k :: 0 <= k < |a| ==> a[k] != ',' && a[k] != '(' && a[k] != ')'
    requires forall k :: 0 <= k < |b| ==> b[k] != ',' && b[k] != '(' && b[k] != ')'
    requires a != [] && !IsJsSpace(a[0]) && b != [] && !IsJsSpace(b[|b| - 1])
    ensures ParseCoords(Text("(" + a + "," + b + ")"), parseFloat) == (parseFloat(Trim(a)), parseFloat(Trim(b)))
  {
    var s := "(" + a + "," + b + ")";
    var inner := a + [','] + b;
    WrittenShape(a, b);
    InnerClean(a, b);
    CleanedWritten(inner);
    assert Cleaned(s) == inner;
    SplitWritten(a, b);
    assert CoordParts(s) == TrimEach([a, b]);
    TrimEachPair([a, b]);
  }

  lemma InnerClean(a: string, b: string)
    requires forall k :: 0 <= k < |a| ==> a[k] != ',' && a[k] != '(' && a[k] != ')'
    requires forall k :: 0 <= k < |b| ==> b[k] != ',' && b[k] != '(' && b[k] != ')'
    requires a != [] && !IsJsSpace(a[0]) && b != [] && !IsJsSpace(b[|b| - 1])
    ensures forall k :: 0 <= k < |a + [','] + b| ==> (a + [','] + b)[k] != '(' && (a + [','] + b)[k] != ')'
    ensures !IsJsSpace((a + [','] + b)[0]) && !IsJsSpace((a + [','] + b)[|a + [','] + b| - 1])
    ensures ',' !in a && ',' !in b
  {
  }

  lemma WrittenShape(a: string, b: string)
    ensures "(" + a + "," + b + ")" == ['('] + (a + [','] + b) + [')']
  {
  }

  lemma TrimEachPair(parts: seq<string>)
    requires |parts| == 2
    ensures TrimEach(parts) == [Trim(parts[0]), Trim(parts[1])]
  {
  }

  lemma SplitWritten(a: string, b: string)
    requires ',' !in a && ',' !in b
    ensures Split(a + [','] + b, ',') == [a, b]
  {
    SplitAtFirst(a, b, ',');
    SplitNoSep(b, ',');
  }

  lemma CleanedWritten(inner: string)
    requires forall k :: 0 <= k < |inner| ==> inner[k] != '(' && inner[k] != ')'
    requires inner != [] && !IsJsSpace(inner[0]) && !IsJsSpace(inner[|inner| - 1])
    ensures Cleaned(['('] + inner + [')']) == inner
  {
    var cs := {'(', ')'};
    var removed := RemoveChars(['('] + inner + [')'], cs);
    assert removed == inner by {
      RemoveCharsAppend(['('] + inner, [')'], cs);
      RemoveCharsAppend(['('], inner, cs);
      RemoveCharsNone(inner, cs);
      assert RemoveChars([')'], cs) == [];
      assert RemoveChars(['('], cs) == [];
    }
    TrimFixed(inner);
  }

  /** The loaded data sets, keyed by data-source id in insertion order. */
  datatype Source = Source(id: string, rows: seq<Row>)

  function Flatten(sources: seq<Source>): (rows: seq<Row>)
  {
    if sources == [] then [] else sources[0].rows + Flatten(sources[1..])
  }

  function Lookup(sources: seq<Source>, id: string): (rows: seq<Row>)
  {
    if sources == [] then [] else if sources[0].id == id then sources[0].rows else Lookup(sources[1..], id)
  }

  /** getCurrentData: every data set concatenated for 'both', otherwise the data set
      with the selected id, or nothing for an unknown id. */
  function GetCurrentData(sel: string, sources: seq<Source>): (rows: seq<Row>)
  {
    if sel == "both" then Flatten(sources) else Lookup(sources, sel)
  }

  lemma {:induction false} GetCurrentDataCorrect(sel: string, sources: seq<Source>)
    ensures sel == "both" ==> forall r :: r in GetCurrentData(sel, sources) <==> exists k :: 0 <= k < |sources| && r in sources[k].rows
    ensures sel != "both" && (forall k :: 0 <= k < |sources| ==> sources[k].id != sel) ==> GetCurrentData(sel, sources) == []
    ensures sel != "both" ==> forall k :: 0 <= k < |sources| && sources[k].id == sel && (forall p :: 0 <= p < k ==> sources[p].id != sel) ==>
      GetCurrentData(sel, sources) == sources[k].rows
  {
    FlattenMembers(sources);
    LookupFirst(sources, sel);
  }

  lemma {:induction false} FlattenMembers(sources: seq<Source>)
    ensures forall r :: r in Flatten(sources) <==> exists k :: 0 <= k < |sources| && r in sources[k].rows
  {
    if sources != [] {
      FlattenMembers(sources[1..]);
      forall r | r in Flatten(sources) ensures exists k :: 0 <= k < |sources| && r in sources[k].rows {
        if r !in sources[0].rows {
          assert r in Flatten(sources[1..]);
          var k :| 0 <= k < |sources[1..]| && r in sources[1..][k].rows;
          assert r in sources[k + 1].rows;
        }
      }
      forall r | exists k :: 0 <= k < |sources| && r in sources[k].rows ensures r in Flatten(sources) {
        var k :| 0 <= k < |sources| && r in sources[k].rows;
        if k > 0 {
          assert r in sources[1..][k - 1].rows;
        }
      }
    }
  }

  lemma {:induction false} LookupFirst(sources: seq<Source>, id: string)
    ensures (forall k :: 0 <= k < |sources| ==> sources[k].id != id) ==> Lookup(sources, id) == []
    ensures forall k :: 0 <= k < |sources| && sources[k].id == id && (forall p :: 0 <= p < k ==> sources[p].id != id) ==>
      Lookup(sources, id) == sources[k].rows
  {
    if sources != [] {
      LookupFirst(sources[1..], id);
      if sources[0].id != id {
        forall k | 0 <= k < |sources| && sources[k].id == id && (forall p :: 0 <= p < k ==> sources[p].id != id)
          ensures Lookup(sources, id) == sources[k].rows
        {
          assert k > 0;
          assert sources[1..][k - 1] == sources[k];
          forall p | 0 <= p < k - 1 ensures sources[1..][p].id != id {
            assert sources[1..][p] == sources[p + 1];
          }
        }
        if forall k :: 0 <= k < |sources| ==> sources[k].id != id {
          forall k | 0 <= k < |sources[1..]| ensures sources[1..][k].id != id {
            assert sources[1..][k] == sources[k + 1];
          }
        }
      }
    }
  }

  /** The four input boxes, in the order handleSearch scans them. */
  datatype Input = NameInput | ModernInput | IndexInput | GeneralInput

  /** The first input whose trimmed value is non-empty, with that value. */
  function FirstActive(name: string, modern: string, index: string, general: string): Option<(Input, string)>
  {
    if Trim(name) != [] then Some((NameInput, name))
    else if Trim(modern) != [] then Some((ModernInput, modern))
    else if Trim(index) != [] then Some((IndexInput, index))
    else if Trim(general) != [] then Some((GeneralInput, general))
    else None
  }

  /** The active input is the first one, in the order name, modern, index, general,
      whose trimmed value is non-empty; there is none exactly when all are blank. */
  lemma FirstActiveCorrect(name: string, modern: string, index: string, general: string)
    ensures var r := FirstActive(name, modern, index, general);
      && (r.None? <==> Trim(name) == [] && Trim(modern) == [] && Trim(index) == [] && Trim(general) == [])
      && (r.Some? ==> Trim(r.value.1) != [] && Lower(Trim(r.value.1)) != [])
      && (r.Some? && r.value.0 == NameInput ==> r.value.1 == name)
      && (r.Some? && r.value.0 == ModernInput ==> r.value.1 == modern && Trim(name) == [])
      && (r.Some? && r.value.0 == IndexInput ==> r.value.1 == index && Trim(name) == [] && Trim(modern) == [])
      && (r.Some? && r.value.0 == GeneralInput ==> r.value.1 == general && Trim(name) == [] && Trim(modern) == [] && Trim(index) == [])
  {
  }

  datatype Option<T> = None | Some(value: T)

  /** The 'best' mode keeps the top hit only. */
  function FinalHits(hits: seq<Hit>, mode: string): (r: seq<Hit>)
    ensures mode == "best" ==> |r| <= 1 && (hits != [] ==> r == [hits[0]])
    ensures mode != "best" ==> r == hits
  {
    if mode == "best" then hits[..if |hits| < 1 then |hits| else 1] else hits
  }

  const EnterOneField := "Enter one field"

  /** The inputs, the error line, the displayed results and the suggestion box. */
  class SearchPage {
    var name: string
    var modern: string
    var index: string
    var general: string
    var errorMessage: string
    var currentResults: seq<Hit>
    var suggestionsVisible: bool

    constructor ()
      ensures name == [] && modern == [] && index == [] && general == []
      ensures errorMessage == [] && currentResults == [] && !suggestionsVisible
    {
      name, modern, index, general := [], [], [], [];
      errorMessage, currentResults, suggestionsVisible := [], [], false;
    }

    /** handleSearch: searches with the first filled input, trimmed and lower-cased;
        with none filled it only shows the error. */
    method HandleSearch(sel: string, sources: seq<Source>, mode: string)
      modifies this
      ensures name == old(name) && modern == old(modern) && index == old(index) && general == old(general)
      ensures var active := FirstActive(old(name), old(modern), old(index), old(general));
        && (active.None? ==> (errorMessage == EnterOneField && currentResults == old(currentResults)
              && suggestionsVisible == old(suggestionsVisible)))
        && (active.Some? ==> (errorMessage == [] && !suggestionsVisible
              && currentResults == FinalHits(SearchResult(Lower(Trim(active.value.1)), GetCurrentData(sel, sources)), mode)))
    {
      var active := FirstActive(name, modern, index, general);
      if active.None? {
        errorMessage := EnterOneField;
        return;
      }
      var hits := Search(Lower(Trim(active.value.1)), GetCurrentData(sel, sources));
      ShowHits(hits, mode);
    }

    /** displayResults of the final hits, then the suggestion box and error line cleared. */
    method ShowHits(hits: seq<Hit>, mode: string)
      modifies this
      ensures name == old(name) && modern == old(modern) && index == old(index) && general == old(general)
      ensures currentResults == FinalHits(hits, mode) && errorMessage == [] && !suggestionsVisible
    {
      currentResults := FinalHits(hits, mode);
      suggestionsVisible := false;
      errorMessage := [];
    }
  }
}
