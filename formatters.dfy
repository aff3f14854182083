/**
 * How index.js shapes provider results into rows before handing them to the
 * table library: the keyword-score row, the list output, the per-keyword
 * visibility rows and the two collection rows.
 *
 * JavaScript numbers are modelled as `real` (NaN is not modelled); a value
 * the provider may leave out (`undefined` or `null`) is an `Option`.
 */
module Formatters {
  import opened Wrappers
  import opened Text

  /** What a table cell holds: a number, a string, or nothing (`undefined`/`null`). */
  datatype Cell = Num(n: real) | Str(s: string) | Empty

  /** The text `formatCollectionVisibility` puts in place of a falsy rank. */
  const NotAvailable: Cell := Str("N/A")

  /**
   * A table row: a plain array of cells, or a one-key object `{key: cells}`,
   * which the table library shows with the key in the first column.
   */
  datatype Row = Plain(cells: seq<Cell>) | Labeled(key: string, cells: seq<Cell>)

  /** A table: its header and its rows, in push order. */
  datatype Table = Table(head: seq<string>, rows: seq<Row>)

  /** Result of the `scores` provider operation. */
  datatype KeywordScore = KeywordScore(traffic: Traffic, difficulty: Difficulty)
  datatype Traffic = Traffic(score: real)
  datatype Difficulty = Difficulty(score: real, competitors: Competitors)
  datatype Competitors = Competitors(score: real)

  /** One keyword's entry in a visibility report. */
  datatype Metrics = Metrics(traffic: real, rank: Option<real>, score: real)

  /**
   * A property met by `for … in` over the report's `keywords` object, in
   * enumeration order; `own` is false for a property inherited through the
   * prototype chain, which `hasOwnProperty` filters out.
   */
  datatype Property = Property(key: string, metrics: Metrics, own: bool)

  /** A top-chart position (which may be missing) and its score. */
  datatype Collection = Collection(rank: Option<real>, score: real)
  datatype Collections = Collections(global: Collection, category: Collection)

  /** Result of the `visibility` provider operation. */
  datatype VisibilityReport = VisibilityReport(score: real, keywords: seq<Property>, collections: Collections)

  /** What `handleVisibilityResult` prints: the score line's number and two tables. */
  datatype VisibilityOutput = VisibilityOutput(score: real, keywordTable: Table, collectionTable: Table)

  // ---------------------------------------------------------------------
  // Reading a table by its header

  /** Position of the first header equal to `name`, if any. */
  function ColumnOf(head: seq<string>, name: string): (col: Option<nat>)
    ensures col.Some? ==> col.value < |head| && head[col.value] == name
    ensures col.Some? ==> forall j :: 0 <= j < col.value ==> head[j] != name
    ensures col.None? ==> name !in head
  {
    if head == [] then None
    else if head[0] == name then Some(0)
    else match ColumnOf(head[1..], name)
      case None => None
      case Some(j) => Some(j + 1)
  }

  /** The cell shown in column `col` of a row (a key takes the first column). */
  function CellAt(row: Row, col: nat): Option<Cell>
  {
    match row
    case Plain(cells) => if col < |cells| then Some(cells[col]) else None
    case Labeled(key, cells) =>
      if col == 0 then Some(Str(key))
      else if col - 1 < |cells| then Some(cells[col - 1])
      else None
  }

  /** The cell shown under the header `name` in row `i`, if there is one. */
  function CellUnder(t: Table, i: nat, name: string): Option<Cell>
  {
    if i < |t.rows| then
      match ColumnOf(t.head, name)
      case None => None
      case Some(col) => CellAt(t.rows[i], col)
    else None
  }

  // ---------------------------------------------------------------------
  // scores

  /**
   * `handleKeywordResult`: one row under the header Traffic, Difficulty,
   * Competitors, with each score under its own heading.
   */
  function KeywordScoreTable(result: KeywordScore): (t: Table)
    ensures |t.rows| == 1
    ensures CellUnder(t, 0, "Traffic") == Some(Num(result.traffic.score))
    ensures CellUnder(t, 0, "Difficulty") == Some(Num(result.difficulty.score))
    ensures CellUnder(t, 0, "Competitors") == Some(Num(result.difficulty.competitors.score))
  {
    Table(["Traffic", "Difficulty", "Competitors"],
          [Plain([Num(result.traffic.score), Num(result.difficulty.score), Num(result.difficulty.competitors.score)])])
  }

  // ---------------------------------------------------------------------
  // suggest and app

  /** `printListResult`: the items joined by single newlines. */
  function ListOutput(items: seq<string>): (text: string)
    ensures |text| == TotalLength(items) + (if items == [] then 0 else |items| - 1)
  {
    Join(items, "\n")
  }

  /**
   * The list output loses nothing: when no item contains a newline, the items
   * are recovered in order by splitting the output at its newlines.
   */
  lemma ListOutputLossless(items: seq<string>)
    requires items != []
    requires forall i :: 0 <= i < |items| ==> '\n' !in items[i]
    ensures Split(ListOutput(items), '\n') == items
    ensures Count(ListOutput(items), '\n') == |items| - 1
  {
    SplitJoin(items, '\n');
  }

  /** No items print as nothing; otherwise the output starts with the first item and ends with the last. */
  lemma ListOutputEnds(items: seq<string>)
    ensures items == [] ==> ListOutput(items) == ""
    ensures items != [] ==> |items[0]| <= |ListOutput(items)| && ListOutput(items)[..|items[0]|] == items[0]
    ensures items != [] ==>
      (|items[|items| - 1]| <= |ListOutput(items)| && ListOutput(items)[|ListOutput(items)| - |items[|items| - 1]|..] == items[|items| - 1])
  {
    JoinEnds(items, "\n");
  }

  /** The worked case: two items, one separator, none at either end. */
  lemma ListOutputExample()
    ensures ListOutput(["alpha", "beta"]) == "alpha\nbeta"
  {
    JoinCons("alpha", ["beta"], "\n");
  }

  // ---------------------------------------------------------------------
  // visibility: keywords

  /** The own properties, in enumeration order (defined from the back, as the loop grows). */
  function Own(props: seq<Property>): (kept: seq<Property>)
    ensures |kept| <= |props|
    ensures forall i :: 0 <= i < |kept| ==> kept[i].own && kept[i] in props
  {
    if props == [] then []
    else Own(props[..|props| - 1]) + (if props[|props| - 1].own then [props[|props| - 1]] else [])
  }

  /** A property is kept exactly when it is an own property. */
  lemma {:induction false} OwnMembers(props: seq<Property>, p: Property)
    ensures p in Own(props) <==> p in props && p.own
  {
    if props != [] {
      var init := props[..|props| - 1];
      OwnMembers(init, p);
      assert props == init + [props[|props| - 1]];
    }
  }

  /** A single enumerated property is kept, once, exactly when it is an own property. */
  lemma OwnSingle(p: Property)
    ensures Own([p]) == if p.own then [p] else []
  {
    assert [p][..0] == [];
  }

  /**
   * Filtering distributes over concatenation: the own properties of a longer
   * enumeration are those of its first part followed by those of the rest, so
   * each is kept once and in enumeration order, inherited ones in between or not.
   */
  lemma {:induction false} OwnAppend(xs: seq<Property>, ys: seq<Property>)
    ensures Own(xs + ys) == Own(xs) + Own(ys)
  {
    if ys == [] {
      assert xs + ys == xs;
    } else {
      OwnAppend(xs, ys[..|ys| - 1]);
      assert (xs + ys)[..|xs + ys| - 1] == xs + ys[..|ys| - 1];
    }
  }

  /** The worked case: an inherited property between two own ones is skipped and the order kept. */
  lemma OwnSkipsInherited(a: Property, x: Property, b: Property)
    requires a.own && !x.own && b.own
    ensures Own([a, x, b]) == [a, b]
  {
    assert [a, x, b] == [a, x] + [b] && [a, x] == [a] + [x];
    OwnAppend([a, x], [b]);
    OwnAppend([a], [x]);
    OwnSingle(a);
    OwnSingle(x);
    OwnSingle(b);
  }

  /** For an object with only own properties, nothing is dropped and the order is the enumeration order. */
  lemma {:induction false} OwnAllOwn(props: seq<Property>)
    requires forall i :: 0 <= i < |props| ==> props[i].own
    ensures Own(props) == props
  {
    if props != [] {
      OwnAllOwn(props[..|props| - 1]);
    }
  }

  /** The cells of a keyword's row, in the order traffic, rank, score. */
  function KeywordCells(m: Metrics): (cells: seq<Cell>)
    ensures |cells| == 3
    ensures cells[0] == Num(m.traffic) && cells[2] == Num(m.score)
    ensures m.rank.None? <==> cells[1] == Empty
    ensures m.rank.Some? ==> cells[1] == Num(m.rank.value)
    ensures cells[1] != NotAvailable
  {
    [Num(m.traffic), match m.rank case None => Empty case Some(r) => Num(r), Num(m.score)]
  }

  /**
   * `formatKeywordVisibility`: one row `{key: [traffic, rank, score]}` per own
   * property, in enumeration order; the rank is passed through as it is.
   */
  method FormatKeywordVisibility(keywords: seq<Property>) returns (rows: seq<Row>)
    ensures |rows| == |Own(keywords)|
    ensures forall i :: 0 <= i < |rows| ==>
      rows[i] == Labeled(Own(keywords)[i].key, KeywordCells(Own(keywords)[i].metrics))
  {
    rows := [];
    var i := 0;
    while i < |keywords|
      invariant 0 <= i <= |keywords|
      invariant |rows| == |Own(keywords[..i])|
      invariant forall j :: 0 <= j < |rows| ==>
        rows[j] == Labeled(Own(keywords[..i])[j].key, KeywordCells(Own(keywords[..i])[j].metrics))
    {
      assert keywords[..i + 1][..i] == keywords[..i];
      if keywords[i].own {
        var metrics := keywords[i].metrics;
        rows := rows + [Labeled(keywords[i].key, KeywordCells(metrics))];
      }
      i := i + 1;
    }
    assert keywords[..i] == keywords;
  }

  // ---------------------------------------------------------------------
  // visibility: collections

  /** JavaScript falsiness of a rank: missing, `null` or zero. */
  predicate Falsy(rank: Option<real>): (falsy: bool)
    ensures rank == None ==> falsy
    ensures rank == Some(0.0) ==> falsy
    ensures forall r :: rank == Some(r) && r != 0.0 ==> !falsy
  {
    rank.None? || rank.value == 0.0
  }

  /** A collection row as index.js builds it: `[rank || 'N/A', score]` under the collection's name. */
  predicate ShowsCollection(row: Row, name: string, c: Collection)
  {
    && row.Labeled? && row.key == name && |row.cells| == 2
    && (row.cells[0] == NotAvailable <==> Falsy(c.rank))
    && (!Falsy(c.rank) ==> row.cells[0] == Num(c.rank.value))
    && row.cells[1] == Num(c.score)
  }

  /** `formatCollectionVisibility`: exactly two rows, global first, then category. */
  function FormatCollectionVisibility(collections: Collections): (rows: seq<Row>)
    ensures |rows| == 2
    ensures ShowsCollection(rows[0], "global", collections.global)
    ensures ShowsCollection(rows[1], "category", collections.category)
  {
    [Labeled("global", [RankOrNotAvailable(collections.global.rank), Num(collections.global.score)]),
     Labeled("category", [RankOrNotAvailable(collections.category.rank), Num(collections.category.score)])]
  }

  /** `rank || 'N/A'`: the rank itself when it is truthy, "N/A" otherwise. */
  function RankOrNotAvailable(rank: Option<real>): (cell: Cell)
    ensures cell == NotAvailable <==> Falsy(rank)
    ensures !Falsy(rank) ==> cell == Num(rank.value)
  {
    if Falsy(rank) then NotAvailable else Num(rank.value)
  }

  // ---------------------------------------------------------------------
  // visibility: the whole output

  const KeywordHead: seq<string> := ["Keyword", "Traffic", "Rank", "Score"]
  const CollectionHead: seq<string> := ["Collections", "global", "category"]

  /**
   * `handleVisibilityResult`: the report's score, a keyword table with one
   * row per own keyword read by its headers, and a collection table of two
   * rows. The collection table's header names the collections, not the
   * columns, so the rank sits under `global` and the score under `category`.
   */
  method HandleVisibilityResult(report: VisibilityReport) returns (out: VisibilityOutput)
    ensures out.score == report.score
    ensures |out.keywordTable.rows| == |Own(report.keywords)|
    ensures forall i :: 0 <= i < |Own(report.keywords)| ==>
      var m := Own(report.keywords)[i].metrics;
      && CellUnder(out.keywordTable, i, "Keyword") == Some(Str(Own(report.keywords)[i].key))
      && CellUnder(out.keywordTable, i, "Traffic") == Some(Num(m.traffic))
      && CellUnder(out.keywordTable, i, "Rank") == Some(KeywordCells(m)[1])
      && CellUnder(out.keywordTable, i, "Score") == Some(Num(m.score))
    ensures |out.collectionTable.rows| == 2
    ensures ShowsCollection(out.collectionTable.rows[0], "global", report.collections.global)
    ensures ShowsCollection(out.collectionTable.rows[1], "category", report.collections.category)
    ensures CellUnder(out.collectionTable, 0, "Collections") == Some(Str("global"))
    ensures CellUnder(out.collectionTable, 1, "Collections") == Some(Str("category"))
    ensures CellUnder(out.collectionTable, 0, "global") == Some(RankOrNotAvailable(report.collections.global.rank))
    ensures CellUnder(out.collectionTable, 0, "category") == Some(Num(report.collections.global.score))
  {
    var apps := FormatKeywordVisibility(report.keywords);
    var collections := FormatCollectionVisibility(report.collections);
    out := VisibilityOutput(report.score, Table(KeywordHead, apps), Table(CollectionHead, collections));
  }

  /**
   * A zero rank is treated differently by the two visibility formatters: the
   * keyword row shows the 0, the collection row shows "N/A".
   */
  lemma ZeroRankContrast(m: Metrics, c: Collection)
    requires m.rank == Some(0.0) && c.rank == Some(0.0)
    ensures KeywordCells(m)[1] == Num(0.0)
    ensures FormatCollectionVisibility(Collections(c, c))[0].cells[0] == NotAvailable
  {
  }

  /**
   * A report whose keyword and global ranks are missing: the keyword row
   * leaves the rank cell empty, the global row shows "N/A", the category row
   * shows its rank.
   */
  lemma VisibilityExample()
    ensures var m := Metrics(1.0, None, 9.0);
      KeywordCells(m) == [Num(1.0), Empty, Num(9.0)]
    ensures var c := Collections(Collection(None, 5.0), Collection(Some(3.0), 7.0));
      FormatCollectionVisibility(c) == [Labeled("global", [NotAvailable, Num(5.0)]), Labeled("category", [Num(3.0), Num(7.0)])]
  {
  }
}
