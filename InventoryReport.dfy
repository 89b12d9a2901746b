/** The record pipeline of the Brain Image Library inventory report: from the fetched list of
    inventory items to the data behind every view the dashboard draws (full table sorted by file
    count, list of collections to pick from, table of the picked collection, pie chart of its
    file counts and the number of legend columns). */
module InventoryReport {
  import opened Wrappers
  import opened Sequences
  import opened StringOrder
  import opened CollectionCode

  /** One object of the daily inventory JSON array, reduced to the fields the report reads. */
  datatype Item = Item(bildid: string, bildirectory: string, numberOfFiles: nat, size: Option<nat>)

  /** A row of the data frame once the two derived columns `collection` and `pretty_size`
      have been added. */
  datatype Row = Row(
    bildid: string,
    bildirectory: string,
    numberOfFiles: nat,
    size: Option<nat>,
    collection: Option<string>,
    prettySize: Option<string>)

  /** A row of a displayed table: the columns Collection, Brain ID, Number of Files and Size. */
  datatype TableRow = TableRow(collection: Option<string>, bildid: string, numberOfFiles: nat, prettySize: Option<string>)

  /** One entry of `pie_data`: a `bildid` index label with its `number_of_files` value. */
  datatype Wedge = Wedge(bildid: string, numberOfFiles: nat)

  /** What one run shows: every view; or the two tables followed by the error message, when
      drawing the pie chart fails; or only the error message. */
  datatype Report =
    | Loaded(
        preview: seq<TableRow>,
        options: seq<string>,
        selected: Option<string>,
        filtered: seq<TableRow>,
        pie: seq<Wedge>,
        legendColumns: nat)
    | PlotFailed(
        preview: seq<TableRow>,
        options: seq<string>,
        selected: Option<string>,
        filtered: seq<TableRow>,
        message: string)
    | Failed(message: string)

  /** `humanize.naturalsize(size, binary=True)`; its output is not interpreted by the model. */
  type Formatter = nat -> string

  /** What `st.selectbox` hands back for a list of options; `None` stands for no selection. */
  type Chooser = seq<string> -> Option<string>

  const ERROR_PREFIX: string := "Failed to load or process data: "

  /** The text of the `KeyError` raised by `df["bildirectory"]` when the inventory is an empty
      list: `pd.DataFrame([])` has no columns at all. */
  const MISSING_COLUMN: string := "'bildirectory'"

  /** `st.selectbox` returns `None` for an empty list of options and one of the options
      otherwise. */
  ghost predicate PicksAnOption(choose: Chooser) {
    && choose([]) == None
    && forall o: seq<string> :: o != [] ==> choose(o).Some? && choose(o).value in o
  }

  /** Number of legend entries per column of the pie chart legend. */
  const LEGEND_COLUMN_SIZE: nat := 25

  // ---------------------------------------------------------------------------------------
  // Derived columns

  /** The original fields of a row. */
  function ItemOf(r: Row): Item {
    Item(r.bildid, r.bildirectory, r.numberOfFiles, r.size)
  }

  /** The derived columns agree with the fields they are computed from: the collection code is
      what the pattern finds in the directory, and the readable size is present exactly when
      the size is. */
  predicate Consistent(r: Row, fmt: Formatter) {
    && r.collection == ExtractCollection(r.bildirectory)
    && (r.prettySize.None? <==> r.size.None?)
    && (r.size.Some? ==> r.prettySize == Some(fmt(r.size.value)))
  }

  /** Both derived columns for one item. */
  function DeriveRow(fmt: Formatter, item: Item): (r: Row)
    ensures ItemOf(r) == item
    ensures Consistent(r, fmt)
    ensures r.collection.Some? ==> IsCode(r.collection.value)
  {
    Row(item.bildid, item.bildirectory, item.numberOfFiles, item.size,
        ExtractCollection(item.bildirectory),
        match item.size
        case Some(s) => Some(fmt(s))
        case None => None)
  }

  /** `df["collection"] = df["bildirectory"].apply(extract_collection)` followed by
      `df["pretty_size"] = df["size"].apply(...)`: one derived row per item, in place. */
  function DeriveColumns(fmt: Formatter, items: seq<Item>): (rows: seq<Row>)
    ensures |rows| == |items|
    ensures Map(ItemOf, rows) == items
    ensures forall i :: 0 <= i < |rows| ==> Consistent(rows[i], fmt)
  {
    Map((item: Item) => DeriveRow(fmt, item), items)
  }

  // ---------------------------------------------------------------------------------------
  // Full table

  function FilesOf(r: Row): nat {
    r.numberOfFiles
  }

  function TableFilesOf(t: TableRow): nat {
    t.numberOfFiles
  }

  /** `df.sort_values(by="number_of_files", ascending=False)`. */
  function SortedRows(rows: seq<Row>): (sorted: seq<Row>)
    ensures multiset(sorted) == multiset(rows)
    ensures NonIncreasing(sorted, FilesOf)
  {
    SortDesc(rows, FilesOf)
  }

  /** The four displayed columns of a row. */
  function Columns(r: Row): TableRow {
    TableRow(r.collection, r.bildid, r.numberOfFiles, r.prettySize)
  }

  /** `preview_df`: the displayed columns of `df_sorted`. */
  function Preview(rows: seq<Row>): (t: seq<TableRow>)
    ensures |t| == |rows|
    ensures multiset(t) == multiset(Map(Columns, rows))
    ensures NonIncreasing(t, TableFilesOf)
  {
    var sorted := SortedRows(rows);
    MapPreservesMultiset(Columns, sorted, rows);
    assert |sorted| == |multiset(sorted)| == |rows|;
    Map(Columns, sorted)
  }

  // ---------------------------------------------------------------------------------------
  // Collection selector

  /** The non-null collection codes present in the rows. */
  function Codes(rows: seq<Row>): set<string> {
    set r | r in rows && r.collection.Some? :: r.collection.value
  }

  /** `sorted(df["collection"].dropna().unique())`. */
  function CollectionOptions(rows: seq<Row>): (options: seq<string>)
    ensures StrictlyAscending(options)
    ensures forall c :: c in options <==> c in Codes(rows)
  {
    if rows == [] then []
    else
      var rest := CollectionOptions(rows[1..]);
      assert rows == [rows[0]] + rows[1..];
      assert forall c :: c in Codes(rows) <==> c in Codes(rows[1..]) || rows[0].collection == Some(c);
      match rows[0].collection
      case None => rest
      case Some(c) => InsertAscending(c, rest)
  }

  // ---------------------------------------------------------------------------------------
  // Views of the selected collection

  /** `df["collection"] == selected_collection`. pandas compares a missing value as unequal to
      everything, so no row is in the `None` collection and a `None` selection matches nothing. */
  predicate InCollection(selected: Option<string>, r: Row) {
    selected.Some? && r.collection == selected
  }

  function CollectionMask(selected: Option<string>): Row -> bool {
    (r: Row) => InCollection(selected, r)
  }

  /** `df[df["collection"] == selected_collection]`: filters `df`, not `df_sorted`. */
  function FilteredRows(rows: seq<Row>, selected: Option<string>): (f: seq<Row>)
    ensures forall r :: r in f ==> r in rows && InCollection(selected, r)
    ensures forall i :: 0 <= i < |rows| && InCollection(selected, rows[i]) ==> rows[i] in f
    ensures forall r | r in rows :: multiset(f)[r] == if InCollection(selected, r) then multiset(rows)[r] else 0
    ensures IsSubsequence(f, rows)
  {
    var f := Filter(CollectionMask(selected), rows);
    assert forall i :: 0 <= i < |rows| && InCollection(selected, rows[i]) ==> multiset(f)[rows[i]] > 0 by {
      forall i | 0 <= i < |rows| && InCollection(selected, rows[i]) ensures multiset(f)[rows[i]] > 0 {
        assert rows[i] in rows;
      }
    }
    f
  }

  /** `filtered_df`: the displayed columns of the selected collection's rows, in input order. */
  function FilteredTable(rows: seq<Row>, selected: Option<string>): (t: seq<TableRow>)
    ensures forall k :: 0 <= k < |t| ==> selected.Some? && t[k].collection == selected
    ensures forall i :: 0 <= i < |rows| && InCollection(selected, rows[i]) ==> Columns(rows[i]) in t
    ensures IsSubsequence(t, Map(Columns, rows))
    ensures |t| == |FilteredRows(rows, selected)|
  {
    var f := FilteredRows(rows, selected);
    MapPreservesSubsequence(Columns, f, rows);
    var t := Map(Columns, f);
    assert forall k :: 0 <= k < |t| ==> selected.Some? && t[k].collection == selected by {
      forall k | 0 <= k < |t| ensures selected.Some? && t[k].collection == selected {
        assert f[k] in f;
      }
    }
    assert forall i :: 0 <= i < |rows| && InCollection(selected, rows[i]) ==> Columns(rows[i]) in t by {
      forall i | 0 <= i < |rows| && InCollection(selected, rows[i]) ensures Columns(rows[i]) in t {
        MapMember(Columns, f, rows[i]);
      }
    }
    t
  }

  function WedgeOf(r: Row): Wedge {
    Wedge(r.bildid, r.numberOfFiles)
  }

  function WedgeFilesOf(w: Wedge): nat {
    w.numberOfFiles
  }

  function PositiveMask(): Wedge -> bool {
    (w: Wedge) => w.numberOfFiles > 0
  }

  /** The rows that get a wedge: in the selected collection and with at least one file. */
  predicate InPie(selected: Option<string>, r: Row) {
    InCollection(selected, r) && r.numberOfFiles > 0
  }

  function PieMask(selected: Option<string>): Row -> bool {
    (r: Row) => InPie(selected, r)
  }

  lemma PieMaskSplits(selected: Option<string>)
    ensures forall r :: PieMask(selected)(r) == (CollectionMask(selected)(r) && PositiveMask()(WedgeOf(r)))
  {
  }

  /** `pie_data`: the selected rows as `bildid -> number_of_files`, without zero counts,
      sorted by count in descending order. */
  function PieInput(rows: seq<Row>, selected: Option<string>): (pie: seq<Wedge>)
    ensures forall k :: 0 <= k < |pie| ==> pie[k].numberOfFiles > 0
    ensures NonIncreasing(pie, WedgeFilesOf)
    ensures multiset(pie) == multiset(Map(WedgeOf, Filter(PieMask(selected), rows)))
  {
    var indexed := Map(WedgeOf, FilteredRows(rows, selected));
    var positive := Filter(PositiveMask(), indexed);
    var pie := SortDesc(positive, WedgeFilesOf);
    PieMaskSplits(selected);
    FilterOfMapOfFilter(PositiveMask(), WedgeOf, CollectionMask(selected), PieMask(selected), rows);
    PermutationMembers(pie, positive);
    pie
  }

  /** Every row of the selected collection that has files gets a wedge. */
  lemma PieInputComplete(rows: seq<Row>, selected: Option<string>, i: nat)
    requires i < |rows| && InPie(selected, rows[i])
    ensures WedgeOf(rows[i]) in PieInput(rows, selected)
  {
    var kept := Filter(PieMask(selected), rows);
    var images := Map(WedgeOf, kept);
    assert rows[i] in rows;
    assert rows[i] in multiset(kept);
    var k :| 0 <= k < |kept| && kept[k] == rows[i];
    assert images[k] in multiset(images);
  }

  /** Every wedge comes from a row of the selected collection that has files. */
  lemma PieInputSound(rows: seq<Row>, selected: Option<string>, w: Wedge)
    requires w in PieInput(rows, selected)
    ensures exists i :: 0 <= i < |rows| && InPie(selected, rows[i]) && w == WedgeOf(rows[i])
  {
    var images := Map(WedgeOf, Filter(PieMask(selected), rows));
    assert w in multiset(PieInput(rows, selected));
    assert w in multiset(images);
    var r := MapFilterMember(WedgeOf, PieMask(selected), rows, w);
    var i :| 0 <= i < |rows| && rows[i] == r;
  }

  /** `labels = list(pie_data.index)`. */
  function Labels(pie: seq<Wedge>): (labels: seq<string>)
    ensures |labels| == |pie|
    ensures forall k :: 0 <= k < |pie| ==> labels[k] == pie[k].bildid
  {
    Map((w: Wedge) => w.bildid, pie)
  }

  /** `num_cols = (len(labels) - 1) // 25 + 1`. Python's `//` rounds toward minus infinity, which
      for the positive divisor 25 is what Dafny's `/` does, also for `len(labels) == 0`. */
  function LegendColumns(n: nat): (cols: nat)
    ensures n == 0 ==> cols == 0
    ensures n > 0 ==> LEGEND_COLUMN_SIZE * (cols - 1) < n <= LEGEND_COLUMN_SIZE * cols
  {
    (n - 1) / LEGEND_COLUMN_SIZE + 1
  }

  // ---------------------------------------------------------------------------------------
  // The whole run

  /** The body of the `try` block of one run, with its `except` branch.
      - A failed fetch or decode arrives as `Failure` and turns into the single error message.
      - An empty inventory has no `bildirectory` column, so line 37 raises before anything is
        drawn.
      - When the pie has no wedge, both tables have been drawn; drawing the pie and its legend
        with `ncol=0` then raises, and the message follows the tables. The text of that
        exception comes from the plotting library and is the parameter `plotError`. */
  function BuildReport(fetched: Result<seq<Item>>, fmt: Formatter, choose: Chooser, plotError: string): (report: Report)
    ensures report.Failed? <==> fetched.Failure? || fetched.value == []
    ensures fetched.Failure? ==> report.message == ERROR_PREFIX + fetched.error
    ensures fetched.Success? && fetched.value == [] ==> report.message == ERROR_PREFIX + MISSING_COLUMN
    ensures report.PlotFailed? ==> report.message == ERROR_PREFIX + plotError
    ensures report.Loaded? ==> report.pie != [] && report.legendColumns >= 1
  {
    match fetched
    case Failure(e) => Failed(ERROR_PREFIX + e)
    case Success(items) =>
      if items == [] then Failed(ERROR_PREFIX + MISSING_COLUMN)
      else
        var df := DeriveColumns(fmt, items);
        var options := CollectionOptions(df);
        var selected := choose(options);
        var pie := PieInput(df, selected);
        if pie == [] then
          PlotFailed(Preview(df), options, selected, FilteredTable(df, selected), ERROR_PREFIX + plotError)
        else
          Loaded(Preview(df), options, selected, FilteredTable(df, selected), pie, LegendColumns(|Labels(pie)|))
  }

  // ---------------------------------------------------------------------------------------
  // Properties across steps

  /** Dropping zero counts leaves the total unchanged: the pie divides exactly the number of
      files of the selected collection. */
  lemma PieTotal(rows: seq<Row>, selected: Option<string>)
    ensures SumOf(PieInput(rows, selected), WedgeFilesOf) == SumOf(FilteredRows(rows, selected), FilesOf)
  {
    var indexed := Map(WedgeOf, FilteredRows(rows, selected));
    var positive := Filter(PositiveMask(), indexed);
    SumOfPermutation(PieInput(rows, selected), positive, WedgeFilesOf);
    SumOfDropZeros(PositiveMask(), indexed, WedgeFilesOf);
    SumOfMap(WedgeOf, FilteredRows(rows, selected), WedgeFilesOf, FilesOf);
  }

  /** Every collection offered for selection has at least one row in the filtered table. */
  lemma OptionHasRows(rows: seq<Row>, c: string)
    requires c in CollectionOptions(rows)
    ensures |FilteredTable(rows, Some(c))| > 0
  {
    assert c in Codes(rows);
    var r :| r in rows && r.collection == Some(c);
    var i :| 0 <= i < |rows| && rows[i] == r;
    assert Columns(rows[i]) in FilteredTable(rows, Some(c));
  }

  /** A record whose directory does not match the pattern stays in the full table with an empty
      collection cell and is in no filtered table. */
  lemma UnmatchedRow(fmt: Formatter, items: seq<Item>, i: nat, selected: Option<string>)
    requires i < |items| && ExtractCollection(items[i].bildirectory).None?
    ensures var df := DeriveColumns(fmt, items);
      && df[i].collection.None?
      && Columns(df[i]) in Preview(df)
      && Columns(df[i]).collection.None?
      && df[i] !in FilteredRows(df, selected)
  {
    var df := DeriveColumns(fmt, items);
    assert Map(ItemOf, df)[i] == items[i];
    assert Columns(df[i]) in Map(Columns, df);
    assert Columns(df[i]) in multiset(Preview(df));
  }

  /** The options of a run are valid codes, exactly those extracted from the items' paths. */
  lemma OptionsFromPaths(items: seq<Item>, fmt: Formatter)
    ensures var options := CollectionOptions(DeriveColumns(fmt, items));
      && (forall c :: c in options ==> IsCode(c))
      && (forall c :: c in options <==>
            exists i :: 0 <= i < |items| && ExtractCollection(items[i].bildirectory) == Some(c))
  {
    var df := DeriveColumns(fmt, items);
    var options := CollectionOptions(df);
    forall i | 0 <= i < |items| ensures df[i].collection == ExtractCollection(items[i].bildirectory) {
      assert Map(ItemOf, df)[i] == items[i];
    }
    forall c | c in options
      ensures IsCode(c) && exists i :: 0 <= i < |items| && ExtractCollection(items[i].bildirectory) == Some(c)
    {
      assert c in Codes(df);
      var r :| r in df && r.collection == Some(c);
      var i :| 0 <= i < |df| && df[i] == r;
      assert Consistent(df[i], fmt);
    }
    forall i | 0 <= i < |items| && ExtractCollection(items[i].bildirectory).Some?
      ensures ExtractCollection(items[i].bildirectory).value in options
    {
      assert df[i] in df;
    }
  }

  /** What a run over a non-empty inventory shows, stated against the fetched items. */
  lemma LoadedReport(items: seq<Item>, fmt: Formatter, choose: Chooser, plotError: string)
    requires items != []
    ensures var report := BuildReport(Success(items), fmt, choose, plotError);
      && !report.Failed?
      && |report.preview| == |items|
      && NonIncreasing(report.preview, TableFilesOf)
      && multiset(report.preview) == multiset(Map(Columns, DeriveColumns(fmt, items)))
      && StrictlyAscending(report.options)
      && (forall c :: c in report.options ==> IsCode(c))
      && (forall c :: c in report.options <==>
            exists i :: 0 <= i < |items| && ExtractCollection(items[i].bildirectory) == Some(c))
      && report.selected == choose(report.options)
      && (forall k :: 0 <= k < |report.filtered| ==> report.filtered[k].collection == report.selected)
      && (report.Loaded? <==> PieInput(DeriveColumns(fmt, items), report.selected) != [])
      && (report.Loaded? ==>
            && (forall k :: 0 <= k < |report.pie| ==> report.pie[k].numberOfFiles > 0)
            && NonIncreasing(report.pie, WedgeFilesOf)
            && report.legendColumns == LegendColumns(|report.pie|))
  {
    var df := DeriveColumns(fmt, items);
    var options := CollectionOptions(df);
    var selected := choose(options);
    var pie := PieInput(df, selected);
    var report := BuildReport(Success(items), fmt, choose, plotError);
    if pie == [] {
      assert report == PlotFailed(Preview(df), options, selected, FilteredTable(df, selected), ERROR_PREFIX + plotError);
    } else {
      assert report == Loaded(Preview(df), options, selected, FilteredTable(df, selected), pie, LegendColumns(|Labels(pie)|));
    }
    OptionsFromPaths(items, fmt);
  }

  /** When no directory matches the pattern there is no option, no selection matches a row,
      and the run ends in the error message after the tables. */
  lemma NoCollectionNoPie(items: seq<Item>, fmt: Formatter, choose: Chooser, plotError: string)
    requires items != []
    requires forall i :: 0 <= i < |items| ==> ExtractCollection(items[i].bildirectory).None?
    ensures var report := BuildReport(Success(items), fmt, choose, plotError);
      && report.PlotFailed?
      && report.options == []
      && report.filtered == []
      && report.message == ERROR_PREFIX + plotError
  {
    var df := DeriveColumns(fmt, items);
    forall i | 0 <= i < |df| ensures df[i].collection.None? {
      assert Map(ItemOf, df)[i] == items[i];
    }
    var options := CollectionOptions(df);
    assert Codes(df) == {};
    assert options == [] by {
      if options != [] {
        HeadIsMember(options);
        assert false;
      }
    }
    var selected := choose(options);
    var f := FilteredRows(df, selected);
    assert f == [];
    var pie := PieInput(df, selected);
    assert pie == [];
    assert BuildReport(Success(items), fmt, choose, plotError)
      == PlotFailed(Preview(df), options, selected, FilteredTable(df, selected), ERROR_PREFIX + plotError);
  }

  /** With a chooser that picks from the offered options, a run with at least one matching
      directory offers options and shows a non-empty table for the selected collection. */
  lemma SelectedTableShown(items: seq<Item>, fmt: Formatter, choose: Chooser, plotError: string)
    requires PicksAnOption(choose)
    requires exists i :: 0 <= i < |items| && ExtractCollection(items[i].bildirectory).Some?
    ensures var report := BuildReport(Success(items), fmt, choose, plotError);
      && !report.Failed?
      && report.options != []
      && report.selected.Some? && report.selected.value in report.options
      && |report.filtered| > 0
  {
    var i :| 0 <= i < |items| && ExtractCollection(items[i].bildirectory).Some?;
    var df := DeriveColumns(fmt, items);
    var options := CollectionOptions(df);
    OptionsFromPaths(items, fmt);
    assert ExtractCollection(items[i].bildirectory).value in options;
    var c := choose(options).value;
    OptionHasRows(df, c);
    var pie := PieInput(df, Some(c));
    var report := BuildReport(Success(items), fmt, choose, plotError);
    if pie == [] {
      assert report == PlotFailed(Preview(df), options, Some(c), FilteredTable(df, Some(c)), ERROR_PREFIX + plotError);
    } else {
      assert report == Loaded(Preview(df), options, Some(c), FilteredTable(df, Some(c)), pie, LegendColumns(|Labels(pie)|));
    }
  }

  // ---------------------------------------------------------------------------------------
  // A worked run: two records of collection `3f`, the second without files and without a size

  const A1: Item := Item("A1", "/bil/data/3f/x", 10, Some(1073741824))
  const A2: Item := Item("A2", "/bil/data/3f/y", 0, None)

  function ScenarioRows(fmt: Formatter): seq<Row> {
    [Row("A1", "/bil/data/3f/x", 10, Some(1073741824), Some("3f"), Some(fmt(1073741824))),
     Row("A2", "/bil/data/3f/y", 0, None, Some("3f"), None)]
  }

  lemma ScenarioDerive(fmt: Formatter)
    ensures DeriveColumns(fmt, [A1, A2]) == ScenarioRows(fmt)
  {
    CanonicalPath("3f", "x");
    CanonicalPath("3f", "y");
    assert ROOT + "3f" + "/" + "x" == A1.bildirectory;
    assert ROOT + "3f" + "/" + "y" == A2.bildirectory;
  }

  lemma ScenarioSorted(fmt: Formatter)
    ensures SortedRows(ScenarioRows(fmt)) == ScenarioRows(fmt)
  {
    var df := ScenarioRows(fmt);
    assert df[1..] == [df[1]] && df[1..][1..] == [];
  }

  lemma ScenarioOptions(fmt: Formatter)
    ensures CollectionOptions(ScenarioRows(fmt)) == ["3f"]
  {
    var df := ScenarioRows(fmt);
    var options := CollectionOptions(df);
    forall c ensures c in options <==> c in ["3f"] {
      assert df[0] in df;
      assert c in Codes(df) <==> c == "3f";
    }
    StrictlyAscendingUnique(options, ["3f"]);
  }

  lemma ScenarioFiltered(fmt: Formatter)
    ensures FilteredRows(ScenarioRows(fmt), Some("3f")) == ScenarioRows(fmt)
  {
    var df := ScenarioRows(fmt);
    var mask := CollectionMask(Some("3f"));
    assert df[1..] == [df[1]] && df[1..][1..] == [];
    assert mask(df[0]) && mask(df[1]);
    assert Filter(mask, df[1..]) == [df[1]];
    assert Filter(mask, df) == [df[0]] + [df[1]];
  }

  lemma ScenarioPie(fmt: Formatter)
    ensures PieInput(ScenarioRows(fmt), Some("3f")) == [Wedge("A1", 10)]
  {
    var df := ScenarioRows(fmt);
    ScenarioFiltered(fmt);
    var w1, w2 := Wedge("A1", 10), Wedge("A2", 0);
    var indexed := Map(WedgeOf, df);
    assert indexed == [w1, w2];
    ScenarioPositive(w1, w2);
    ScenarioSingleSort(w1);
  }

  /** Only the first of two wedges has files. */
  lemma ScenarioPositive(w1: Wedge, w2: Wedge)
    requires w1.numberOfFiles > 0 && w2.numberOfFiles == 0
    ensures Filter(PositiveMask(), [w1, w2]) == [w1]
  {
    assert [w1, w2][1..] == [w2] && [w2][1..] == [];
    assert Filter(PositiveMask(), [w2]) == [];
  }

  lemma ScenarioSingleSort(w: Wedge)
    ensures SortDesc([w], WedgeFilesOf) == [w]
  {
    assert [w][1..] == [];
    assert InsertDesc(w, [], WedgeFilesOf) == [w];
  }

  /** Both tables list A1 before A2. */
  lemma ScenarioTables(fmt: Formatter)
    ensures var t1 := TableRow(Some("3f"), "A1", 10, Some(fmt(1073741824)));
      var t2 := TableRow(Some("3f"), "A2", 0, None);
      Preview(ScenarioRows(fmt)) == [t1, t2] && FilteredTable(ScenarioRows(fmt), Some("3f")) == [t1, t2]
  {
    ScenarioSorted(fmt);
    ScenarioFiltered(fmt);
    var df := ScenarioRows(fmt);
    assert Map(Columns, df) == [Columns(df[0]), Columns(df[1])];
  }

  /** The full table lists A1 before A2, the only collection is `3f`, its table keeps both
      records and the pie has the single wedge of A1. */
  lemma Scenario(fmt: Formatter, plotError: string)
    ensures var first := (options: seq<string>) => if options == [] then None else Some(options[0]);
      var t1 := TableRow(Some("3f"), "A1", 10, Some(fmt(1073741824)));
      var t2 := TableRow(Some("3f"), "A2", 0, None);
      BuildReport(Success([A1, A2]), fmt, first, plotError) == Loaded([t1, t2], ["3f"], Some("3f"), [t1, t2], [Wedge("A1", 10)], 1)
  {
    ScenarioDerive(fmt);
    ScenarioOptions(fmt);
    var df := ScenarioRows(fmt);
    var first := (options: seq<string>) => if options == [] then None else Some(options[0]);
    var t1 := TableRow(Some("3f"), "A1", 10, Some(fmt(1073741824)));
    var t2 := TableRow(Some("3f"), "A2", 0, None);
    assert first(["3f"]) == Some("3f");
    ScenarioPie(fmt);
    assert BuildReport(Success([A1, A2]), fmt, first, plotError)
      == Loaded(Preview(df), ["3f"], Some("3f"), FilteredTable(df, Some("3f")),
                PieInput(df, Some("3f")), LegendColumns(|Labels(PieInput(df, Some("3f")))|));
    ScenarioTables(fmt);
    ScenarioPie(fmt);
    assert LegendColumns(1) == 1;
  }
}
