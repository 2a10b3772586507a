/**
 * What happens when the user clicks transects on the map
 * (`_create_time_series`) and the table then built for the clicked one
 * (`_create_clicked_transect_table`).
 */
module Clicks {
  import opened Outcomes
  import opened Text
  import opened Transects
  import opened Model

  const PointTypeColumn := "Point Type"
  const EastingColumn := "Easting (meters)"
  const NorthingColumn := "Northing (meters)"
  const TimeSeriesTitle := "Time-Series of Data Collected Along the Selected Transect"
  const TableTitle := "Selected Transect's Data"

  /**
   * The time-series plot: always an empty `gv.Points`, titled once a single
   * transect was clicked (no data along the transect is collected yet).
   */
  datatype SeriesPlot = SeriesPlot(title: Option<string>)

  /** A HoloViews table: its key and value dimensions, its data and its title. */
  datatype TableView = TableView(kdims: seq<string>, vdims: seq<string>, data: Table, title: string)

  /** GeoViews' coordinate column names become the projected axis names. */
  function RenameColumn(name: string): (r: string)
    ensures name == "Longitude" ==> r == EastingColumn
    ensures name == "Latitude" ==> r == NorthingColumn
    ensures name != "Longitude" && name != "Latitude" ==> r == name
  {
    if name == "Longitude" then EastingColumn
    else if name == "Latitude" then NorthingColumn
    else name
  }

  function Rename(t: Table): (r: Table)
    ensures |r| == |t|
    ensures forall k :: 0 <= k < |t| ==> r[k] == Column(RenameColumn(t[k].name), t[k].values)
  {
    seq(|t|, k requires 0 <= k < |t| => Column(RenameColumn(t[k].name), t[k].values))
  }

  /** `path.columns(dimensions = ["Longitude", "Latitude", "Transect ID"])` of one transect path. */
  function PathColumns(f: Feature): (r: Table)
    ensures |r| == 3 && r[0].name == "Longitude" && r[1].name == "Latitude" && r[2].name == "Transect ID"
    ensures forall c :: 0 <= c < 3 ==> |r[c].values| == |f.coordinates|
    ensures forall k :: 0 <= k < |f.coordinates| ==>
              r[0].values[k] == Coordinate(f.coordinates[k].x) && r[1].values[k] == Coordinate(f.coordinates[k].y) &&
              r[2].values[k] == Id(f.transectId)
  {
    var n := |f.coordinates|;
    [ Column("Longitude", seq(n, k requires 0 <= k < n => Coordinate(f.coordinates[k].x))),
      Column("Latitude", seq(n, k requires 0 <= k < n => Coordinate(f.coordinates[k].y))),
      Column("Transect ID", seq(n, k requires 0 <= k < n => Id(f.transectId))) ]
  }

  /** The data sent down the clicked-transect pipe for path `f` (lines 432-442). */
  function ClickedData(f: Feature): Table {
    Rename(PathColumns(f)) + [Column(PointTypeColumn, [Label("start"), Label("end")])]
  }

  function Names(t: Table): (r: seq<string>)
    ensures |r| == |t| && forall k :: 0 <= k < |t| ==> r[k] == t[k].name
  {
    seq(|t|, k requires 0 <= k < |t| => t[k].name)
  }

  /** The names of `names` other than `drop`, in order. */
  function Without(names: seq<string>, drop: string): (r: seq<string>)
    ensures forall n :: n in r <==> n in names && n != drop
    ensures |r| <= |names|
  {
    if names == [] then []
    else (if names[0] == drop then [] else [names[0]]) + Without(names[1..], drop)
  }

  /** `_create_clicked_transect_table`: "Point Type" is the key dimension and every other column a value dimension. */
  function ClickedTable(data: Table): (r: TableView)
    ensures r.kdims == [PointTypeColumn] && r.data == data && r.title == TableTitle
    ensures forall n :: n in r.vdims <==> n in Names(data) && n != PointTypeColumn
  {
    TableView([PointTypeColumn], Without(Names(data), PointTypeColumn), data, TableTitle)
  }

  /**
   * The table of a clicked transect shows its start and end point under
   * the projected axis names, its id on both rows, and the point types;
   * its value dimensions are the three data columns in that order.
   */
  lemma ClickedTransectTable(f: Feature)
    requires |f.coordinates| == 2
    ensures var t := ClickedTable(ClickedData(f));
            var p, q := f.coordinates[0], f.coordinates[1];
            t.vdims == [EastingColumn, NorthingColumn, "Transect ID"] &&
            t.data == [ Column(EastingColumn, [Coordinate(p.x), Coordinate(q.x)]),
                        Column(NorthingColumn, [Coordinate(p.y), Coordinate(q.y)]),
                        Column("Transect ID", [Id(f.transectId), Id(f.transectId)]),
                        Column(PointTypeColumn, [Label("start"), Label("end")]) ]
  {
    var p, q := f.coordinates[0], f.coordinates[1];
    var c := PathColumns(f);
    assert c[0].values == [Coordinate(p.x), Coordinate(q.x)];
    assert c[1].values == [Coordinate(p.y), Coordinate(q.y)];
    assert c[2].values == [Id(f.transectId), Id(f.transectId)];
    var d := ClickedData(f);
    var names := Names(d);
    assert names == [EastingColumn, NorthingColumn, "Transect ID", PointTypeColumn];
    assert Without(names[3..], PointTypeColumn) == [];
    assert Without(names[2..], PointTypeColumn) == ["Transect ID"];
    assert Without(names[1..], PointTypeColumn) == [NorthingColumn, "Transect ID"];
  }

  /**
   * Clicking the `k`-th transect of a conversion of `lines` shows that
   * transect's two records as they were written in the file.
   */
  lemma ClickedTransectFromFile(lines: seq<string>, k: nat)
    requires WellFormed(lines) && 2 * k + 1 < |lines|
    ensures Parse(lines).Ok? && k < |Parse(lines).value|
    ensures var s, e := Split(lines[2 * k], ','), Split(lines[2 * k + 1], ',');
            |s| == 4 && |e| == 4 &&
            ClickedTable(ClickedData(Parse(lines).value[k])).data ==
              [ Column(EastingColumn, [Coordinate(s[1]), Coordinate(e[1])]),
                Column(NorthingColumn, [Coordinate(s[2]), Coordinate(e[2])]),
                Column("Transect ID", [Id(DecimalValue(Digits(s[0]))), Id(DecimalValue(Digits(s[0])))]),
                Column(PointTypeColumn, [Label("start"), Label("end")]) ]
  {
    FeatureFields(lines, k);
    ClickedTransectTable(Parse(lines).value[k]);
  }

  /**
   * Lines 428-431: the path of a file's plot at the clicked index, raising
   * as Python does when the plot, or the path, is missing.
   */
  function ClickedPath(plots: map<string, Layer>, file: string, index: nat): (r: Result<Feature, Failure>)
    ensures r.Ok? <==> file in plots && plots[file].PathPlot? && index < |plots[file].paths|
    ensures r.Ok? ==> r.value == plots[file].paths[index]
    ensures file !in plots ==> r == Err(KeyError(file))
    ensures file in plots && plots[file].PathPlot? && index >= |plots[file].paths| ==> r == Err(IndexError(index))
  {
    if file !in plots then Err(KeyError(file))
    else if !plots[file].PathPlot? then Err(AttributeError("split"))
    else if index >= |plots[file].paths| then Err(IndexError(index))
    else Ok(plots[file].paths[index])
  }

  /** One iteration of the loop over the transect files (lines 423-453), for a file with a selection stream. */
  function ClickStep(st: Store, file: string, plot: SeriesPlot): (r: Run<SeriesPlot>)
    requires file in st.selections
  {
    var clicked := st.selections[file];
    if |clicked| == 1 then
      var modal := st.(modalOpens := st.modalOpens + 1);
      match ClickedPath(modal.plots, file, clicked[0])
      case Err(e) => Run(modal, Some(e), plot)
      case Ok(path) =>
        Run(modal.(pushed := modal.pushed + [ClickedData(path)], selections := modal.selections[file := []]),
            None, SeriesPlot(Some(TimeSeriesTitle)))
    else
      var logged := if |clicked| > 1 then st.(log := st.log + [SeveralTransectsClicked(|clicked|)]) else st;
      Run(logged.(selections := logged.selections[file := []]), None, plot)
  }

  /** The loop from file `i` on, with the time-series plot built so far. */
  function TimeSeriesFrom(st: Store, files: seq<string>, i: nat, plot: SeriesPlot): Run<SeriesPlot>
    requires i <= |files|
    decreases |files| - i
  {
    if i == |files| then Run(st, None, plot)
    else if files[i] !in st.selections then Run(st, Some(KeyError(files[i])), plot)
    else
      var r := ClickStep(st, files[i], plot);
      if r.error.Some? then r else TimeSeriesFrom(r.st, files, i + 1, r.value)
  }

  function TimeSeries(st: Store, files: seq<string>): Run<SeriesPlot> {
    TimeSeriesFrom(st, files, 0, SeriesPlot(None))
  }

  /**
   * The callback touches neither plots, disk nor stream sources, keeps the
   * set of selection streams, never refills an empty selection and only
   * appends pushed tables.
   */
  lemma {:induction false} TimeSeriesFrame(st: Store, files: seq<string>, i: nat, plot: SeriesPlot)
    requires i <= |files|
    ensures var r := TimeSeriesFrom(st, files, i, plot);
            r.st.plots == st.plots && r.st.disk == st.disk && r.st.sources == st.sources &&
            r.st.selections.Keys == st.selections.Keys &&
            (forall k :: k in st.selections && st.selections[k] == [] ==> r.st.selections[k] == []) &&
            r.st.modalOpens >= st.modalOpens && |r.st.pushed| >= |st.pushed| && r.st.pushed[..|st.pushed|] == st.pushed
    decreases |files| - i
  {
    if i < |files| && files[i] in st.selections {
      var r1 := ClickStep(st, files[i], plot);
      if r1.error.None? {
        TimeSeriesFrame(r1.st, files, i + 1, r1.value);
        var r := TimeSeriesFrom(r1.st, files, i + 1, r1.value);
        assert r1.st.pushed[..|st.pushed|] == st.pushed;
        assert r.st.pushed[..|st.pushed|] == r.st.pushed[..|r1.st.pushed|][..|st.pushed|];
      }
    }
  }

  /**
   * After a completed callback every transect file's selection is reset to
   * the empty list, the modal was opened once per table pushed, and the plot
   * is titled exactly when a table was pushed.
   */
  lemma {:induction false} TimeSeriesEffects(st: Store, files: seq<string>, i: nat, plot: SeriesPlot)
    requires i <= |files|
    ensures var r := TimeSeriesFrom(st, files, i, plot);
            r.error.None? ==>
              (forall j :: i <= j < |files| ==> files[j] in r.st.selections && r.st.selections[files[j]] == []) &&
              r.st.modalOpens - st.modalOpens == |r.st.pushed| - |st.pushed| &&
              (r.value.title.Some? <==> plot.title.Some? || |r.st.pushed| > |st.pushed|) &&
              (r.value.title.Some? ==> r.value.title == Some(TimeSeriesTitle) || r.value == plot)
    decreases |files| - i
  {
    if i < |files| && files[i] in st.selections {
      var r1 := ClickStep(st, files[i], plot);
      if r1.error.None? {
        TimeSeriesEffects(r1.st, files, i + 1, r1.value);
        TimeSeriesFrame(r1.st, files, i + 1, r1.value);
        assert files[i] in r1.st.selections && r1.st.selections[files[i]] == [];
      }
    }
  }

  /**
   * The tables the loop from file `i` on sends down the pipe: the data of
   * the clicked path of every file clicked exactly once, in file order. A
   * file's selection counts once: the loop resets it after reading it.
   */
  function PushedFrom(plots: map<string, Layer>, selections: map<string, seq<nat>>, files: seq<string>, i: nat): seq<Table>
    requires i <= |files|
    decreases |files| - i
  {
    if i == |files| then []
    else
      var f := files[i];
      var clicked := if f in selections then selections[f] else [];
      var here := if |clicked| == 1 && ClickedPath(plots, f, clicked[0]).Ok? then [ClickedData(plots[f].paths[clicked[0]])] else [];
      here + PushedFrom(plots, if f in selections then selections[f := []] else selections, files, i + 1)
  }

  /** A completed callback has pushed exactly the tables `PushedFrom` lists. */
  lemma {:induction false} TimeSeriesPushed(st: Store, files: seq<string>, i: nat, plot: SeriesPlot)
    requires i <= |files|
    ensures var r := TimeSeriesFrom(st, files, i, plot);
            r.error.None? ==> r.st.pushed == st.pushed + PushedFrom(st.plots, st.selections, files, i)
    decreases |files| - i
  {
    if i < |files| && files[i] in st.selections {
      var r1 := ClickStep(st, files[i], plot);
      if r1.error.None? {
        TimeSeriesPushed(r1.st, files, i + 1, r1.value);
        assert r1.st.plots == st.plots && r1.st.selections == st.selections[files[i] := []];
        var rest := PushedFrom(st.plots, st.selections[files[i] := []], files, i + 1);
        if |st.selections[files[i]]| == 1 {
          assert r1.st.pushed == st.pushed + [ClickedData(st.plots[files[i]].paths[st.selections[files[i]][0]])];
          assert PushedFrom(st.plots, st.selections, files, i) == [ClickedData(st.plots[files[i]].paths[st.selections[files[i]][0]])] + rest;
        } else {
          assert PushedFrom(st.plots, st.selections, files, i) == rest;
        }
      }
    }
  }

  /**
   * When every file has a selection stream, a `KeyError` can only come from
   * a clicked file whose plot is missing.
   */
  lemma {:induction false} TimeSeriesKeyError(st: Store, files: seq<string>, i: nat, plot: SeriesPlot)
    requires i <= |files|
    requires forall j :: i <= j < |files| ==> files[j] in st.selections
    ensures var r := TimeSeriesFrom(st, files, i, plot);
            r.error.Some? && r.error.value.KeyError? ==> r.error.value.key in files[i..] && r.error.value.key !in st.plots
    decreases |files| - i
  {
    if i < |files| {
      var r1 := ClickStep(st, files[i], plot);
      if r1.error.None? {
        TimeSeriesKeyError(r1.st, files, i + 1, r1.value);
        assert files[i..] == [files[i]] + files[i + 1..];
      }
    }
  }

  /** A single click on an existing transect opens the modal, pushes its table and titles the plot. */
  lemma SingleClick(st: Store, file: string, index: nat, plot: SeriesPlot)
    requires file in st.selections && st.selections[file] == [index]
    requires file in st.plots && st.plots[file].PathPlot? && index < |st.plots[file].paths|
    ensures TimeSeriesFrom(st, [file], 0, plot)
         == Run(st.(modalOpens := st.modalOpens + 1,
                    pushed := st.pushed + [ClickedData(st.plots[file].paths[index])],
                    selections := st.selections[file := []]),
                None, SeriesPlot(Some(TimeSeriesTitle)))
  {
  }

  /** Several clicks on one file print the diagnostic, reset the selection and leave the plot as it was. */
  lemma SeveralClicks(st: Store, file: string, plot: SeriesPlot)
    requires file in st.selections && |st.selections[file]| > 1
    ensures TimeSeriesFrom(st, [file], 0, plot)
         == Run(st.(log := st.log + [SeveralTransectsClicked(|st.selections[file]|)], selections := st.selections[file := []]),
                None, plot)
  {
  }

  /**
   * A click on an index past the file's paths raises `IndexError` after the
   * modal was opened; the selection is not reset.
   */
  lemma StaleClickRaises(st: Store, file: string, index: nat, plot: SeriesPlot)
    requires file in st.selections && st.selections[file] == [index]
    requires file in st.plots && st.plots[file].PathPlot? && index >= |st.plots[file].paths|
    ensures TimeSeriesFrom(st, [file], 0, plot) == Run(st.(modalOpens := st.modalOpens + 1), Some(IndexError(index)), plot)
  {
  }
}
