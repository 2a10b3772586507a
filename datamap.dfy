/**
 * The `DataMap` object: the state it keeps between widget events and the
 * methods that update it in place.
 */
module DataMap {
  import opened Outcomes
  import opened Text
  import opened Transects
  import opened Columns
  import opened Styles
  import opened Model
  import opened Geocache
  import opened Listing
  import opened Overlays
  import opened Clicks

  /** The category loop of `__init__` (components.py:170-178). */
  method CategoryStyles(categories: seq<string>, colors: map<string, string>)
    returns (colorOf: map<string, string>, markerOf: map<string, string>)
    ensures colorOf == Assign(categories, CategoryColors(colors))
    ensures markerOf == Assign(categories, CategoryMarkers)
  {
    colorOf, markerOf := map[], map[];
    for i := 0 to |categories|
      invariant colorOf == Assign(categories[..i], CategoryColors(colors))
      invariant markerOf == Assign(categories[..i], CategoryMarkers)
    {
      assert categories[..i + 1][..i] == categories[..i];
      if categories[i] in colors {
        colorOf := colorOf[categories[i] := colors[categories[i]]];
      } else {
        colorOf := colorOf[categories[i] := Palette[i % |Palette|]];
      }
      markerOf := markerOf[categories[i] := Markers[i % |Markers|]];
    }
    assert categories[..|categories|] == categories;
  }

  /** The transect-option loop of `__init__` (components.py:180-181); `category` is the category loop's last name. */
  method TransectColorsOf(options: seq<string>, category: string) returns (colorOf: map<string, string>)
    ensures colorOf == Assign(options, TransectColors(category))
  {
    colorOf := map[];
    for i := 0 to |options|
      invariant colorOf == Assign(options[..i], TransectColors(category))
    {
      assert options[..i + 1][..i] == options[..i];
      colorOf := colorOf[options[i] := Palette[(|category| + i) % |Palette|]];
    }
    assert options[..|options|] == options;
  }

  /** The names listed in `files`. */
  function Listed(files: seq<string>): set<string> {
    set f | f in files
  }

  /** The selection streams of `__init__` (components.py:106): one per transect file, with no source yet. */
  function NoSources(files: seq<string>): (m: map<string, Option<Layer>>)
    ensures forall f :: f in m <==> f in files
    ensures forall f :: f in m ==> m[f] == None
  {
    map f | f in files :: None
  }

  /** The selection streams' initial value: nothing clicked in any transect file. */
  function NoClicks(files: seq<string>): (m: map<string, seq<nat>>)
    ensures forall f :: f in m <==> f in files
    ensures forall f :: f in m ==> m[f] == []
  {
    map f | f in files :: []
  }

  class DataMap {
    const dataDir: string
    const latitudeCols: seq<string>
    const longitudeCols: seq<string>
    const userColors: map<string, string>
    const basemapNames: seq<string>         // the keys of `basemap_options`, in order
    const allCategories: seq<string>
    const allTransectFiles: seq<string>
    const transectOptions: seq<string>      // the transect widget's options

    const categoryColors: map<string, string>   // filled by the loops of `__init__`, never changed after
    const categoryMarkers: map<string, string>
    const transectColors: map<string, string>
    var createdPlots: map<string, Layer>
    var disk: Disk
    var diagnostics: seq<Diagnostic>
    var streamSources: map<string, Option<Layer>>
    var selections: map<string, seq<nat>>
    var pushedTables: seq<Table>
    var modalOpens: nat
    var selectedBasemapPlot: Layer
    var selectedCategoriesPlot: Option<seq<Layer>>
    var selectedTransectsPlot: Option<seq<Layer>>

    /** The part of the object the conversions and the callbacks update. */
    function State(): Store
      reads this`createdPlots, this`disk, this`diagnostics, this`streamSources, this`selections,
            this`pushedTables, this`modalOpens
    {
      Store(createdPlots, disk, diagnostics, streamSources, selections, pushedTables, modalOpens)
    }

    function Conf(): Config
    {
      Config(dataDir, latitudeCols, longitudeCols, categoryColors, categoryMarkers, transectColors)
    }

    /** What the constructor establishes and every method keeps. */
    ghost predicate Valid()
      reads this`selectedBasemapPlot, this`streamSources, this`selections
    {
      Styled() && BasemapShown() && StreamsKeyed()
    }

    /** The colour and marker dictionaries are those the constructor's loops build. */
    ghost predicate Styled()
    {
      allCategories != [] &&
      transectOptions == allTransectFiles + [CreateOwnTransect] &&
      categoryColors == Assign(allCategories, CategoryColors(userColors)) &&
      categoryMarkers == Assign(allCategories, CategoryMarkers) &&
      transectColors == Assign(transectOptions, TransectColors(allCategories[|allCategories| - 1]))
    }

    ghost predicate BasemapShown()
      reads this`selectedBasemapPlot
    {
      |basemapNames| > 0 && selectedBasemapPlot.BasemapPlot? && selectedBasemapPlot.name in basemapNames
    }

    /** Every transect file, and no other name, has a selection stream. */
    ghost predicate StreamsKeyed()
      reads this`streamSources, this`selections
    {
      streamSources.Keys == Listed(allTransectFiles) && selections.Keys == Listed(allTransectFiles)
    }

    /**
     * `DataMap.__init__` (components.py:24-181). `entries` and
     * `transectEntries` are what `os.listdir` returns for the data folder and
     * its `Transects` folder. The source fails on no basemap (line 82) and on
     * no category (line 181 reads the category loop's variable).
     */
    constructor (dataDir: string, latitudeCols: seq<string>, longitudeCols: seq<string>, colors: map<string, string>,
                 basemapNames: seq<string>, disk: Disk, entries: seq<string>, transectEntries: seq<string>)
      requires |basemapNames| > 0
      requires Categories(disk, dataDir, entries) != []
      ensures Valid()
      ensures this.allCategories == Categories(disk, dataDir, entries)
      ensures this.allTransectFiles == TransectFiles(disk, dataDir, transectEntries)
      ensures this.userColors == colors && this.basemapNames == basemapNames && this.dataDir == dataDir
      ensures this.latitudeCols == latitudeCols && this.longitudeCols == longitudeCols
      ensures selectedBasemapPlot == BasemapPlot(basemapNames[0])
      ensures createdPlots == map[] && this.disk == disk && diagnostics == [] && pushedTables == [] && modalOpens == 0
      ensures streamSources == NoSources(allTransectFiles) && selections == NoClicks(allTransectFiles)
      ensures selectedCategoriesPlot == None && selectedTransectsPlot == None
    {
      var categories := Categories(disk, dataDir, entries);
      var files := TransectFiles(disk, dataDir, transectEntries);
      var options := files + [CreateOwnTransect];
      var colorOf, markerOf := CategoryStyles(categories, colors);
      var pathColorOf := TransectColorsOf(options, categories[|categories| - 1]);
      this.dataDir := dataDir;
      this.latitudeCols := latitudeCols;
      this.longitudeCols := longitudeCols;
      this.userColors := colors;
      this.basemapNames := basemapNames;
      this.allCategories := categories;
      this.allTransectFiles := files;
      this.transectOptions := options;
      this.categoryColors := colorOf;
      this.categoryMarkers := markerOf;
      this.transectColors := pathColorOf;
      createdPlots := map[];
      this.disk := disk;
      diagnostics := [];
      streamSources := NoSources(files);
      selections := NoClicks(files);
      pushedTables := [];
      modalOpens := 0;
      selectedBasemapPlot := BasemapPlot(basemapNames[0]);
      selectedCategoriesPlot := None;
      selectedTransectsPlot := None;
    }

    /** `_create_data_points_geojson` (components.py:184-206). */
    method CreateDataPointsGeojson(filePath: string, geojsonPath: string) returns (error: Option<Failure>)
      modifies this`disk
      ensures var r := ConvertPoints(Conf(), old(disk), filePath, geojsonPath);
              (r.Ok? ==> error == None && disk == r.value) && (r.Err? ==> error == Some(r.error) && disk == old(disk))
    {
      var read := ReadLines(disk, filePath);
      if read.Err? {
        return Some(read.error);
      }
      var lines := read.value;
      if lines == [] {
        return Some(EmptyTable(filePath));
      }
      var columns := PointColumns(Split(lines[0], ','), latitudeCols, longitudeCols);
      if columns.Err? {
        return Some(AmbiguousColumns(columns.error));
      }
      disk := disk.(files := disk.files[geojsonPath := Derived(PointsJson(filePath, columns.value.0, columns.value.1))]);
      error := None;
    }

    /** `_create_transects_geojson` (components.py:319-361): parse with the line loop, then write the features. */
    method CreateTransectsGeojson(filePath: string, geojsonPath: string) returns (error: Option<Failure>)
      modifies this`disk
      ensures var r := ConvertTransects(old(disk), filePath, geojsonPath);
              (r.Ok? ==> error == None && disk == r.value) && (r.Err? ==> error == Some(r.error) && disk == old(disk))
    {
      var read := ReadLines(disk, filePath);
      if read.Err? {
        return Some(read.error);
      }
      var features := CreateTransectFeatures(read.value);
      if features.Err? {
        return Some(BadTransectFile(features.error));
      }
      disk := disk.(files := disk.files[geojsonPath := Derived(LinesJson(features.value))]);
      error := None;
    }

    /** The point-table branch of `_create_data_plot` (components.py:278-285). */
    method CreatePointTablePlot(filename: string, category: string, target: string) returns (error: Option<Failure>)
      requires target == CategoryDir(Conf(), category) + "/" + GeoDataFolder + "/" + SplitExt(filename).0 + ".geojson"
      modifies this`createdPlots, this`disk
      ensures var r := PointTableStep(Conf(), old(State()), filename, category, target);
              State() == r.st && error == r.error
    {
      var base := CategoryDir(Conf(), category);
      if !Exists(disk, target) {
        disk := MakeDirs(disk, base + "/" + GeoDataFolder);
        error := CreateDataPointsGeojson(base + "/" + filename, target);
        if error.Some? {
          return;
        }
      }
      if !(target in disk.files && disk.files[target].Derived? && disk.files[target].artifact.PointsJson?) {
        error := Some(CannotRead(target));
      } else if category !in categoryColors || category !in categoryMarkers {
        error := Some(KeyError(category));
      } else {
        createdPlots := createdPlots[filename := PointPlot(target, category, categoryColors[category], categoryMarkers[category])];
        error := None;
      }
    }

    /** The grid branch of `_create_data_plot` (components.py:290-312). */
    method CreateGridPlot(filename: string, category: string, target: string) returns (error: Option<Failure>)
      requires target == CategoryDir(Conf(), category) + "/" + GeoDataFolder + "/" + SplitExt(filename).0 + ".tif"
      modifies this`createdPlots, this`disk
      ensures var r := GridStep(Conf(), old(State()), filename, category, target);
              State() == r.st && error == r.error
    {
      var base := CategoryDir(Conf(), category);
      if !Exists(disk, target) {
        var read := ReadLines(disk, base + "/" + filename);
        if read.Err? {
          return Some(read.error);
        }
        disk := MakeDirs(disk, base + "/" + GeoDataFolder);
        disk := disk.(files := disk.files[target := Derived(RasterTif(base + "/" + filename))]);
      }
      if !(target in disk.files && disk.files[target].Derived? && disk.files[target].artifact.RasterTif?) {
        error := Some(CannotRead(target));
      } else {
        createdPlots := createdPlots[filename := ImagePlot(target)];
        error := None;
      }
    }

    /** `_create_data_plot` (components.py:237-317). */
    method CreateDataPlot(filename: string, category: string) returns (error: Option<Failure>)
      modifies this`createdPlots, this`disk, this`diagnostics
      ensures var r := DataPlotStep(Conf(), old(State()), filename, category);
              State() == r.st && error == r.error
    {
      var geo := CategoryDir(Conf(), category) + "/" + GeoDataFolder;
      var stem, ext := SplitExt(filename).0, Extension(filename);
      if ext == ".csv" || ext == ".txt" {
        error := CreatePointTablePlot(filename, category, geo + "/" + stem + ".geojson");
      } else if ext == ".asc" {
        error := CreateGridPlot(filename, category, geo + "/" + stem + ".tif");
      } else {
        diagnostics := diagnostics + [UnsupportedPointFile(stem + ext, ext)];
        error := None;
      }
    }

    /** `_create_path_plot` (components.py:382-412). */
    method CreatePathPlot(filename: string) returns (error: Option<Failure>)
      modifies this`createdPlots, this`disk, this`diagnostics
      ensures var r := PathPlotStep(Conf(), old(State()), filename);
              State() == r.st && error == r.error
    {
      var base := dataDir + "/" + TransectsFolder;
      var geo := base + "/" + GeoDataFolder;
      var stem, ext := SplitExt(filename).0, Extension(filename);
      if ext == ".txt" {
        var target := geo + "/" + stem + ".geojson";
        if !Exists(disk, target) {
          disk := MakeDirs(disk, geo);
          error := CreateTransectsGeojson(base + "/" + filename, target);
          if error.Some? {
            return;
          }
        }
        if !(target in disk.files && disk.files[target].Derived? && disk.files[target].artifact.LinesJson?) {
          error := Some(CannotRead(target));
        } else if filename !in transectColors {
          error := Some(KeyError(filename));
        } else {
          createdPlots := createdPlots[filename := PathPlot(target, TransectsFolder + ": " + filename, transectColors[filename],
                                                           disk.files[target].artifact.features)];
          error := None;
        }
      } else {
        diagnostics := diagnostics + [UnsupportedPathFile(stem + ext, ext)];
        error := None;
      }
    }

    /** `_update_basemap_plot` (components.py:473-486); `basemap` is the widget's value. */
    method UpdateBasemapPlot(basemap: Option<string>) returns (error: Option<Failure>)
      requires Valid()
      modifies this`selectedBasemapPlot
      ensures Valid()
      ensures basemap.Some? && basemap.value in basemapNames ==> error == None && selectedBasemapPlot == BasemapPlot(basemap.value)
      ensures basemap.Some? && basemap.value !in basemapNames ==> error == Some(KeyError(basemap.value))
      ensures var r := SelectBasemap(basemapNames, basemap);
              (r.Ok? ==> error == None && selectedBasemapPlot == r.value) &&
              (r.Err? ==> error == Some(r.error) && selectedBasemapPlot == old(selectedBasemapPlot))
    {
      var name := if basemap.None? then basemapNames[0] else basemap.value;
      if name !in basemapNames {
        return Some(KeyError(name));
      }
      selectedBasemapPlot := BasemapPlot(name);
      error := None;
    }

    /** Lines 505-509: convert a selected category's file unless a plot of that name exists. */
    method VisitFile(category: string, file: string) returns (error: Option<Failure>)
      modifies this`createdPlots, this`disk, this`diagnostics
      ensures var r := Visit(Conf(), old(State()), category, file);
              State() == r.st && error == r.error
    {
      error := None;
      if file !in createdPlots {
        error := CreateDataPlot(file, category);
      }
    }

    /**
     * Lines 534-540: create a chosen transect file's plot unless one of that
     * name exists, and make it the source of the file's selection stream.
     */
    method ChooseTransectFile(file: string) returns (error: Option<Failure>)
      modifies this`createdPlots, this`disk, this`diagnostics, this`streamSources
      ensures var r := Choose(Conf(), old(State()), file);
              State() == r.st && error == r.error
    {
      if file in createdPlots {
        return None;
      }
      error := CreatePathPlot(file);
      if error.Some? {
        return;
      }
      if file !in createdPlots || file !in streamSources {
        return Some(KeyError(file));
      }
      streamSources := streamSources[file := Some(createdPlots[file])];
    }

    /**
     * The inner loop of `_update_selected_categories_plot` over one category's
     * files, which are the visits from `start` on.
     */
    method VisitCategory(category: string, files: seq<string>, selected: seq<string>,
                         ghost visits: seq<(string, string)>, ghost start: nat, overlay: Option<seq<Layer>>)
      returns (overlay': Option<seq<Layer>>, error: Option<Failure>)
      requires VisitsAt(visits, start, category, files)
      modifies this`createdPlots, this`disk, this`diagnostics
      ensures var goal := CategoriesFrom(Conf(), old(State()), visits, selected, start, overlay);
              if error.None? then goal == CategoriesFrom(Conf(), State(), visits, selected, start + |files|, overlay')
              else goal == Run(State(), error, overlay')
    {
      ghost var goal := CategoriesFrom(Conf(), State(), visits, selected, start, overlay);
      overlay' := overlay;
      for fi := 0 to |files|
        invariant goal == CategoriesFrom(Conf(), State(), visits, selected, start + fi, overlay')
      {
        var file := files[fi];
        assert visits[start + fi] == (category, file);
        if category in selected {
          error := VisitFile(category, file);
          if error.Some? {
            return;
          }
          if file in createdPlots {
            overlay' := Add(overlay', createdPlots[file]);
          }
        }
      }
      error := None;
    }

    /**
     * The nested loops of `_update_selected_categories_plot` (lines 497-512)
     * over every category's regular files, for the selected names `selected`.
     */
    method CollectCategoryPlots(selected: seq<string>, listings: map<string, seq<string>>)
      returns (overlay: Option<seq<Layer>>, error: Option<Failure>)
      requires forall c :: c in allCategories ==> c in listings
      modifies this`createdPlots, this`disk, this`diagnostics
      ensures var r := CategoriesFrom(Conf(), old(State()), Visits(Conf(), old(disk), allCategories, listings), selected, 0, None);
              State() == r.st && error == r.error && overlay == r.value
    {
      var d0 := disk;
      ghost var cfg := Conf();
      ghost var visits := Visits(cfg, d0, allCategories, listings);
      ghost var goal := CategoriesFrom(cfg, State(), visits, selected, 0, None);
      overlay := None;
      var ci := 0;
      ghost var done := 0;
      while ci < |allCategories|
        invariant 0 <= ci <= |allCategories|
        invariant done == |Visits(cfg, d0, allCategories[..ci], listings)| && done <= |visits|
        invariant goal == CategoriesFrom(cfg, State(), visits, selected, done, overlay)
      {
        var category := allCategories[ci];
        var files := RegularFiles(d0, CategoryDir(Conf(), category), listings[category]);
        VisitsOfNext(cfg, d0, allCategories, listings, ci);
        overlay, error := VisitCategory(category, files, selected, visits, done, overlay);
        if error.Some? {
          assert Conf() == cfg;
          return;
        }
        done := done + |files|;
        ci := ci + 1;
      }
      assert allCategories[..ci] == allCategories;
      assert Conf() == cfg;
      error := None;
    }

    /**
     * `_update_selected_categories_plot` (components.py:488-514). `selection`
     * is the widget's value and `listings` each category folder's
     * `os.listdir`; nothing happens while the widget holds `None`, and the
     * shown overlay is replaced only when the loops complete.
     */
    method UpdateSelectedCategoriesPlot(selection: Option<seq<string>>, listings: map<string, seq<string>>)
      returns (error: Option<Failure>)
      requires forall c :: c in allCategories ==> c in listings
      requires Valid()
      modifies this`createdPlots, this`disk, this`diagnostics, this`selectedCategoriesPlot
      ensures Valid()
      ensures selection.None? ==> error == None && State() == old(State()) && selectedCategoriesPlot == old(selectedCategoriesPlot)
      ensures selection.Some? ==>
                var r := CategoriesFrom(Conf(), old(State()), Visits(Conf(), old(disk), allCategories, listings), selection.value, 0, None);
                State() == r.st && error == r.error &&
                selectedCategoriesPlot == (if r.error.None? then r.value else old(selectedCategoriesPlot))
    {
      if selection.None? {
        return None;
      }
      var overlay;
      overlay, error := CollectCategoryPlots(selection.value, listings);
      if error.None? {
        selectedCategoriesPlot := overlay;
      }
    }

    /**
     * `_update_selected_transects_plot` (components.py:516-547); `selection`
     * is the widget's value.
     */
    method UpdateSelectedTransectsPlot(selection: Option<seq<string>>) returns (error: Option<Failure>)
      requires Valid()
      modifies this`createdPlots, this`disk, this`diagnostics, this`streamSources, this`selectedTransectsPlot
      ensures Valid()
      ensures streamSources.Keys == old(streamSources).Keys
      ensures selection.None? ==> error == None && State() == old(State()) && selectedTransectsPlot == old(selectedTransectsPlot)
      ensures selection.Some? ==>
                var r := TransectsFrom(Conf(), old(State()), selection.value, 0, None);
                State() == r.st && error == r.error &&
                selectedTransectsPlot == (if r.error.None? then r.value else old(selectedTransectsPlot))
    {
      if selection.None? {
        return None;
      }
      var files := selection.value;
      ghost var goal := TransectsFrom(Conf(), State(), files, 0, None);
      var overlay: Option<seq<Layer>> := None;
      for i := 0 to |files|
        invariant goal == TransectsFrom(Conf(), State(), files, i, overlay)
        invariant streamSources.Keys == old(streamSources).Keys
        invariant selectedTransectsPlot == old(selectedTransectsPlot)
      {
        var file := files[i];
        if file == CreateOwnTransect {
          overlay := Add(overlay, UserTransectPlot);
        } else {
          error := ChooseTransectFile(file);
          if error.Some? {
            return;
          }
          if file in createdPlots {
            overlay := Add(overlay, createdPlots[file]);
          }
        }
      }
      selectedTransectsPlot := overlay;
      error := None;
    }

    /** `plot()` (components.py:550-572). */
    function Plot(): seq<Layer>
      reads this`selectedBasemapPlot, this`selectedCategoriesPlot, this`selectedTransectsPlot
    {
      Compose(selectedBasemapPlot, selectedCategoriesPlot, selectedTransectsPlot)
    }

    /** One iteration of the loop of `_create_time_series` (lines 423-453): the clicks on one transect file. */
    method ReadClicks(file: string, plot: SeriesPlot) returns (plot': SeriesPlot, error: Option<Failure>)
      requires file in selections
      modifies this`modalOpens, this`pushedTables, this`selections, this`diagnostics
      ensures selections.Keys == old(selections).Keys
      ensures var r := ClickStep(old(State()), file, plot);
              State() == r.st && error == r.error && plot' == r.value
    {
      plot' := plot;
      var clicked := selections[file];
      if |clicked| == 1 {
        modalOpens := modalOpens + 1;
        var index := clicked[0];
        if file !in createdPlots {
          return plot, Some(KeyError(file));
        }
        var paths := createdPlots[file];
        if !paths.PathPlot? {
          return plot, Some(AttributeError("split"));
        }
        if index >= |paths.paths| {
          return plot, Some(IndexError(index));
        }
        pushedTables := pushedTables + [ClickedData(paths.paths[index])];
        plot' := SeriesPlot(Some(TimeSeriesTitle));
      } else if |clicked| > 1 {
        diagnostics := diagnostics + [SeveralTransectsClicked(|clicked|)];
      }
      selections := selections[file := []];
      error := None;
    }

    /**
     * `_create_time_series` (components.py:414-454), run by the selection
     * streams of the transect files. Every transect file has a stream, so
     * the loop looks each one up unguarded (see `TimeSeriesKeyError`).
     */
    method CreateTimeSeries() returns (plot: SeriesPlot, error: Option<Failure>)
      requires Valid()
      modifies this`modalOpens, this`pushedTables, this`selections, this`diagnostics
      ensures Valid()
      ensures var r := TimeSeries(old(State()), allTransectFiles);
              State() == r.st && error == r.error && (error.None? ==> plot == r.value)
    {
      ghost var goal := TimeSeries(State(), allTransectFiles);
      plot := SeriesPlot(None);
      for i := 0 to |allTransectFiles|
        invariant goal == TimeSeriesFrom(State(), allTransectFiles, i, plot)
        invariant selections.Keys == Listed(allTransectFiles)
      {
        plot, error := ReadClicks(allTransectFiles[i], plot);
        if error.Some? {
          return;
        }
      }
      error := None;
    }

    /**
     * A click on the map: the `Selection1D` stream of `file`, whose source is
     * the file's path plot, records the indices of the clicked paths
     * (components.py:106, 538). The time-series callback then reads them.
     */
    method Tap(file: string, indices: seq<nat>)
      requires Valid()
      requires file in streamSources && streamSources[file].Some?
      modifies this`selections
      ensures Valid()
      ensures selections == old(selections)[file := indices]
    {
      selections := selections[file := indices];
    }
  }
}
