/**
 * Converting a raw file into its cached `GeoData` artifact and creating its
 * plot layer: `DataMap._create_data_plot` for category files and
 * `DataMap._create_path_plot` for transect files.
 */
module Geocache {
  import opened Outcomes
  import opened Text
  import opened Columns
  import opened Transects
  import opened Model

  const TransectsFolder := "Transects"
  const GeoDataFolder := "GeoData"

  function CategoryDir(cfg: Config, category: string): string {
    cfg.dataDir + "/" + category
  }

  /** The lower-cased extension of a file name. */
  function Extension(filename: string): string {
    Lower(SplitExt(filename).1)
  }

  predicate IsPointTable(filename: string) {
    Extension(filename) == ".csv" || Extension(filename) == ".txt"
  }

  predicate IsGrid(filename: string) {
    Extension(filename) == ".asc"
  }

  /** A category file `_create_data_plot` can turn into a plot. */
  predicate SupportedDataFile(filename: string) {
    IsPointTable(filename) || IsGrid(filename)
  }

  /** A transect file `_create_path_plot` can turn into a plot. */
  predicate SupportedTransectFile(filename: string) {
    Extension(filename) == ".txt"
  }

  /** `<data>/<category>/GeoData/<stem>.geojson` for point tables, `.tif` for grids. */
  function DataArtifactPath(cfg: Config, category: string, filename: string): string
    requires SupportedDataFile(filename)
  {
    CategoryDir(cfg, category) + "/" + GeoDataFolder + "/" + SplitExt(filename).0
      + (if IsGrid(filename) then ".tif" else ".geojson")
  }

  /** `<data>/Transects/GeoData/<stem>.geojson`. */
  function TransectArtifactPath(cfg: Config, filename: string): string {
    cfg.dataDir + "/" + TransectsFolder + "/" + GeoDataFolder + "/" + SplitExt(filename).0 + ".geojson"
  }

  /** `os.makedirs(p)` when `os.path.isdir(p)` is false. */
  function MakeDirs(d: Disk, p: string): (r: Disk)
    ensures r.files == d.files && r.dirs == d.dirs + {p}
  {
    if p in d.dirs then d else d.(dirs := d.dirs + {p})
  }

  function ReadLines(d: Disk, path: string): Result<seq<string>, Failure> {
    if path in d.files && d.files[path].Raw? then Ok(d.files[path].lines) else Err(CannotRead(path))
  }

  /** The file at `p` is a GeoJSON of points written by `ConvertPoints`. */
  predicate PointsAt(d: Disk, p: string) {
    p in d.files && d.files[p].Derived? && d.files[p].artifact.PointsJson?
  }

  /** The file at `p` is a GeoTIFF. */
  predicate RasterAt(d: Disk, p: string) {
    p in d.files && d.files[p].Derived? && d.files[p].artifact.RasterTif?
  }

  /** The file at `p` is a GeoJSON of line strings written by `ConvertTransects`. */
  predicate LinesAt(d: Disk, p: string) {
    p in d.files && d.files[p].Derived? && d.files[p].artifact.LinesJson?
  }

  /** The column names of a table's header line. */
  function Header(lines: seq<string>): seq<string>
    requires lines != []
  {
    Split(lines[0], ',')
  }

  /**
   * `_create_data_points_geojson`: read the table's header, pick the
   * coordinate columns, write the GeoJSON. It succeeds exactly when the table
   * can be read, is not empty and its header names exactly one latitude and
   * exactly one longitude candidate; the GeoJSON records those two columns.
   */
  function ConvertPoints(cfg: Config, d: Disk, source: string, target: string): (r: Result<Disk, Failure>)
    ensures r.Ok? <==> ReadLines(d, source).Ok? && ReadLines(d, source).value != [] &&
                       ExactlyOne(Header(ReadLines(d, source).value), cfg.latitudeCols) &&
                       ExactlyOne(Header(ReadLines(d, source).value), cfg.longitudeCols)
    ensures r.Ok? ==>
              var cols := PointColumns(Header(ReadLines(d, source).value), cfg.latitudeCols, cfg.longitudeCols).value;
              r.value == d.(files := d.files[target := Derived(PointsJson(source, cols.0, cols.1))])
    ensures r.Ok? ==>
              var header := Header(ReadLines(d, source).value);
              var a := r.value.files[target].artifact;
              a.latitude in header && a.latitude in cfg.latitudeCols && a.longitude in header && a.longitude in cfg.longitudeCols
    ensures ReadLines(d, source).Err? ==> r == Err(CannotRead(source))
    ensures ReadLines(d, source).Ok? && ReadLines(d, source).value == [] ==> r == Err(EmptyTable(source))
    ensures ReadLines(d, source).Ok? && ReadLines(d, source).value != [] &&
            PointColumns(Header(ReadLines(d, source).value), cfg.latitudeCols, cfg.longitudeCols).Err? ==>
              r == Err(AmbiguousColumns(PointColumns(Header(ReadLines(d, source).value), cfg.latitudeCols, cfg.longitudeCols).error))
  {
    match ReadLines(d, source)
    case Err(e) => Err(e)
    case Ok(lines) =>
      if lines == [] then Err(EmptyTable(source))
      else
        match PointColumns(Header(lines), cfg.latitudeCols, cfg.longitudeCols)
        case Err(e) => Err(AmbiguousColumns(e))
        case Ok(cols) => Ok(d.(files := d.files[target := Derived(PointsJson(source, cols.0, cols.1))]))
  }

  /**
   * `_plot_geojson_points`: the point layer, styled with the category's colour
   * and marker. It fails exactly when there is no point GeoJSON at `target`
   * or the category has no colour or no marker.
   */
  function LoadPoints(cfg: Config, st: Store, filename: string, category: string, target: string): (r: Run<()>)
    ensures r.error.None? <==> PointsAt(st.disk, target) && category in cfg.categoryColors && category in cfg.categoryMarkers
    ensures r.error.Some? ==> r.st == st
    ensures !PointsAt(st.disk, target) ==> r.error == Some(CannotRead(target))
    ensures PointsAt(st.disk, target) && r.error.Some? ==> r.error == Some(KeyError(category))
    ensures r.error.None? ==> r.st == st.(plots := st.plots[filename := PointPlot(target, category, cfg.categoryColors[category], cfg.categoryMarkers[category])])
  {
    if !PointsAt(st.disk, target) then Run(st, Some(CannotRead(target)), ())
    else if category !in cfg.categoryColors then Run(st, Some(KeyError(category)), ())
    else if category !in cfg.categoryMarkers then Run(st, Some(KeyError(category)), ())
    else
      var layer := PointPlot(target, category, cfg.categoryColors[category], cfg.categoryMarkers[category]);
      Run(st.(plots := st.plots[filename := layer]), None, ())
  }

  /** `gv.load_tiff` of the GeoTIFF: it fails exactly when there is none at `target`. */
  function LoadGrid(st: Store, filename: string, target: string): (r: Run<()>)
    ensures r.error.None? <==> RasterAt(st.disk, target)
    ensures r.error.Some? ==> r.st == st && r.error == Some(CannotRead(target))
    ensures r.error.None? ==> r.st == st.(plots := st.plots[filename := ImagePlot(target)])
  {
    if !RasterAt(st.disk, target) then Run(st, Some(CannotRead(target)), ())
    else Run(st.(plots := st.plots[filename := ImagePlot(target)]), None, ())
  }

  /** Files under `d` are kept unchanged in `d'`, and so are directories. */
  predicate Keeps(d: Disk, d': Disk) {
    d.dirs <= d'.dirs && d.files.Keys <= d'.files.Keys &&
    forall p :: p in d.files ==> d'.files[p] == d.files[p]
  }

  /** Nothing but the plots, the disk and the diagnostics changed. */
  predicate SameStreams(st: Store, st': Store) {
    st'.sources == st.sources && st'.selections == st.selections &&
    st'.pushed == st.pushed && st'.modalOpens == st.modalOpens
  }

  /** The point-table branch of `_create_data_plot` (components.py:278-285). */
  function PointTableStep(cfg: Config, st: Store, filename: string, category: string, target: string): (r: Run<()>)
    requires target == CategoryDir(cfg, category) + "/" + GeoDataFolder + "/" + SplitExt(filename).0 + ".geojson"
    ensures SameStreams(st, r.st) && Keeps(st.disk, r.st.disk) && r.st.log == st.log
    ensures r.error.Some? ==> r.st.plots == st.plots
    ensures r.error.None? ==> filename in r.st.plots && r.st.plots == st.plots[filename := r.st.plots[filename]]
    ensures r.error.None? ==> r.st.plots[filename].PointPlot? && r.st.plots[filename].artifact == target
    ensures r.error.None? ==>
              category in cfg.categoryColors && category in cfg.categoryMarkers &&
              r.st.plots[filename] == PointPlot(target, category, cfg.categoryColors[category], cfg.categoryMarkers[category])
    ensures Exists(st.disk, target) ==>
              (r.error.None? <==> PointsAt(st.disk, target) && category in cfg.categoryColors && category in cfg.categoryMarkers)
    ensures var lines := ReadLines(st.disk, CategoryDir(cfg, category) + "/" + filename);
            !Exists(st.disk, target) ==>
              (r.error.None? <==>
                 lines.Ok? && lines.value != [] &&
                 ExactlyOne(Header(lines.value), cfg.latitudeCols) && ExactlyOne(Header(lines.value), cfg.longitudeCols) &&
                 category in cfg.categoryColors && category in cfg.categoryMarkers)
    ensures var source := CategoryDir(cfg, category) + "/" + filename;
            var lines := ReadLines(st.disk, source);
            !Exists(st.disk, target) && r.error.None? ==>
              var cols := PointColumns(Header(lines.value), cfg.latitudeCols, cfg.longitudeCols).value;
              target in r.st.disk.files && r.st.disk.files[target] == Derived(PointsJson(source, cols.0, cols.1))
    ensures Exists(st.disk, target) ==> r.st.disk == st.disk
    ensures r.st.disk.files.Keys <= st.disk.files.Keys + {target}
    ensures r.st.disk.dirs <= st.disk.dirs + {CategoryDir(cfg, category) + "/" + GeoDataFolder}
    ensures !Exists(st.disk, target) ==> CategoryDir(cfg, category) + "/" + GeoDataFolder in r.st.disk.dirs
  {
    var base := CategoryDir(cfg, category);
    var geo := base + "/" + GeoDataFolder;
    if Exists(st.disk, target) then LoadPoints(cfg, st, filename, category, target)
    else
      var d1 := MakeDirs(st.disk, geo);
      assert ReadLines(d1, base + "/" + filename) == ReadLines(st.disk, base + "/" + filename);
      match ConvertPoints(cfg, d1, base + "/" + filename, target)
      case Err(e) => Run(st.(disk := d1), Some(e), ())
      case Ok(d2) => LoadPoints(cfg, st.(disk := d2), filename, category, target)
  }

  /** The grid branch of `_create_data_plot` (components.py:290-312): the grid is read before the folder is made. */
  function GridStep(cfg: Config, st: Store, filename: string, category: string, target: string): (r: Run<()>)
    requires target == CategoryDir(cfg, category) + "/" + GeoDataFolder + "/" + SplitExt(filename).0 + ".tif"
    ensures SameStreams(st, r.st) && Keeps(st.disk, r.st.disk) && r.st.log == st.log
    ensures r.error.Some? ==> r.st.plots == st.plots
    ensures r.error.None? ==> filename in r.st.plots && r.st.plots == st.plots[filename := r.st.plots[filename]]
    ensures r.error.None? ==> r.st.plots[filename] == ImagePlot(target)
    ensures Exists(st.disk, target) ==> (r.error.None? <==> RasterAt(st.disk, target))
    ensures var source := CategoryDir(cfg, category) + "/" + filename;
            !Exists(st.disk, target) ==>
              (r.error.None? <==> ReadLines(st.disk, source).Ok?) &&
              (r.error.None? ==> target in r.st.disk.files && r.st.disk.files[target] == Derived(RasterTif(source)))
    ensures Exists(st.disk, target) ==> r.st.disk == st.disk
    ensures r.st.disk.files.Keys <= st.disk.files.Keys + {target}
    ensures r.st.disk.dirs <= st.disk.dirs + {CategoryDir(cfg, category) + "/" + GeoDataFolder}
    ensures !Exists(st.disk, target) && r.error.None? ==> CategoryDir(cfg, category) + "/" + GeoDataFolder in r.st.disk.dirs
    ensures !Exists(st.disk, target) && r.error.Some? ==> r.st.disk == st.disk
  {
    var base := CategoryDir(cfg, category);
    var geo := base + "/" + GeoDataFolder;
    if Exists(st.disk, target) then LoadGrid(st, filename, target)
    else
      match ReadLines(st.disk, base + "/" + filename)
      case Err(e) => Run(st, Some(e), ())
      case Ok(_) =>
        var d1 := MakeDirs(st.disk, geo);
        var d2 := d1.(files := d1.files[target := Derived(RasterTif(base + "/" + filename))]);
        LoadGrid(st.(disk := d2), filename, target)
  }

  /**
   * `_create_data_plot(filename, category)` (components.py:237-317). A point
   * table (.csv/.txt) is converted to `GeoData/<stem>.geojson`, creating the
   * folder first; a grid (.asc) is read, then the folder is created and
   * `GeoData/<stem>.tif` written. Either conversion is skipped when the
   * artifact path exists. Any other extension prints a diagnostic and adds
   * no plot.
   */
  function DataPlotStep(cfg: Config, st: Store, filename: string, category: string): (r: Run<()>)
    ensures SameStreams(st, r.st) && Keeps(st.disk, r.st.disk)
    ensures forall k :: k in st.plots && k != filename ==> k in r.st.plots && r.st.plots[k] == st.plots[k]
    ensures forall k :: k in r.st.plots ==> k in st.plots || k == filename
    ensures !SupportedDataFile(filename) ==>
              r == Run(st.(log := st.log + [UnsupportedPointFile(SplitExt(filename).0 + Extension(filename), Extension(filename))]), None, ())
    ensures SupportedDataFile(filename) ==> r.st.log == st.log
    ensures SupportedDataFile(filename) && r.error.None? ==>
              filename in r.st.plots && (r.st.plots[filename].PointPlot? || r.st.plots[filename].ImagePlot?) &&
              r.st.plots[filename].artifact == DataArtifactPath(cfg, category, filename)
    ensures SupportedDataFile(filename) && Exists(st.disk, DataArtifactPath(cfg, category, filename)) ==> r.st.disk == st.disk
    ensures SupportedDataFile(filename) ==> r.st.disk.files.Keys <= st.disk.files.Keys + {DataArtifactPath(cfg, category, filename)}
    ensures SupportedDataFile(filename) ==> r.st.disk.dirs <= st.disk.dirs + {CategoryDir(cfg, category) + "/" + GeoDataFolder}
  {
    var geo := CategoryDir(cfg, category) + "/" + GeoDataFolder;
    var stem := SplitExt(filename).0;
    var ext := Extension(filename);
    if ext == ".csv" || ext == ".txt" then PointTableStep(cfg, st, filename, category, geo + "/" + stem + ".geojson")
    else if ext == ".asc" then GridStep(cfg, st, filename, category, geo + "/" + stem + ".tif")
    else Run(st.(log := st.log + [UnsupportedPointFile(stem + ext, ext)]), None, ())
  }

  /** `_create_transects_geojson`: read the transect file, parse it, write the GeoJSON of its lines. */
  function ConvertTransects(d: Disk, source: string, target: string): (r: Result<Disk, Failure>)
    ensures r.Ok? ==> target in r.value.files && r.value == d.(files := d.files[target := r.value.files[target]])
    ensures r.Ok? <==> ReadLines(d, source).Ok? && Parse(ReadLines(d, source).value).Ok?
    ensures r.Ok? ==> ReadLines(d, source).Ok? && Parse(ReadLines(d, source).value).Ok? &&
                      r.value.files[target] == Derived(LinesJson(Parse(ReadLines(d, source).value).value))
    ensures ReadLines(d, source).Err? ==> r == Err(CannotRead(source))
    ensures ReadLines(d, source).Ok? && Parse(ReadLines(d, source).value).Err? ==>
              r == Err(BadTransectFile(Parse(ReadLines(d, source).value).error))
  {
    match ReadLines(d, source)
    case Err(e) => Err(e)
    case Ok(lines) =>
      match Parse(lines)
      case Err(e) => Err(BadTransectFile(e))
      case Ok(features) => Ok(d.(files := d.files[target := Derived(LinesJson(features))]))
  }

  /**
   * `_plot_geojson_linestrings`: the path layer, holding the features read
   * back from the GeoJSON. It fails exactly when there is no line GeoJSON at
   * `target` or the file has no colour.
   */
  function LoadPaths(cfg: Config, st: Store, filename: string, target: string): (r: Run<()>)
    ensures r.error.None? <==> LinesAt(st.disk, target) && filename in cfg.transectColors
    ensures r.error.Some? ==> r.st == st
    ensures !LinesAt(st.disk, target) ==> r.error == Some(CannotRead(target))
    ensures LinesAt(st.disk, target) && r.error.Some? ==> r.error == Some(KeyError(filename))
    ensures r.error.None? ==>
              r.st == st.(plots := st.plots[filename := PathPlot(target, TransectsFolder + ": " + filename, cfg.transectColors[filename],
                                                                 st.disk.files[target].artifact.features)])
  {
    if !LinesAt(st.disk, target) then Run(st, Some(CannotRead(target)), ())
    else if filename !in cfg.transectColors then Run(st, Some(KeyError(filename)), ())
    else
      var layer := PathPlot(target, TransectsFolder + ": " + filename, cfg.transectColors[filename],
                            st.disk.files[target].artifact.features);
      Run(st.(plots := st.plots[filename := layer]), None, ())
  }

  /**
   * `_create_path_plot(filename)` (components.py:382-412): only `.txt`
   * transect files are supported; the GeoJSON is written under
   * `Transects/GeoData` unless its path exists.
   */
  function PathPlotStep(cfg: Config, st: Store, filename: string): (r: Run<()>)
    ensures SameStreams(st, r.st) && Keeps(st.disk, r.st.disk)
    ensures forall k :: k in st.plots && k != filename ==> k in r.st.plots && r.st.plots[k] == st.plots[k]
    ensures forall k :: k in r.st.plots ==> k in st.plots || k == filename
    ensures !SupportedTransectFile(filename) ==>
              r == Run(st.(log := st.log + [UnsupportedPathFile(SplitExt(filename).0 + Extension(filename), Extension(filename))]), None, ())
    ensures SupportedTransectFile(filename) ==> r.st.log == st.log
    ensures SupportedTransectFile(filename) && r.error.None? ==>
              filename in r.st.plots && r.st.plots[filename].PathPlot? &&
              r.st.plots[filename].artifact == TransectArtifactPath(cfg, filename)
    ensures SupportedTransectFile(filename) && Exists(st.disk, TransectArtifactPath(cfg, filename)) ==> r.st.disk == st.disk
    ensures SupportedTransectFile(filename) ==> r.st.disk.files.Keys <= st.disk.files.Keys + {TransectArtifactPath(cfg, filename)}
    ensures SupportedTransectFile(filename) ==> r.st.disk.dirs <= st.disk.dirs + {cfg.dataDir + "/" + TransectsFolder + "/" + GeoDataFolder}
    ensures SupportedTransectFile(filename) && !Exists(st.disk, TransectArtifactPath(cfg, filename)) ==>
              cfg.dataDir + "/" + TransectsFolder + "/" + GeoDataFolder in r.st.disk.dirs
  {
    var base := cfg.dataDir + "/" + TransectsFolder;
    var geo := base + "/" + GeoDataFolder;
    var source := base + "/" + filename;
    var stem := SplitExt(filename).0;
    var ext := Extension(filename);
    if ext == ".txt" then
      var target := geo + "/" + stem + ".geojson";
      if Exists(st.disk, target) then LoadPaths(cfg, st, filename, target)
      else
        var d1 := MakeDirs(st.disk, geo);
        match ConvertTransects(d1, source, target)
        case Err(e) => Run(st.(disk := d1), Some(e), ())
        case Ok(d2) => LoadPaths(cfg, st.(disk := d2), filename, target)
    else
      Run(st.(log := st.log + [UnsupportedPathFile(stem + ext, ext)]), None, ())
  }

  /**
   * The conversion of a new transect file stores exactly the features its
   * text parses into, and its path layer shows them.
   */
  lemma NewTransectArtifact(cfg: Config, st: Store, filename: string)
    requires SupportedTransectFile(filename) && !Exists(st.disk, TransectArtifactPath(cfg, filename))
    ensures var source := cfg.dataDir + "/" + TransectsFolder + "/" + filename;
            var r := PathPlotStep(cfg, st, filename);
            r.error.None? <==>
              ReadLines(st.disk, source).Ok? && Parse(ReadLines(st.disk, source).value).Ok? && filename in cfg.transectColors
    ensures var source := cfg.dataDir + "/" + TransectsFolder + "/" + filename;
            var r := PathPlotStep(cfg, st, filename);
            (ReadLines(st.disk, source).Err? ==> r.error == Some(CannotRead(source))) &&
            (ReadLines(st.disk, source).Ok? && Parse(ReadLines(st.disk, source).value).Err? ==>
               r.error == Some(BadTransectFile(Parse(ReadLines(st.disk, source).value).error))) &&
            (ReadLines(st.disk, source).Ok? && Parse(ReadLines(st.disk, source).value).Ok? && filename !in cfg.transectColors ==>
               r.error == Some(KeyError(filename)))
    ensures cfg.dataDir + "/" + TransectsFolder + "/" + GeoDataFolder in PathPlotStep(cfg, st, filename).st.disk.dirs
    ensures var source := cfg.dataDir + "/" + TransectsFolder + "/" + filename;
            var r := PathPlotStep(cfg, st, filename);
            r.error.None? ==>
              r.st.disk.files[TransectArtifactPath(cfg, filename)] == Derived(LinesJson(Parse(ReadLines(st.disk, source).value).value)) &&
              r.st.plots[filename].paths == Parse(ReadLines(st.disk, source).value).value
  {
    var geo := cfg.dataDir + "/" + TransectsFolder + "/" + GeoDataFolder;
    var d1 := MakeDirs(st.disk, geo);
    var source := cfg.dataDir + "/" + TransectsFolder + "/" + filename;
    assert ReadLines(d1, source) == ReadLines(st.disk, source);
  }

  /**
   * The conversion of a new point table records the two coordinate columns
   * its header names, and its point layer is styled with the category's
   * colour and marker. It fails exactly when the table cannot be read, is
   * empty, its header does not name exactly one latitude and one longitude
   * candidate, or the category has no style.
   */
  lemma NewPointArtifact(cfg: Config, st: Store, filename: string, category: string)
    requires IsPointTable(filename) && !Exists(st.disk, DataArtifactPath(cfg, category, filename))
    ensures CategoryDir(cfg, category) + "/" + GeoDataFolder in DataPlotStep(cfg, st, filename, category).st.disk.dirs
    ensures var source := CategoryDir(cfg, category) + "/" + filename;
            var lines := ReadLines(st.disk, source);
            var r := DataPlotStep(cfg, st, filename, category);
            r.error.None? <==>
              lines.Ok? && lines.value != [] &&
              ExactlyOne(Header(lines.value), cfg.latitudeCols) && ExactlyOne(Header(lines.value), cfg.longitudeCols) &&
              category in cfg.categoryColors && category in cfg.categoryMarkers
    ensures var source := CategoryDir(cfg, category) + "/" + filename;
            var lines := ReadLines(st.disk, source);
            var r := DataPlotStep(cfg, st, filename, category);
            var target := DataArtifactPath(cfg, category, filename);
            r.error.None? ==>
              var cols := PointColumns(Header(lines.value), cfg.latitudeCols, cfg.longitudeCols).value;
              r.st.disk.files[target] == Derived(PointsJson(source, cols.0, cols.1)) &&
              r.st.plots[filename] == PointPlot(target, category, cfg.categoryColors[category], cfg.categoryMarkers[category])
    ensures var source := CategoryDir(cfg, category) + "/" + filename;
            var lines := ReadLines(st.disk, source);
            var r := DataPlotStep(cfg, st, filename, category);
            (lines.Err? ==> r.error == Some(CannotRead(source))) &&
            (lines.Ok? && lines.value == [] ==> r.error == Some(EmptyTable(source))) &&
            (lines.Ok? && lines.value != [] && PointColumns(Header(lines.value), cfg.latitudeCols, cfg.longitudeCols).Err? ==>
               r.error == Some(AmbiguousColumns(PointColumns(Header(lines.value), cfg.latitudeCols, cfg.longitudeCols).error)))
  {
    var source := CategoryDir(cfg, category) + "/" + filename;
    var d1 := MakeDirs(st.disk, CategoryDir(cfg, category) + "/" + GeoDataFolder);
    assert ReadLines(d1, source) == ReadLines(st.disk, source);
  }

  /**
   * The conversion of a new grid writes the GeoTIFF of exactly that grid and
   * its image layer shows it; it fails, changing nothing, exactly when the
   * grid cannot be read.
   */
  lemma NewGridArtifact(cfg: Config, st: Store, filename: string, category: string)
    requires IsGrid(filename) && !Exists(st.disk, DataArtifactPath(cfg, category, filename))
    ensures var source := CategoryDir(cfg, category) + "/" + filename;
            var r := DataPlotStep(cfg, st, filename, category);
            r.error.None? <==> ReadLines(st.disk, source).Ok?
    ensures var source := CategoryDir(cfg, category) + "/" + filename;
            var r := DataPlotStep(cfg, st, filename, category);
            var target := DataArtifactPath(cfg, category, filename);
            r.error.None? ==>
              r.st.disk.files[target] == Derived(RasterTif(source)) && r.st.plots[filename] == ImagePlot(target)
    ensures var source := CategoryDir(cfg, category) + "/" + filename;
            var r := DataPlotStep(cfg, st, filename, category);
            r.error.Some? ==> r.st == st && r.error == Some(CannotRead(source))
    ensures var r := DataPlotStep(cfg, st, filename, category);
            r.error.None? ==> CategoryDir(cfg, category) + "/" + GeoDataFolder in r.st.disk.dirs
  {
  }

  /**
   * A file already converted is never converted again: the layer is made
   * from the artifact found at the path, whatever the raw file now holds.
   */
  lemma CachedArtifactReused(cfg: Config, st: Store, filename: string, category: string)
    requires SupportedDataFile(filename) && Exists(st.disk, DataArtifactPath(cfg, category, filename))
    ensures DataPlotStep(cfg, st, filename, category).st.disk == st.disk
    ensures var target := DataArtifactPath(cfg, category, filename);
            var r := DataPlotStep(cfg, st, filename, category);
            IsGrid(filename) ==> (r.error.None? <==> RasterAt(st.disk, target))
    ensures var target := DataArtifactPath(cfg, category, filename);
            var r := DataPlotStep(cfg, st, filename, category);
            IsPointTable(filename) ==>
              (r.error.None? <==> PointsAt(st.disk, target) && category in cfg.categoryColors && category in cfg.categoryMarkers)
    ensures var target := DataArtifactPath(cfg, category, filename);
            var r := DataPlotStep(cfg, st, filename, category);
            r.error.None? ==>
              r.st.plots[filename] ==
                if IsGrid(filename) then ImagePlot(target)
                else PointPlot(target, category, cfg.categoryColors[category], cfg.categoryMarkers[category])
  {
  }

  /** The same holds for a transect file whose GeoJSON exists. */
  lemma CachedTransectReused(cfg: Config, st: Store, filename: string)
    requires SupportedTransectFile(filename) && Exists(st.disk, TransectArtifactPath(cfg, filename))
    ensures var target := TransectArtifactPath(cfg, filename);
            var r := PathPlotStep(cfg, st, filename);
            r.st.disk == st.disk && (r.error.None? <==> LinesAt(st.disk, target) && filename in cfg.transectColors)
    ensures var target := TransectArtifactPath(cfg, filename);
            var r := PathPlotStep(cfg, st, filename);
            r.error.None? ==> r.st.plots[filename].paths == st.disk.files[target].artifact.features
  {
  }

  /** The stem and the lower-cased extension of `<stem><ext>`, for an extension `.<letters>`. */
  lemma ExtensionOfName(stem: string, ext: string)
    requires '/' !in stem && exists k :: 0 <= k < |stem| && stem[k] != '.'
    requires |ext| > 0 && ext[0] == '.' && '.' !in ext[1..] && '/' !in ext
    ensures SplitExt(stem + ext).0 == stem && Extension(stem + ext) == Lower(ext)
  {
    assert ext == "." + ext[1..];
    SplitExtOfName(stem, ext[1..]);
  }

  /**
   * The extension is compared case-blind: names that differ only in the case
   * of their extension are supported alike and share their artifact.
   */
  lemma ExtensionCaseBlind(cfg: Config, category: string, stem: string, ext: string, ext': string)
    requires '/' !in stem && exists k :: 0 <= k < |stem| && stem[k] != '.'
    requires |ext| > 0 && ext[0] == '.' && '.' !in ext[1..] && '/' !in ext
    requires |ext'| > 0 && ext'[0] == '.' && '.' !in ext'[1..] && '/' !in ext'
    requires Lower(ext) == Lower(ext')
    ensures Extension(stem + ext) == Extension(stem + ext')
    ensures SupportedDataFile(stem + ext) <==> SupportedDataFile(stem + ext')
    ensures SupportedTransectFile(stem + ext) <==> SupportedTransectFile(stem + ext')
    ensures SupportedDataFile(stem + ext) ==> DataArtifactPath(cfg, category, stem + ext) == DataArtifactPath(cfg, category, stem + ext')
  {
    ExtensionOfName(stem, ext);
    ExtensionOfName(stem, ext');
  }

  lemma LowerLetters()
    ensures Lower(".csv") == ".csv" && Lower(".TXT") == ".txt"
  {
    var c, t := Lower(".csv"), Lower(".TXT");
    assert c[0] == '.' && c[1] == 'c' && c[2] == 's' && c[3] == 'v';
    assert t[0] == '.' && t[1] == 't' && t[2] == 'x' && t[3] == 't';
  }

  /** `a.csv` and `a.TXT` of one category share the artifact `GeoData/a.geojson`. */
  lemma TableExtensionsShareArtifact(cfg: Config, category: string, stem: string)
    requires '/' !in stem && '.' !in stem && stem != []
    ensures SupportedDataFile(stem + ".csv") && SupportedDataFile(stem + ".TXT")
    ensures DataArtifactPath(cfg, category, stem + ".csv") == DataArtifactPath(cfg, category, stem + ".TXT")
  {
    assert stem[0] != '.';
    ExtensionOfName(stem, ".csv");
    ExtensionOfName(stem, ".TXT");
    LowerLetters();
  }
}
