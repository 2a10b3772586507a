/**
 * The values the `DataMap` object keeps and passes around: the file system
 * it reads and writes, the plot layers it builds, the raised exceptions,
 * the printed diagnostics and the per-instance bookkeeping.
 */
module Model {
  import opened Outcomes
  import opened Transects
  import opened Columns

  /** A derived file written into a `GeoData` folder. */
  datatype Artifact =
    | PointsJson(source: string, latitude: string, longitude: string)  // GeoJSON of points from a point table
    | RasterTif(source: string)                                         // GeoTIFF from an ASCII grid
    | LinesJson(features: seq<Feature>)                                 // GeoJSON of transect line features

  datatype File = Raw(lines: seq<string>) | Derived(artifact: Artifact)

  /** The file system: the existing directories and the regular files with their contents. */
  datatype Disk = Disk(dirs: set<string>, files: map<string, File>)

  /** `os.path.exists(p)`. */
  predicate Exists(d: Disk, p: string) {
    p in d.dirs || p in d.files
  }

  /** Plot layers, as tokens carrying what the source gives each of them. */
  datatype Layer =
    | PointPlot(artifact: string, legend: string, color: string, marker: string)
    | ImagePlot(artifact: string)
    | PathPlot(artifact: string, legend: string, color: string, paths: seq<Feature>)
    | UserTransectPlot   // the editable "Create My Own Transect" path
    | BasemapPlot(name: string)

  /** A cell of the clicked-transect table. */
  datatype Cell = Coordinate(text: string) | Id(n: nat) | Label(text: string)

  datatype Column = Column(name: string, values: seq<Cell>)

  /** A table as an insertion-ordered dictionary from column name to values. */
  type Table = seq<Column>

  /** The exceptions the core lets propagate. */
  datatype Failure =
    | CannotRead(path: string)            // opening or reading a missing or unreadable file
    | EmptyTable(path: string)            // `pd.read_csv` of a file with no header line
    | AmbiguousColumns(columnError: ColumnError)
    | BadTransectFile(parseError: ParseError)
    | KeyError(key: string)
    | IndexError(index: nat)
    | AttributeError(key: string)        // `.split()` on a plot that is not a path plot

  /** The messages the core prints. */
  datatype Diagnostic =
    | UnsupportedPointFile(name: string, extension: string)
    | UnsupportedPathFile(name: string, extension: string)
    | SeveralTransectsClicked(count: nat)

  /** The state the operations update in place. */
  datatype Store = Store(
    plots: map<string, Layer>,           // `_created_plots`, keyed by bare file name
    disk: Disk,
    log: seq<Diagnostic>,                // printed diagnostics, oldest first
    sources: map<string, Option<Layer>>, // the `source` of each transect file's selection stream
    selections: map<string, seq<nat>>,   // the clicked indices of each transect file's selection stream
    pushed: seq<Table>,                  // every event sent down the clicked-transect pipe
    modalOpens: nat)                     // how many times the app's modal was opened

  /** The constructor's inputs and the style dictionaries it fills. */
  datatype Config = Config(
    dataDir: string,
    latitudeCols: seq<string>,
    longitudeCols: seq<string>,
    categoryColors: map<string, string>,
    categoryMarkers: map<string, string>,
    transectColors: map<string, string>)

  /** The state reached, the exception raised if any, and a result. */
  datatype Run<T> = Run(st: Store, error: Option<Failure>, value: T)
}
