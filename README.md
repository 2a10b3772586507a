# DataMap: a verified model of the data viewer's map component

The data viewer shows a folder tree of field data on an interactive map.
`<data>/<category>/` folders hold point tables (`.csv`, `.txt`) and
elevation grids (`.asc`). `<data>/Transects/` holds transect files: each
pair of lines `id,x,y,...` is one two-point transect. The `DataMap` object
does four jobs:

- It lists the categories and transect files.
- It gives every category a colour and a marker, and every transect option
  a colour.
- It turns each selected file into a plot layer. Each conversion is cached
  once as a GeoJSON or GeoTIFF file under a `GeoData` folder, and each layer
  is memoised by bare file name.
- It overlays the layers on the chosen basemap. When the user clicks a
  transect, it opens a modal and sends that transect's start/end table down
  a pipe.

This project models that object in Dafny.

What is modelled:

- The file system is a value (`Model.Disk`). The directory listings are
  inputs.
- Plot layers are tokens that carry what the source gives them: the
  artifact path, the legend, the colour and marker, and a transect plot's
  features.
- An exception the source lets propagate becomes a `Failure` value. It
  comes with the state reached when it was raised.
- Printed diagnostics are kept as a log.
- The transect parser, the style assignment and the overlay accumulation
  are loops in the source. The model states what each loop computes as a
  recursive specification function and proves lemmas about that function.
  The column pick is a comprehension and is modelled by functions alone.
- The source's loops and in-place updates are methods of the class
  `DataMap.DataMap` (and two module-level methods for the style loops).
  Each method is proved to reach the state its specification function
  describes. The public update methods also keep the class invariant
  `Valid()`: the styles are those the constructor built, the shown basemap
  is a configured one, and exactly the transect files have selection
  streams.

Where the behaviour described for the program and its code differ, the
code is followed:

- The unpacking `[col] = [...]` at `components.py:194-195` raises
  `ValueError` when a table has no coordinate column or several. The code
  does not catch it, so the model propagates it (`AmbiguousColumns`) rather
  than skipping the file.
- At `components.py:538`, a chosen transect file with an unsupported
  extension has no plot. The lookup there raises `KeyError`; the file is not
  quietly skipped.
- At `components.py:181`, the transect colours are offset by the length
  of the last category's name, which is left over from the category loop.
  The model does the same.
- At `components.py:445`, the time-series plot is always an empty
  `gv.Points`. Only its title changes.

## Model

| member | source | states |
|---|---|---|
| Text.Split | data_visualizer/components.py:331 | `str.split` on one character: at least one piece, and no piece holds the separator |
| Text.JoinSplit | data_visualizer/components.py:331 | joining the pieces of a split with the separator gives back the line |
| Text.SplitJoin | data_visualizer/components.py:331 | splitting the join of separator-free fields gives back those fields |
| Text.SplitNoSeparator | data_visualizer/components.py:331 | a text without the separator splits into itself |
| Text.SplitAtSeparator | data_visualizer/components.py:331 | splitting `a + sep + b`, with `a` separator-free, gives `a` followed by the split of `b` |
| Text.Digits | data_visualizer/components.py:335 | the kept characters are all digits and there are no more of them than the input has |
| Text.DigitsAppend | data_visualizer/components.py:335 | the digit filter distributes over concatenation |
| Text.Show | data_visualizer/components.py:335 | not called by the source: Python's `str` of a natural, the reference inverse against which `DecimalValueShow` checks the `int()` of line 335; the rendering is a non-empty digit string |
| Text.DecimalValueShow | data_visualizer/components.py:335 | `DecimalValue`, the model of `int()` on a digit string, inverts the decimal rendering: `int` of the rendering of `n` is `n` |
| Text.DigitsOfDigits | data_visualizer/components.py:335 | an all-digit text is kept whole by the filter |
| Text.DigitsOfNonDigits | data_visualizer/components.py:335 | a text with no digit filters to the empty string |
| Text.LastIndexOf | data_visualizer/components.py:247 | `rfind`: -1 or an index holding the character, with none after it |
| Text.SplitExt | data_visualizer/components.py:247 | stem + extension is the name; the extension is empty or one dot with no further dot or `/` |
| Text.SplitExtOfName | data_visualizer/components.py:247 | `stem.e` splits into `stem` and `.e` when the stem has a character other than a dot |
| Text.FormatPoint | data_visualizer/components.py:346 | `"(x, y)"`: parenthesised, four characters longer than its fields |
| Text.FormatPointInjective | data_visualizer/components.py:346-350 | start/end properties of comma-free coordinates determine those coordinates |
| Transects.TransectId | data_visualizer/components.py:335 | an id exists exactly when the point id holds a digit |
| Transects.RecordAt | data_visualizer/components.py:331 | a line is a record exactly when it has four fields; otherwise the error names the line and the field count |
| Transects.CreateTransectFeatures | data_visualizer/components.py:327-354 | the line loop, with its one-slot pending feature, returns exactly the parse of the file |
| Transects.ParseFromOk | data_visualizer/components.py:327-354 | from an even line of a well-formed file the parser yields one feature per remaining record pair |
| Transects.ParseWellFormed | data_visualizer/components.py:327-354 | a well-formed file of N lines yields floor(N/2) features, feature k built from lines 2k and 2k+1 |
| Transects.ParseFromError | data_visualizer/components.py:331-335 | a failure from an even line names a bad line with every earlier line good |
| Transects.ParseError_IsFirstBadLine | data_visualizer/components.py:331-335 | a failed parse reports the first line that is bad in its position, with that line's error |
| Transects.ParseOkIff | data_visualizer/components.py:327-354 | `Parse`, the loop stated as the recursion `ParseFrom` (an even line opens a feature with `OpenAt`, an odd line closes it with `CloseFrom`), succeeds if and only if every line is acceptable in its position |
| Transects.ParseOkBadLine | data_visualizer/components.py:327-354 | a bad line at or after an even position makes the parse from there fail |
| Transects.FeatureFields | data_visualizer/components.py:335-350 | feature k's id is the digits of line 2k's point id, its coordinates are the x/y fields of lines 2k and 2k+1, and its start/end properties are those fields rendered |
| Transects.TrailingRecordDropped | data_visualizer/components.py:333-354 | a last unpaired record adds no feature and raises nothing |
| Transects.TwoRecords | data_visualizer/components.py:327-354 | two records give one feature with the first record's id and both points |
| Transects.EndIdIgnored | data_visualizer/components.py:347-350 | the end record's point id plays no part, even without digits |
| Columns.Matches | data_visualizer/components.py:194 | the comprehension keeps exactly the header columns that are candidates |
| Columns.ExactlyOneHead | data_visualizer/components.py:194 | with a candidate first column, exactly one column matches if and only if no later column is a candidate |
| Columns.ExactlyOneTail | data_visualizer/components.py:194 | a non-candidate first column does not change whether exactly one column matches |
| Columns.MatchesSingle | data_visualizer/components.py:194 | the comprehension has one element if and only if exactly one header position holds a candidate |
| Columns.PickColumn | data_visualizer/components.py:194-195 | the unpacking succeeds if and only if exactly one column matches, and then yields a candidate header column; it fails with "no candidate" exactly when none matches |
| Columns.PointColumns | data_visualizer/components.py:194-195 | both coordinate columns are found if and only if each is unique; the latitude error is the one raised when the latitude pick fails |
| Styles.Assign | data_visualizer/components.py:170-181 | the loop's dictionary has exactly the loop's keys |
| Styles.AssignAt | data_visualizer/components.py:170-181 | for distinct keys, the i-th key has the style of index i |
| Styles.UserColorWins | data_visualizer/components.py:172-173 | a user-chosen category colour is kept, whatever the category's position |
| Styles.CategoryStyleOfDistinct | data_visualizer/components.py:170-178 | the per-index style `StyleOf` of the category scheme: category i gets the user colour or palette colour i mod 8 (the palette size), and marker i mod 10 (the marker count) |
| Styles.TransectStyleOfDistinct | data_visualizer/components.py:180-181 | transect option j gets palette colour (length of the last category name + j) mod 8 |
| DataMap.CategoryStyles | data_visualizer/components.py:170-178 | the category loop builds exactly the colour and marker assignments |
| DataMap.TransectColorsOf | data_visualizer/components.py:180-181 | the transect-option loop builds exactly the transect colour assignment |
| Listing.RegularFiles | data_visualizer/components.py:98 | an entry is kept if and only if it is listed and is a regular file of the folder; the order is given by `RegularFilesAppend` |
| Listing.Categories | data_visualizer/components.py:85 | an entry is a category if and only if it is listed, is a folder, and is not `Transects`; the order is given by `CategoriesAppend` |
| Listing.TransectFiles | data_visualizer/components.py:95-98 | a transect file is a listed regular file of `Transects`, and there are none when that folder is missing; they are the `RegularFiles` of that folder, so `RegularFilesAppend` gives their order |
| Listing.RegularFilesAppend | data_visualizer/components.py:500 | the files of a listing keep the listing order: the filter distributes over concatenation and keeps a single entry exactly when it is a regular file of the folder |
| Listing.CategoriesAppend | data_visualizer/components.py:85 | the categories keep the listing order: the filter distributes over concatenation and keeps a single entry exactly when it is a folder other than `Transects` |
| Geocache.ConvertPoints | data_visualizer/components.py:184-206 | the conversion succeeds if and only if the table reads, is not empty, and its header names exactly one latitude and one longitude candidate; it then writes only the target, a GeoJSON recording exactly the picked columns, which are header columns and candidates; otherwise it raises `CannotRead`, `EmptyTable` or the pick's own error |
| Geocache.LoadPoints | data_visualizer/components.py:208-235 | succeeds if and only if a points GeoJSON is at the path and the category has a colour and a marker; then only the file's plot is set, to a point layer with that colour and marker; a failure (`CannotRead` or `KeyError` of the category) changes nothing |
| Geocache.LoadGrid | data_visualizer/components.py:304-312 | succeeds if and only if a GeoTIFF is at the path; then only the file's plot is set, to an image layer of it; a failure raises `CannotRead` and changes nothing |
| Geocache.PointTableStep | data_visualizer/components.py:278-285 | an existing artifact is reused with the disk untouched; otherwise the GeoData folder is made before the table is read, so it exists afterwards, and the step succeeds if and only if it is a points GeoJSON and the category is styled; otherwise it succeeds if and only if the table reads, is not empty, has exactly one latitude and one longitude header column and the category is styled, and then the new GeoJSON records those columns; only the GeoData folder and the artifact are ever added; success sets only this file's plot, to the point layer of the artifact in the category's colour and marker |
| Geocache.GridStep | data_visualizer/components.py:290-312 | the same cache discipline for grids: an existing artifact is reused and must be a GeoTIFF; otherwise the grid is read first, so an unreadable grid leaves the disk untouched, and the step succeeds if and only if the grid reads, making the GeoData folder and writing the GeoTIFF of that grid; success sets only this file's plot, to the image layer of the `.tif` |
| Geocache.DataPlotStep | data_visualizer/components.py:237-317 | other plots, streams and existing files are kept; an unsupported extension only logs the diagnostic; success gives a point or image layer of the cached artifact; an existing artifact leaves the disk alone |
| Geocache.ConvertTransects | data_visualizer/components.py:319-361 | succeeds if and only if the file reads and parses, and then writes only the target, holding exactly its parsed features; an unreadable file raises `CannotRead`, a parse failure `BadTransectFile` carrying the parse's error (that of the first bad line, by `ParseError_IsFirstBadLine`) |
| Geocache.LoadPaths | data_visualizer/components.py:363-380 | succeeds if and only if a line GeoJSON is at the path and the file has a colour; then only the file's plot is set, to a path layer with that colour, its legend and the artifact's features |
| Geocache.PathPlotStep | data_visualizer/components.py:382-412 | only `.txt` is converted; others log the diagnostic; a conversion first creates `Transects/GeoData` (line 401), the only folder ever added; success gives a path layer of the cached GeoJSON; existing files and other plots are kept |
| Geocache.NewTransectArtifact | data_visualizer/components.py:396-405 | a new transect file plots if and only if it reads, parses and has a colour, and its artifact and layer then hold exactly the parsed features; the failure is `CannotRead`, `BadTransectFile` of the parse error, or `KeyError` of the file, in that order; the `Transects/GeoData` folder exists afterwards |
| Geocache.NewPointArtifact | data_visualizer/components.py:278-285 | a new point table plots if and only if it reads, is not empty, has exactly one latitude and one longitude header column and its category is styled; its artifact then records those columns and its layer has the category's colour and marker; each failure is the one the source raises; the GeoData folder exists afterwards, even when the read fails, since it is made first (line 281) |
| Geocache.NewGridArtifact | data_visualizer/components.py:290-312 | a new grid plots if and only if it reads; its GeoTIFF then records the grid and its layer shows it; an unreadable grid changes nothing, and a converted one has had its GeoData folder made (line 297) |
| Geocache.CachedArtifactReused | data_visualizer/components.py:279 | a file whose artifact exists is not converted again: the disk is unchanged and the layer is made from the artifact found, whatever the raw file now holds |
| Geocache.CachedTransectReused | data_visualizer/components.py:394-405 | likewise for a transect file whose GeoJSON exists: the layer holds the features stored there |
| Geocache.ExtensionOfName | data_visualizer/components.py:246-248 | the stem of `<stem><ext>` is `stem` and its extension is `ext` lower-cased |
| Geocache.ExtensionCaseBlind | data_visualizer/components.py:248 | names that differ only in the case of their extension are supported alike and share their artifact |
| Geocache.TableExtensionsShareArtifact | data_visualizer/components.py:247-278 | `a.csv` and `a.TXT` of one category map to the same cached `a.geojson` |
| Overlays.ConcatAdd | data_visualizer/components.py:509-512 | adding a layer and then the rest is appending both |
| Overlays.VisitsPrefix | data_visualizer/components.py:498-501 | `Visits`, the (category, file) pairs of the nested loops: the visits of the first n categories are a prefix of all visits |
| Overlays.VisitsOfNext | data_visualizer/components.py:498-501 | category n's files are visited right after those of the categories before it |
| Overlays.Visit | data_visualizer/components.py:504-508 | a file that already has a plot changes nothing, and an unsupported one only appends its diagnostic; otherwise only its own plot may be added; no existing plot is replaced |
| Overlays.CategoriesFrame | data_visualizer/components.py:489-514 | the category loop never replaces a plot, adds only convertible names, and touches no stream |
| Overlays.CategoriesContents | data_visualizer/components.py:497-512 | a completed loop appends, in visiting order, the plot of every visited selected file that has one |
| Overlays.CoveredAfterRun | data_visualizer/components.py:504-505 | after a completed loop every visited selected file has a plot unless its extension is unsupported |
| Overlays.CoveredRun | data_visualizer/components.py:504-512 | over covered files the loop converts nothing and shows their plots |
| Overlays.CategoriesOverlay | data_visualizer/components.py:489-514 | the loop's specification `CategoriesFrom`: the overlay is the shown plots in category then listing order, or `None` when there are none; earlier plots are kept |
| Overlays.SecondSelectionIsCacheHit | data_visualizer/components.py:504-505 | repeating a completed selection raises nothing, writes nothing, replaces no plot and shows the same overlay |
| Overlays.SameNameSharesPlot | data_visualizer/components.py:504-512 | a file name that already has a plot, from any category, shows that plot without converting |
| Overlays.CreateAndRegister | data_visualizer/components.py:536-538 | after creating the path plot, success sets the file's stream source to that plot; otherwise the state is the creation's |
| Overlays.Choose | data_visualizer/components.py:534-541 | a file with a plot changes nothing; otherwise only its plot and stream source may change, and success registers the new plot as the source |
| Overlays.TransectsFrame | data_visualizer/components.py:517-547 | the transect loop keeps existing plots, files, selections and pushed tables, and changes no source of a file it does not newly plot |
| Overlays.TransectsContents | data_visualizer/components.py:525-545 | the loop's specification `TransectsFrom`: a completed loop has a plot for every chosen file, and shows, in order, the placeholder or the file's plot for each option |
| Overlays.TransectsRegisterSources | data_visualizer/components.py:535-538 | a completed loop made each newly plotted file's plot the source of its selection stream |
| Overlays.UnsupportedTransectRaises | data_visualizer/components.py:535-538 | an unsupported transect file logs the diagnostic and then raises `KeyError` |
| Overlays.SelectBasemap | data_visualizer/components.py:479-484 | no choice selects the first basemap; a choice succeeds if and only if it is configured, and then selects exactly that basemap; otherwise `KeyError` of the choice |
| Overlays.PlotAfterUpdates | data_visualizer/components.py:550-561 | `plot()` (`Compose` of the three shown layers) after the three updates completed is the chosen basemap, then every plotted file of the selected categories in category and listing order, then the layer of each chosen transect option in the order chosen |
| Clicks.Without | data_visualizer/components.py:467 | keeps exactly the names other than the dropped one |
| Clicks.ClickedTable | data_visualizer/components.py:456-471 | "Point Type" is the key dimension; the value dimensions are exactly the other columns; the data and title are as given |
| Clicks.ClickedTransectTable | data_visualizer/components.py:433-441 | `ClickedData` (the columns of the path, renamed, plus the point types) and the table built from it: a clicked transect's table has the easting, northing and id columns in that order, then the point types |
| Clicks.ClickedTransectFromFile | data_visualizer/components.py:327-354 | the table of the k-th transect shows the fields of lines 2k and 2k+1 of the file as the model keeps them (raw field text; see Left out) |
| Clicks.ClickedPath | data_visualizer/components.py:430-433 | the k-th path of the file's path plot if it exists; otherwise `KeyError` (no plot) or `IndexError` (no such path) |
| Clicks.TimeSeriesFrame | data_visualizer/components.py:421-454 | the callback leaves plots, disk, stream sources and the set of streams alone, never refills an empty selection and only appends pushed tables |
| Clicks.TimeSeriesPushed | data_visualizer/components.py:423-453 | a completed callback has sent down the pipe exactly the data of the clicked path of every file clicked once, in file order (`PushedFrom`) |
| Clicks.TimeSeriesKeyError | data_visualizer/components.py:424-431 | when every file has a selection stream, a `KeyError` can only name a file whose plot is missing |
| Clicks.TimeSeriesEffects | data_visualizer/components.py:421-454 | the loop's specification `TimeSeriesFrom`, one `ClickStep` per file: a completed callback resets every file's selection, opens the modal once per table pushed, and titles the plot exactly when a table was pushed |
| Clicks.SingleClick | data_visualizer/components.py:426-449 | one click opens the modal, pushes that transect's table, resets the selection and titles the plot |
| Clicks.SeveralClicks | data_visualizer/components.py:450-453 | several clicks log the count, reset the selection and keep the plot |
| Clicks.StaleClickRaises | data_visualizer/components.py:428-433 | a click past the file's paths raises `IndexError` after the modal opened |
| DataMap.DataMap.constructor | data_visualizer/components.py:24-181 | the categories, transect files, styles, first basemap and empty streams that `__init__` sets up (one stream per transect file, no source, nothing clicked), and `Valid()` |
| DataMap.DataMap.CreateDataPointsGeojson | data_visualizer/components.py:184-206 | the disk becomes the one `ConvertPoints` gives (the GeoJSON of the picked columns), or stays as it was on failure |
| DataMap.DataMap.CreateTransectsGeojson | data_visualizer/components.py:319-361 | the disk becomes the one the transect conversion gives, or stays as it was on failure |
| DataMap.DataMap.CreatePointTablePlot | data_visualizer/components.py:278-285 | the new state and error are those of the point-table step (see `NewPointArtifact`) |
| DataMap.DataMap.CreateGridPlot | data_visualizer/components.py:290-312 | the new state and error are those of the grid step (see `NewGridArtifact`) |
| DataMap.DataMap.CreateDataPlot | data_visualizer/components.py:237-317 | the new state and error are those of `DataPlotStep`, so `NewPointArtifact`, `NewGridArtifact` and `CachedArtifactReused` describe them |
| DataMap.DataMap.CreatePathPlot | data_visualizer/components.py:382-412 | the new state and error are those of `PathPlotStep` |
| DataMap.DataMap.UpdateBasemapPlot | data_visualizer/components.py:474-486 | the shown basemap becomes exactly the named one when it is configured, the first one when none is named, and stays on `KeyError`; `Valid()` is kept |
| DataMap.DataMap.VisitFile | data_visualizer/components.py:504-505 | the new state and error are those of `Visit` |
| DataMap.DataMap.ChooseTransectFile | data_visualizer/components.py:534-538 | the new state and error are those of `Choose` |
| DataMap.DataMap.VisitCategory | data_visualizer/components.py:501-512 | the inner loop advances the category specification over one category's files |
| DataMap.DataMap.CollectCategoryPlots | data_visualizer/components.py:497-512 | the nested loops reach the state, error and overlay of `CategoriesFrom` over all visits |
| DataMap.DataMap.UpdateSelectedCategoriesPlot | data_visualizer/components.py:489-514 | `None` changes nothing; otherwise the state is the loop's, and the shown overlay is replaced only when the loop completes; `Valid()` is kept |
| DataMap.DataMap.UpdateSelectedTransectsPlot | data_visualizer/components.py:517-547 | `None` changes nothing; otherwise the state is `TransectsFrom`'s, the shown overlay is replaced only on completion, and the stream keys are unchanged; `Valid()` is kept |
| DataMap.DataMap.ReadClicks | data_visualizer/components.py:423-453 | one iteration: the new state, error and plot are those of `ClickStep`, and the selection keys are unchanged |
| DataMap.DataMap.CreateTimeSeries | data_visualizer/components.py:414-454 | under `Valid()` every file's stream is looked up unguarded; the new state, error and plot are those of `TimeSeries` over the transect files, and `Valid()` is kept |
| DataMap.DataMap.Tap | data_visualizer/components.py:106 | a click on a shown transect plot sets only that file's selection, and `Valid()` is kept |

`DataMap.DataMap.Plot` (components.py:550-572) composes the three shown
layers with `Overlays.Compose`; `Overlays.PlotAfterUpdates` states what it
shows once the updates have completed.

## Left out

- Coordinates: `float(x)` parsing and its `ValueError` are not modelled. The fields are kept as raw text, so a table shows them as written in the file.
- Text.Digits: Python's `isdigit` also accepts non-ASCII digits; only `0`-`9` is modelled.
- Text.Lower: only ASCII letters are lowered; Python's full Unicode case mapping is not modelled.
- `pd.read_csv`: only the header line, split on commas, is modelled, and an empty file raises. Quoting, whitespace handling and duplicate-name mangling are left out.
- Raster reading, the custom projection and GeoTIFF writing are left out. An `.asc` that can be read is taken to convert; the artifact records its source.
- A GeoJSON that is read back is modelled as the stored features. Coordinate reference systems are not modelled.
- HoloViews, GeoViews, Panel and Bokeh are not modelled: widgets, plot options, tools, `DynamicMap` and `param.depends` triggering are left out. The model keeps only what the core stores. The modal is a counter and the pipe is the list of pushed tables.
- The `PolyDraw` editable transect is represented by a placeholder layer.
- `os.listdir` order is an input. Each category's listing is filtered against the disk as it stood when the update began.
- `os.path.join(d, e)` is modelled as `d + "/" + e`.
- Failures of `os.makedirs` are not modelled.
- DataMap.DataMap.constructor: requires at least one basemap and one category. With none, the source raises at line 82 (`IndexError`) or at line 181 (`category` unbound).
- `_data_within_date_range` and the along-transect data extraction are not modelled. Both are disabled or absent in the code, and the time-series plot stays an empty `Points`.
- Clicks.ClickedPath: a plot under a transect file's name that is not a path plot (a data file of the same name) is taken to raise `AttributeError` on `.split()`.
- The `Application` class and the `time_series_plot`, `param_widgets` and `clicked_transect_data` properties are not modelled. They are panel layout and accessors.
