/**
 * The accumulation loops that build the map's overlays
 * (`_update_selected_categories_plot`, `_update_selected_transects_plot`),
 * the basemap lookup (`_update_basemap_plot`) and the final composition
 * (`plot`). An overlay is the sequence of its layers; HoloViews' `*` is
 * concatenation and `None` stands for "no layer yet".
 */
module Overlays {
  import opened Outcomes
  import opened Text
  import opened Model
  import opened Geocache
  import opened Listing

  const CreateOwnTransect := "Create My Own Transect"

  /** `layer` when nothing was collected yet, else `acc * layer`. */
  function Add(acc: Option<seq<Layer>>, layer: Layer): Option<seq<Layer>> {
    Some(acc.GetOr([]) + [layer])
  }

  /** The overlay `acc` followed by the layers `ls`. */
  function Concat(acc: Option<seq<Layer>>, ls: seq<Layer>): Option<seq<Layer>> {
    if ls == [] then acc else Some(acc.GetOr([]) + ls)
  }

  lemma ConcatAdd(acc: Option<seq<Layer>>, layer: Layer, rest: seq<Layer>)
    ensures Concat(Add(acc, layer), rest) == Concat(acc, [layer] + rest)
  {
    assert (acc.GetOr([]) + [layer]) + rest == acc.GetOr([]) + ([layer] + rest);
    if rest == [] {
      assert [layer] + rest == [layer];
    }
  }

  // ---------------------------------------------------------------------------
  // Category overlay (components.py:488-514)

  function FilesOf(category: string, files: seq<string>): (r: seq<(string, string)>)
    ensures |r| == |files| && forall k :: 0 <= k < |files| ==> r[k] == (category, files[k])
  {
    seq(|files|, k requires 0 <= k < |files| => (category, files[k]))
  }

  /**
   * The (category, file) pairs visited by the nested loops, in
   * `_all_categories` order and, within a category, in the order its folder
   * lists its regular files; `listings` holds each folder's `os.listdir`.
   */
  function Visits(cfg: Config, d: Disk, categories: seq<string>, listings: map<string, seq<string>>): seq<(string, string)>
    requires forall i :: 0 <= i < |categories| ==> categories[i] in listings
    decreases |categories|
  {
    if categories == [] then []
    else
      var n := |categories| - 1;
      var c := categories[n];
      Visits(cfg, d, categories[..n], listings) + FilesOf(c, RegularFiles(d, CategoryDir(cfg, c), listings[c]))
  }

  /** The visits of the first `n` categories come first. */
  lemma {:induction false} VisitsPrefix(cfg: Config, d: Disk, categories: seq<string>, listings: map<string, seq<string>>, n: nat)
    requires forall i :: 0 <= i < |categories| ==> categories[i] in listings
    requires n <= |categories|
    ensures var p := Visits(cfg, d, categories[..n], listings);
            var v := Visits(cfg, d, categories, listings);
            |p| <= |v| && v[..|p|] == p
    decreases |categories|
  {
    if n < |categories| {
      var m := |categories| - 1;
      var init := categories[..m];
      assert init[..n] == categories[..n];
      VisitsPrefix(cfg, d, init, listings, n);
    } else {
      assert categories[..n] == categories;
    }
  }

  /**
   * One visit of a selected category's file (lines 505-509): convert it
   * unless a plot of that name exists.
   */
  function Visit(cfg: Config, st: Store, category: string, file: string): (r: Run<()>)
    ensures SameStreams(st, r.st) && Keeps(st.disk, r.st.disk)
    ensures forall k :: k in st.plots ==> k in r.st.plots && r.st.plots[k] == st.plots[k]
    ensures forall k :: k in r.st.plots ==> k in st.plots || (k == file && SupportedDataFile(k))
    ensures r.error.None? ==> file in r.st.plots || !SupportedDataFile(file)
    ensures file in st.plots || !SupportedDataFile(file) ==>
              r.error.None? && r.st.plots == st.plots && r.st.disk == st.disk
  {
    if file in st.plots then Run(st, None, ()) else DataPlotStep(cfg, st, file, category)
  }

  /** The visits from `start` on are those of `category`'s `files`. */
  ghost predicate VisitsAt(visits: seq<(string, string)>, start: nat, category: string, files: seq<string>) {
    start + |files| <= |visits| && forall k :: 0 <= k < |files| ==> visits[start + k] == (category, files[k])
  }

  /** The visits of category `n` follow those of the categories before it. */
  lemma VisitsOfNext(cfg: Config, d: Disk, categories: seq<string>, listings: map<string, seq<string>>, n: nat)
    requires forall i :: 0 <= i < |categories| ==> categories[i] in listings
    requires n < |categories|
    ensures var p := |Visits(cfg, d, categories[..n], listings)|;
            var files := RegularFiles(d, CategoryDir(cfg, categories[n]), listings[categories[n]]);
            var v := Visits(cfg, d, categories, listings);
            p + |files| == |Visits(cfg, d, categories[..n + 1], listings)| && VisitsAt(v, p, categories[n], files)
  {
    VisitsPrefix(cfg, d, categories, listings, n + 1);
    assert categories[..n + 1][..n] == categories[..n];
    var files := RegularFiles(d, CategoryDir(cfg, categories[n]), listings[categories[n]]);
    var p := Visits(cfg, d, categories[..n], listings);
    var q := Visits(cfg, d, categories[..n + 1], listings);
    assert q == p + FilesOf(categories[n], files);
    forall k | 0 <= k < |files|
      ensures Visits(cfg, d, categories, listings)[|p| + k] == (categories[n], files[k])
    {
      assert q[|p| + k] == (categories[n], files[k]);
    }
  }

  /** The loop from visit `i` on, with overlay `acc` collected so far. */
  function CategoriesFrom(cfg: Config, st: Store, visits: seq<(string, string)>, selected: seq<string>,
                          i: nat, acc: Option<seq<Layer>>): Run<Option<seq<Layer>>>
    requires i <= |visits|
    decreases |visits| - i
  {
    if i == |visits| then Run(st, None, acc)
    else
      var category, file := visits[i].0, visits[i].1;
      if category !in selected then CategoriesFrom(cfg, st, visits, selected, i + 1, acc)
      else
        var r := Visit(cfg, st, category, file);
        if r.error.Some? then Run(r.st, r.error, acc)
        else CategoriesFrom(cfg, r.st, visits, selected, i + 1,
                            if file in r.st.plots then Add(acc, r.st.plots[file]) else acc)
  }

  /** The layers of the visits from `i` on whose category is selected and whose file has a plot. */
  function ShownFrom(visits: seq<(string, string)>, i: nat, selected: seq<string>, plots: map<string, Layer>): seq<Layer>
    requires i <= |visits|
    decreases |visits| - i
  {
    if i == |visits| then []
    else
      (if visits[i].0 in selected && visits[i].1 in plots then [plots[visits[i].1]] else [])
        + ShownFrom(visits, i + 1, selected, plots)
  }

  /** Plots are only added: an existing entry is never replaced, and only convertible names are added. */
  lemma {:induction false} CategoriesFrame(cfg: Config, st: Store, visits: seq<(string, string)>, selected: seq<string>,
                                           i: nat, acc: Option<seq<Layer>>)
    requires i <= |visits|
    ensures var r := CategoriesFrom(cfg, st, visits, selected, i, acc);
            SameStreams(st, r.st) && Keeps(st.disk, r.st.disk) &&
            (forall k :: k in st.plots ==> k in r.st.plots && r.st.plots[k] == st.plots[k]) &&
            (forall k :: k in r.st.plots ==> k in st.plots || SupportedDataFile(k))
    decreases |visits| - i
  {
    if i < |visits| {
      var category, file := visits[i].0, visits[i].1;
      if category !in selected {
        CategoriesFrame(cfg, st, visits, selected, i + 1, acc);
      } else {
        var r := Visit(cfg, st, category, file);
        if r.error.None? {
          CategoriesFrame(cfg, r.st, visits, selected, i + 1,
                          if file in r.st.plots then Add(acc, r.st.plots[file]) else acc);
        }
      }
    }
  }

  /**
   * A completed loop shows, after what it had collected, the plot of every
   * visited file of a selected category that has one, in visiting order.
   */
  lemma {:induction false} CategoriesContents(cfg: Config, st: Store, visits: seq<(string, string)>, selected: seq<string>,
                                              i: nat, acc: Option<seq<Layer>>)
    requires i <= |visits|
    ensures var r := CategoriesFrom(cfg, st, visits, selected, i, acc);
            r.error.None? ==> r.value == Concat(acc, ShownFrom(visits, i, selected, r.st.plots))
    decreases |visits| - i
  {
    if i < |visits| {
      var category, file := visits[i].0, visits[i].1;
      var r := CategoriesFrom(cfg, st, visits, selected, i, acc);
      if category !in selected {
        CategoriesContents(cfg, st, visits, selected, i + 1, acc);
        var rest := ShownFrom(visits, i + 1, selected, r.st.plots);
        assert ShownFrom(visits, i, selected, r.st.plots) == [] + rest;
        assert [] + rest == rest;
      } else {
        var r1 := Visit(cfg, st, category, file);
        if r1.error.None? {
          var acc' := if file in r1.st.plots then Add(acc, r1.st.plots[file]) else acc;
          CategoriesContents(cfg, r1.st, visits, selected, i + 1, acc');
          CategoriesFrame(cfg, r1.st, visits, selected, i + 1, acc');
          assert r == CategoriesFrom(cfg, r1.st, visits, selected, i + 1, acc');
          var rest := ShownFrom(visits, i + 1, selected, r.st.plots);
          if file in r1.st.plots {
            assert file in r.st.plots && r.st.plots[file] == r1.st.plots[file];
            assert ShownFrom(visits, i, selected, r.st.plots) == [r1.st.plots[file]] + rest;
            ConcatAdd(acc, r1.st.plots[file], rest);
          } else {
            assert file !in st.plots && !SupportedDataFile(file);
            assert file !in r.st.plots;
            assert ShownFrom(visits, i, selected, r.st.plots) == [] + rest;
            assert [] + rest == rest;
          }
        }
      }
    }
  }

  /** Every visited file of a selected category has a plot, unless its extension is unsupported. */
  ghost predicate Covered(visits: seq<(string, string)>, i: nat, selected: seq<string>, plots: map<string, Layer>) {
    forall j :: i <= j < |visits| && visits[j].0 in selected ==> visits[j].1 in plots || !SupportedDataFile(visits[j].1)
  }

  lemma {:induction false} CoveredAfterRun(cfg: Config, st: Store, visits: seq<(string, string)>, selected: seq<string>,
                                           i: nat, acc: Option<seq<Layer>>)
    requires i <= |visits|
    ensures var r := CategoriesFrom(cfg, st, visits, selected, i, acc);
            r.error.None? ==> Covered(visits, i, selected, r.st.plots)
    decreases |visits| - i
  {
    if i < |visits| {
      var category, file := visits[i].0, visits[i].1;
      if category !in selected {
        CoveredAfterRun(cfg, st, visits, selected, i + 1, acc);
      } else {
        var r1 := Visit(cfg, st, category, file);
        if r1.error.None? {
          var acc' := if file in r1.st.plots then Add(acc, r1.st.plots[file]) else acc;
          CoveredAfterRun(cfg, r1.st, visits, selected, i + 1, acc');
          CategoriesFrame(cfg, r1.st, visits, selected, i + 1, acc');
        }
      }
    }
  }

  /** Over covered visits the loop converts nothing: plots and disk stay as they are and only diagnostics are printed. */
  lemma {:induction false} CoveredRun(cfg: Config, st: Store, visits: seq<(string, string)>, selected: seq<string>,
                                      i: nat, acc: Option<seq<Layer>>)
    requires i <= |visits| && Covered(visits, i, selected, st.plots)
    ensures var r := CategoriesFrom(cfg, st, visits, selected, i, acc);
            r.error.None? && r.st.plots == st.plots && r.st.disk == st.disk && SameStreams(st, r.st) &&
            r.value == Concat(acc, ShownFrom(visits, i, selected, st.plots))
    decreases |visits| - i
  {
    if i < |visits| {
      var category, file := visits[i].0, visits[i].1;
      var r := CategoriesFrom(cfg, st, visits, selected, i, acc);
      if category !in selected {
        CoveredRun(cfg, st, visits, selected, i + 1, acc);
        var rest := ShownFrom(visits, i + 1, selected, st.plots);
        assert ShownFrom(visits, i, selected, st.plots) == [] + rest;
        assert [] + rest == rest;
      } else {
        var r1 := Visit(cfg, st, category, file);
        assert r1.st.plots == st.plots && r1.st.disk == st.disk && r1.error.None?;
        var acc' := if file in r1.st.plots then Add(acc, r1.st.plots[file]) else acc;
        CoveredRun(cfg, r1.st, visits, selected, i + 1, acc');
        assert r == CategoriesFrom(cfg, r1.st, visits, selected, i + 1, acc');
        var rest := ShownFrom(visits, i + 1, selected, st.plots);
        if file in st.plots {
          assert ShownFrom(visits, i, selected, st.plots) == [st.plots[file]] + rest;
          ConcatAdd(acc, st.plots[file], rest);
        } else {
          assert ShownFrom(visits, i, selected, st.plots) == [] + rest;
          assert [] + rest == rest;
        }
      }
    }
  }

  /**
   * The category overlay: the plots of the selected categories' files, in
   * category order and then listing order, each file converted only when it
   * has no plot yet, and `None` when no selected file has a plot.
   */
  lemma CategoriesOverlay(cfg: Config, st: Store, visits: seq<(string, string)>, selected: seq<string>)
    ensures var r := CategoriesFrom(cfg, st, visits, selected, 0, None);
            var shown := ShownFrom(visits, 0, selected, r.st.plots);
            r.error.None? ==> r.value == (if shown == [] then None else Some(shown))
    ensures var r := CategoriesFrom(cfg, st, visits, selected, 0, None);
            forall k :: k in st.plots ==> k in r.st.plots && r.st.plots[k] == st.plots[k]
  {
    CategoriesContents(cfg, st, visits, selected, 0, None);
    CategoriesFrame(cfg, st, visits, selected, 0, None);
    var r := CategoriesFrom(cfg, st, visits, selected, 0, None);
    var shown := ShownFrom(visits, 0, selected, r.st.plots);
    assert [] + shown == shown;
  }

  /**
   * Selecting the same categories again is a pure cache hit: no file is
   * converted or rewritten, no plot is replaced and the same overlay is shown.
   */
  lemma SecondSelectionIsCacheHit(cfg: Config, st: Store, visits: seq<(string, string)>, selected: seq<string>)
    requires CategoriesFrom(cfg, st, visits, selected, 0, None).error.None?
    ensures var r1 := CategoriesFrom(cfg, st, visits, selected, 0, None);
            var r2 := CategoriesFrom(cfg, r1.st, visits, selected, 0, None);
            r2.error.None? && r2.st.plots == r1.st.plots && r2.st.disk == r1.st.disk && r2.value == r1.value
  {
    var r1 := CategoriesFrom(cfg, st, visits, selected, 0, None);
    CategoriesContents(cfg, st, visits, selected, 0, None);
    CoveredAfterRun(cfg, st, visits, selected, 0, None);
    CoveredRun(cfg, r1.st, visits, selected, 0, None);
  }

  /**
   * Plots are memoised by bare file name: a file whose name already has a
   * plot, from whichever category, shows that plot and is not converted.
   */
  lemma SameNameSharesPlot(cfg: Config, st: Store, category: string, file: string, selected: seq<string>)
    requires file in st.plots && category in selected
    ensures CategoriesFrom(cfg, st, [(category, file)], selected, 0, None) == Run(st, None, Some([st.plots[file]]))
  {
    assert [] + [st.plots[file]] == [st.plots[file]];
  }

  // ---------------------------------------------------------------------------
  // Transect overlay (components.py:516-547)

  /**
   * Lines 536-538: create the path plot, then make it the source of the
   * file's selection stream; `self._created_plots[file]` raises `KeyError`
   * when no plot was created.
   */
  function CreateAndRegister(cfg: Config, st: Store, file: string): (r: Run<()>)
    ensures r.error.None? ==> file in r.st.plots && file in st.sources &&
                              r.st == PathPlotStep(cfg, st, file).st.(sources := st.sources[file := Some(r.st.plots[file])])
    ensures r.error.Some? ==> r.st == PathPlotStep(cfg, st, file).st
  {
    var s := PathPlotStep(cfg, st, file);
    if s.error.Some? then s
    else if file !in s.st.plots then Run(s.st, Some(KeyError(file)), ())
    else if file !in s.st.sources then Run(s.st, Some(KeyError(file)), ())
    else Run(s.st.(sources := s.st.sources[file := Some(s.st.plots[file])]), None, ())
  }

  /** One chosen transect file (lines 534-540): create and register its plot unless one of that name exists. */
  function Choose(cfg: Config, st: Store, file: string): (r: Run<()>)
    ensures Keeps(st.disk, r.st.disk)
    ensures r.st.selections == st.selections && r.st.pushed == st.pushed && r.st.modalOpens == st.modalOpens
    ensures r.st.sources.Keys == st.sources.Keys
    ensures forall k :: k in st.plots ==> k in r.st.plots && r.st.plots[k] == st.plots[k]
    ensures forall k :: k in r.st.plots ==> k in st.plots || k == file
    ensures forall k :: k in st.sources && (k in st.plots || k != file) ==> r.st.sources[k] == st.sources[k]
    ensures r.error.None? ==> file in r.st.plots
    ensures r.error.None? && file !in st.plots ==> file in r.st.sources && r.st.sources[file] == Some(r.st.plots[file])
    ensures file in st.plots ==> r == Run(st, None, ())
  {
    if file in st.plots then Run(st, None, ()) else CreateAndRegister(cfg, st, file)
  }

  function TransectsFrom(cfg: Config, st: Store, files: seq<string>, i: nat, acc: Option<seq<Layer>>): Run<Option<seq<Layer>>>
    requires i <= |files|
    decreases |files| - i
  {
    if i == |files| then Run(st, None, acc)
    else
      var file := files[i];
      if file == CreateOwnTransect then TransectsFrom(cfg, st, files, i + 1, Add(acc, UserTransectPlot))
      else
        var r := Choose(cfg, st, file);
        if r.error.Some? then Run(r.st, r.error, acc)
        else TransectsFrom(cfg, r.st, files, i + 1, if file in r.st.plots then Add(acc, r.st.plots[file]) else acc)
  }

  /** The layer of each chosen transect option from `i` on: the editable placeholder or the file's plot. */
  function ShownTransectsFrom(files: seq<string>, i: nat, plots: map<string, Layer>): seq<Layer>
    requires i <= |files|
    decreases |files| - i
  {
    if i == |files| then []
    else
      (if files[i] == CreateOwnTransect then [UserTransectPlot]
       else if files[i] in plots then [plots[files[i]]] else [])
        + ShownTransectsFrom(files, i + 1, plots)
  }

  /** `k` is not chosen again from position `i` on. */
  ghost predicate NotChosenFrom(files: seq<string>, i: nat, k: string) {
    forall j :: i <= j < |files| ==> files[j] != k
  }

  /**
   * Existing plots are kept, and the stream source of a file is only set when
   * its plot is created.
   */
  lemma {:induction false} TransectsFrame(cfg: Config, st: Store, files: seq<string>, i: nat, acc: Option<seq<Layer>>)
    requires i <= |files|
    ensures var r := TransectsFrom(cfg, st, files, i, acc);
            Keeps(st.disk, r.st.disk) &&
            r.st.selections == st.selections && r.st.pushed == st.pushed && r.st.modalOpens == st.modalOpens &&
            r.st.sources.Keys == st.sources.Keys &&
            (forall k :: k in st.plots ==> k in r.st.plots && r.st.plots[k] == st.plots[k]) &&
            (forall k :: k in st.sources && (k in st.plots || NotChosenFrom(files, i, k)) ==> r.st.sources[k] == st.sources[k])
    decreases |files| - i
  {
    if i < |files| {
      var file := files[i];
      if file == CreateOwnTransect {
        TransectsFrame(cfg, st, files, i + 1, Add(acc, UserTransectPlot));
      } else {
        var r := Choose(cfg, st, file);
        if r.error.None? {
          TransectsFrame(cfg, r.st, files, i + 1, if file in r.st.plots then Add(acc, r.st.plots[file]) else acc);
        }
      }
    }
  }

  /**
   * A completed loop has a plot for every chosen file and shows, in the
   * order chosen, the placeholder for each "Create My Own Transect" and the
   * file's plot for each file.
   */
  lemma {:induction false} TransectsContents(cfg: Config, st: Store, files: seq<string>, i: nat, acc: Option<seq<Layer>>)
    requires i <= |files|
    ensures var r := TransectsFrom(cfg, st, files, i, acc);
            r.error.None? ==>
              (forall j :: i <= j < |files| && files[j] != CreateOwnTransect ==> files[j] in r.st.plots) &&
              r.value == Concat(acc, ShownTransectsFrom(files, i, r.st.plots))
    decreases |files| - i
  {
    if i < |files| {
      var file := files[i];
      var r := TransectsFrom(cfg, st, files, i, acc);
      if file == CreateOwnTransect {
        TransectsContents(cfg, st, files, i + 1, Add(acc, UserTransectPlot));
        assert r == TransectsFrom(cfg, st, files, i + 1, Add(acc, UserTransectPlot));
        var rest := ShownTransectsFrom(files, i + 1, r.st.plots);
        assert ShownTransectsFrom(files, i, r.st.plots) == [UserTransectPlot] + rest;
        ConcatAdd(acc, UserTransectPlot, rest);
      } else {
        var r1 := Choose(cfg, st, file);
        if r1.error.None? {
          assert file in r1.st.plots;
          var acc' := Add(acc, r1.st.plots[file]);
          TransectsContents(cfg, r1.st, files, i + 1, acc');
          TransectsFrame(cfg, r1.st, files, i + 1, acc');
          assert r == TransectsFrom(cfg, r1.st, files, i + 1, acc');
          var rest := ShownTransectsFrom(files, i + 1, r.st.plots);
          assert ShownTransectsFrom(files, i, r.st.plots) == [r1.st.plots[file]] + rest;
          ConcatAdd(acc, r1.st.plots[file], rest);
        }
      }
    }
  }

  /** A completed loop made each newly plotted file's path plot the source of its selection stream. */
  lemma {:induction false} TransectsRegisterSources(cfg: Config, st: Store, files: seq<string>, i: nat, acc: Option<seq<Layer>>)
    requires i <= |files|
    ensures var r := TransectsFrom(cfg, st, files, i, acc);
            r.error.None? ==> Registered(files, i, st.plots, r.st)
    decreases |files| - i
  {
    if i < |files| {
      var file := files[i];
      if file == CreateOwnTransect {
        TransectsRegisterSources(cfg, st, files, i + 1, Add(acc, UserTransectPlot));
      } else {
        var r1 := Choose(cfg, st, file);
        if r1.error.None? {
          var acc' := Add(acc, r1.st.plots[file]);
          var r := TransectsFrom(cfg, r1.st, files, i + 1, acc');
          TransectsRegisterSources(cfg, r1.st, files, i + 1, acc');
          TransectsFrame(cfg, r1.st, files, i + 1, acc');
          if r.error.None? {
            RegisteredStep(files, i, st.plots, r1.st, r.st);
          }
        }
      }
    }
  }

  /** Every file chosen from `i` on that had no plot in `plots` now has one, and it is its stream's source. */
  ghost predicate Registered(files: seq<string>, i: nat, plots: map<string, Layer>, st: Store) {
    forall j :: i <= j < |files| && files[j] != CreateOwnTransect && files[j] !in plots ==>
      files[j] in st.plots && files[j] in st.sources && st.sources[files[j]] == Some(st.plots[files[j]])
  }

  /** The inductive step of `TransectsRegisterSources`, from the facts about one `Choose` and the rest of the loop. */
  lemma RegisteredStep(files: seq<string>, i: nat, plots: map<string, Layer>, mid: Store, last: Store)
    requires i < |files| && files[i] != CreateOwnTransect
    requires files[i] in mid.plots && forall k :: k in mid.plots ==> k in plots || k == files[i]
    requires files[i] !in plots ==> files[i] in mid.sources && mid.sources[files[i]] == Some(mid.plots[files[i]])
    requires Registered(files, i + 1, mid.plots, last)
    requires forall k :: k in mid.plots ==> k in last.plots && last.plots[k] == mid.plots[k]
    requires forall k :: k in mid.sources && k in mid.plots ==> k in last.sources && last.sources[k] == mid.sources[k]
    ensures Registered(files, i, plots, last)
  {
    forall j | i <= j < |files| && files[j] != CreateOwnTransect && files[j] !in plots
      ensures files[j] in last.plots && files[j] in last.sources && last.sources[files[j]] == Some(last.plots[files[j]])
    {
      if files[j] != files[i] {
        assert files[j] !in mid.plots;
      }
    }
  }

  lemma UnsupportedTransectRaises(cfg: Config, st: Store, file: string, acc: Option<seq<Layer>>)
    requires file != CreateOwnTransect && file !in st.plots && !SupportedTransectFile(file)
    ensures TransectsFrom(cfg, st, [file], 0, acc)
         == Run(st.(log := st.log + [UnsupportedPathFile(SplitExt(file).0 + Extension(file), Extension(file))]), Some(KeyError(file)), acc)
  {
  }

  // ---------------------------------------------------------------------------
  // Basemap and composition (components.py:473-486, 550-572)

  /** The basemap layer: the selected name, or the first configured one while nothing is selected. */
  function SelectBasemap(names: seq<string>, basemap: Option<string>): (r: Result<Layer, Failure>)
    requires |names| > 0
    ensures basemap.None? ==> r == Ok(BasemapPlot(names[0]))
    ensures basemap.Some? ==> (r.Ok? <==> basemap.value in names)
    ensures basemap.Some? && r.Ok? ==> r.value == BasemapPlot(basemap.value)
    ensures r.Ok? ==> r.value.BasemapPlot? && r.value.name in names
    ensures r.Err? ==> r.error == KeyError(basemap.value)
  {
    var name := basemap.GetOr(names[0]);
    if name in names then Ok(BasemapPlot(name)) else Err(KeyError(name))
  }

  /** `plot()`: the basemap, then the category overlay if any, then the transect overlay if any. */
  function Compose(basemap: Layer, categories: Option<seq<Layer>>, transects: Option<seq<Layer>>): (r: seq<Layer>)
    ensures var c, t := categories.GetOr([]), transects.GetOr([]);
            |r| == 1 + |c| + |t| && r[0] == basemap && r[1..1 + |c|] == c && r[1 + |c|..] == t
  {
    [basemap] + categories.GetOr([]) + transects.GetOr([])
  }

  /**
   * `plot()` once the three updates completed: the chosen basemap, then
   * every plotted file of the selected categories in category and listing
   * order, then the layer of each chosen transect option in the order chosen.
   */
  lemma PlotAfterUpdates(cfg: Config, st: Store, names: seq<string>, basemap: Option<string>,
                         visits: seq<(string, string)>, selected: seq<string>, chosen: seq<string>)
    requires |names| > 0
    ensures var b := SelectBasemap(names, basemap);
            var rc := CategoriesFrom(cfg, st, visits, selected, 0, None);
            var rt := TransectsFrom(cfg, rc.st, chosen, 0, None);
            b.Ok? && rc.error.None? && rt.error.None? ==>
              Compose(b.value, rc.value, rt.value) ==
                [b.value] + ShownFrom(visits, 0, selected, rc.st.plots) + ShownTransectsFrom(chosen, 0, rt.st.plots)
  {
    var rc := CategoriesFrom(cfg, st, visits, selected, 0, None);
    CategoriesOverlay(cfg, st, visits, selected);
    TransectsContents(cfg, rc.st, chosen, 0, None);
  }
}
