/**
 * The directory-listing comprehensions of `DataMap`: which entries of a
 * folder are data categories (components.py:85), transect files
 * (components.py:95-98) or a category's data files (components.py:500).
 * The entries themselves, in the order `os.listdir` returns them, are
 * inputs; `os.path.join(dir, e)` is `dir + "/" + e`.
 */
module Listing {
  import opened Model
  import opened Geocache

  /** The entries of `dir` that are regular files, in listing order. */
  function RegularFiles(d: Disk, dir: string, entries: seq<string>): (r: seq<string>)
    ensures forall e {:trigger e in r} :: e in r <==> e in entries && dir + "/" + e in d.files
    ensures |r| <= |entries|
  {
    if entries == [] then []
    else (if dir + "/" + entries[0] in d.files then [entries[0]] else []) + RegularFiles(d, dir, entries[1..])
  }

  /** `_all_categories`: the sub-folders of the data folder other than `Transects`, in listing order. */
  function Categories(d: Disk, dataDir: string, entries: seq<string>): (r: seq<string>)
    ensures forall e {:trigger e in r} :: e in r <==> e in entries && dataDir + "/" + e in d.dirs && e != TransectsFolder
    ensures |r| <= |entries|
  {
    if entries == [] then []
    else
      (if dataDir + "/" + entries[0] in d.dirs && entries[0] != TransectsFolder then [entries[0]] else [])
        + Categories(d, dataDir, entries[1..])
  }

  /** `_all_transect_files`: the regular files of `Transects`, or none when that folder is missing. */
  function TransectFiles(d: Disk, dataDir: string, entries: seq<string>): (r: seq<string>)
    ensures forall e {:trigger e in r} ::
              e in r <==> dataDir + "/" + TransectsFolder in d.dirs && e in entries && dataDir + "/" + TransectsFolder + "/" + e in d.files
    ensures dataDir + "/" + TransectsFolder in d.dirs ==> r == RegularFiles(d, dataDir + "/" + TransectsFolder, entries)
  {
    var dir := dataDir + "/" + TransectsFolder;
    if dir in d.dirs then RegularFiles(d, dir, entries) else []
  }

  /**
   * Filtering keeps the listing order: filtering a concatenation is the
   * concatenation of the filtered parts, one entry at a time.
   */
  lemma {:induction false} RegularFilesAppend(d: Disk, dir: string, a: seq<string>, b: seq<string>)
    ensures RegularFiles(d, dir, a + b) == RegularFiles(d, dir, a) + RegularFiles(d, dir, b)
    ensures forall e {:trigger RegularFiles(d, dir, [e])} ::
              RegularFiles(d, dir, [e]) == if dir + "/" + e in d.files then [e] else []
    decreases |a|
  {
    if a != [] {
      assert (a + b)[1..] == a[1..] + b;
      RegularFilesAppend(d, dir, a[1..], b);
    } else {
      assert a + b == b;
    }
    forall e {:trigger RegularFiles(d, dir, [e])} ensures RegularFiles(d, dir, [e]) == if dir + "/" + e in d.files then [e] else [] {
      assert [e][1..] == [];
    }
  }

  /** The categories of a concatenated listing, likewise. */
  lemma {:induction false} CategoriesAppend(d: Disk, dataDir: string, a: seq<string>, b: seq<string>)
    ensures Categories(d, dataDir, a + b) == Categories(d, dataDir, a) + Categories(d, dataDir, b)
    ensures forall e {:trigger Categories(d, dataDir, [e])} ::
              Categories(d, dataDir, [e]) == if dataDir + "/" + e in d.dirs && e != TransectsFolder then [e] else []
    decreases |a|
  {
    if a != [] {
      assert (a + b)[1..] == a[1..] + b;
      CategoriesAppend(d, dataDir, a[1..], b);
    } else {
      assert a + b == b;
    }
    forall e {:trigger Categories(d, dataDir, [e])}
      ensures Categories(d, dataDir, [e]) == if dataDir + "/" + e in d.dirs && e != TransectsFolder then [e] else []
    {
      assert [e][1..] == [];
    }
  }
}
