/**
  The tile registry (context.cpp): the list of loaded datasets, newest first,
  and the query that returns the first altitude found along it.
 */
module Contexts {
  import opened Wrappers
  import opened Gdal
  import opened Datasets

  /** `sizeof(filepath)` in `ContextCreate`. */
  const PathBufferSize: nat := 1024

  /**
    `endsWith`: false when either C string is NULL or the suffix is longer
    than the string; otherwise whether the string's last characters are the
    suffix.
   */
  function EndsWith(str: Option<string>, suffix: Option<string>): (r: bool)
    ensures r <==> str.Some? && suffix.Some? && exists p: string :: str.value == p + suffix.value
  {
    if str.None? || suffix.None? then
      false
    else if |suffix.value| > |str.value| then
      false
    else
      var s, t := str.value, suffix.value;
      var ok := s[|s| - |t|..] == t;
      assert ok ==> s == s[..|s| - |t|] + t;
      assert forall p: string :: s == p + t ==> s[|s| - |t|..] == t by {
        forall p: string | s == p + t ensures s[|s| - |t|..] == t {
          assert s[|p|..] == t;
        }
      }
      ok
  }

  /** A file name the directory scan hands to `contextAddDataset`. */
  predicate IsRasterName(name: string) {
    EndsWith(Some(name), Some(".tif")) || EndsWith(Some(name), Some(".hgt"))
  }

  /** `dir` and `file` joined by one "/" unless `dir` already ends in one. */
  function Joined(dir: string, file: string): string {
    if EndsWith(Some(dir), Some("/")) then dir + file else dir + "/" + file
  }

  /**
    `joinPath`: what `snprintf(dst, n, ...)` leaves in a buffer of n bytes,
    the joined path cut to at most n - 1 characters. With n = 0 nothing is
    written (None).
   */
  function JoinPath(n: nat, dir: string, file: string): (r: Option<string>)
    ensures r.None? <==> n == 0
    ensures r.Some? ==> |r.value| == if |Joined(dir, file)| < n then |Joined(dir, file)| else n - 1
    ensures r.Some? ==> r.value <= Joined(dir, file)
  {
    if n == 0 then None
    else
      var full := Joined(dir, file);
      Some(if |full| < n then full else full[..n - 1])
  }

  /** Without truncation, a directory ending in "/" gets no second separator. */
  lemma JoinPathNoDoubleSlash(n: nat, dir: string, file: string)
    requires |dir| + |file| + 1 < n
    ensures EndsWith(Some(dir), Some("/")) ==> JoinPath(n, dir, file) == Some(dir + file)
    ensures !EndsWith(Some(dir), Some("/")) ==> JoinPath(n, dir, file) == Some(dir + "/" + file)
  {
  }

  /** The names the directory scan keeps, in enumeration order. */
  function RasterNames(names: seq<string>): (r: seq<string>)
    ensures |r| <= |names|
    ensures forall k :: 0 <= k < |r| ==> IsRasterName(r[k])
    ensures forall name :: name in r <==> name in names && IsRasterName(name)
  {
    if names == [] then []
    else if IsRasterName(names[0]) then [names[0]] + RasterNames(names[1..])
    else RasterNames(names[1..])
  }

  /** Scanning two runs of names one after the other keeps each run's order. */
  lemma {:induction false} RasterNamesAppend(a: seq<string>, b: seq<string>)
    ensures RasterNames(a + b) == RasterNames(a) + RasterNames(b)
  {
    if a == [] {
      assert a + b == b;
    } else {
      assert (a + b)[1..] == a[1..] + b;
      RasterNamesAppend(a[1..], b);
    }
  }

  /**
    Where `ContextCreate` looks: nothing, an existing path that is not a
    directory (a regular file, but also a device, FIFO or socket: `isDir` is
    the only test), or a directory whose listing may fail to open.
   */
  datatype PathKind = Missing | NotDirectory | Directory(entries: Option<seq<string>>)

  /** The paths `ContextCreate` passes to `contextAddDataset`, in order. */
  function CandidatePaths(path: string, kind: PathKind): seq<string> {
    match kind
    case Missing => []
    case NotDirectory => [path]
    case Directory(None) => []
    case Directory(Some(names)) => JoinAll(path, RasterNames(names))
  }

  function JoinAll(dir: string, names: seq<string>): (r: seq<string>)
    ensures |r| == |names|
    ensures forall k :: 0 <= k < |r| ==> Some(r[k]) == JoinPath(PathBufferSize, dir, names[k])
  {
    if names == [] then [] else [JoinPath(PathBufferSize, dir, names[0]).value] + JoinAll(dir, names[1..])
  }

  lemma {:induction false} JoinAllAppend(dir: string, a: seq<string>, b: seq<string>)
    ensures JoinAll(dir, a + b) == JoinAll(dir, a) + JoinAll(dir, b)
  {
    if a == [] {
      assert a + b == b;
    } else {
      assert (a + b)[1..] == a[1..] + b;
      JoinAllAppend(dir, a[1..], b);
    }
  }

  /** One more directory entry adds its joined path exactly when it is a raster name. */
  lemma ScanStep(dir: string, names: seq<string>, i: nat)
    requires i < |names|
    ensures JoinAll(dir, RasterNames(names[..i + 1])) ==
      JoinAll(dir, RasterNames(names[..i])) +
      (if IsRasterName(names[i]) then [JoinPath(PathBufferSize, dir, names[i]).value] else [])
  {
    var single := if IsRasterName(names[i]) then [names[i]] else [];
    RasterNamesStep(names, i);
    JoinAllAppend(dir, RasterNames(names[..i]), single);
    assert JoinAll(dir, single) ==
      if IsRasterName(names[i]) then [JoinPath(PathBufferSize, dir, names[i]).value] else [];
  }

  lemma RasterNamesStep(names: seq<string>, i: nat)
    requires i < |names|
    ensures RasterNames(names[..i + 1]) ==
      RasterNames(names[..i]) + if IsRasterName(names[i]) then [names[i]] else []
  {
    assert names[..i + 1] == names[..i] + [names[i]];
    RasterNamesAppend(names[..i], [names[i]]);
    assert RasterNames([names[i]]) == if IsRasterName(names[i]) then [names[i]] else [];
  }

  /** The candidate paths for which `DatasetCreate` succeeds, in the order they were tried. */
  function Loadable(lib: Library, paths: seq<string>, srs: string): (r: seq<string>)
    ensures forall p :: p in r <==> p in paths && FirstFailure(lib, p, srs).None?
  {
    if paths == [] then []
    else if FirstFailure(lib, paths[0], srs).None? then [paths[0]] + Loadable(lib, paths[1..], srs)
    else Loadable(lib, paths[1..], srs)
  }

  lemma {:induction false} LoadableAppend(lib: Library, a: seq<string>, b: seq<string>, srs: string)
    ensures Loadable(lib, a + b, srs) == Loadable(lib, a, srs) + Loadable(lib, b, srs)
  {
    if a == [] {
      assert a + b == b;
    } else {
      var ab := a + b;
      assert ab[0] == a[0] && ab[1..] == a[1..] + b;
      LoadableAppend(lib, a[1..], b, srs);
      var head := if FirstFailure(lib, a[0], srs).None? then [a[0]] else [];
      assert Loadable(lib, ab, srs) == head + Loadable(lib, a[1..] + b, srs);
      assert Loadable(lib, a, srs) == head + Loadable(lib, a[1..], srs);
      ConcatAssoc(head, Loadable(lib, a[1..], srs), Loadable(lib, b, srs));
    }
  }

  /**
    One more directory entry puts its joined path at the head of the
    newest-first list exactly when it is a raster name whose dataset loads.
   */
  lemma DirectoryStep(lib: Library, dir: string, names: seq<string>, i: nat, srs: string)
    requires i < |names|
    ensures var path := JoinPath(PathBufferSize, dir, names[i]).value;
      Reversed(Loadable(lib, JoinAll(dir, RasterNames(names[..i + 1])), srs)) ==
      (if IsRasterName(names[i]) && FirstFailure(lib, path, srs).None? then [path] else []) +
      Reversed(Loadable(lib, JoinAll(dir, RasterNames(names[..i])), srs))
  {
    var path := JoinPath(PathBufferSize, dir, names[i]).value;
    var tried := JoinAll(dir, RasterNames(names[..i]));
    ScanStep(dir, names, i);
    if IsRasterName(names[i]) {
      LoadStep(lib, tried, path, srs);
    } else {
      assert tried + [] == tried;
    }
  }

  /** Trying one more path puts it at the head of the newest-first list exactly when it loads. */
  lemma LoadStep(lib: Library, tried: seq<string>, path: string, srs: string)
    ensures Reversed(Loadable(lib, tried + [path], srs)) ==
      (if FirstFailure(lib, path, srs).None? then [path] else []) + Reversed(Loadable(lib, tried, srs))
  {
    LoadableAppend(lib, tried, [path], srs);
    if FirstFailure(lib, path, srs).None? {
      assert Loadable(lib, [path], srs) == [path];
      ReversedSnoc(Loadable(lib, tried, srs), path);
    } else {
      assert Loadable(lib, [path], srs) == [];
      assert Loadable(lib, tried, srs) + [] == Loadable(lib, tried, srs);
    }
  }

  lemma ConcatAssoc<T>(a: seq<T>, b: seq<T>, c: seq<T>)
    ensures a + (b + c) == (a + b) + c
  {
  }

  function Reversed<T>(s: seq<T>): (r: seq<T>)
    ensures |r| == |s|
    ensures forall k :: 0 <= k < |s| ==> r[k] == s[|s| - 1 - k]
  {
    if s == [] then [] else Reversed(s[1..]) + [s[0]]
  }

  lemma {:induction false} ReversedSnoc<T>(s: seq<T>, x: T)
    ensures Reversed(s + [x]) == [x] + Reversed(s)
  {
    if s == [] {
      assert s + [x] == [x];
    } else {
      assert (s + [x])[1..] == s[1..] + [x];
      ReversedSnoc(s[1..], x);
    }
  }

  /** Every dataset in the list can answer queries. */
  ghost predicate AllValid(ds: seq<Dataset>)
    reads ds
  {
    forall d | d in ds :: d.Valid()
  }

  /** The file names of a dataset list, in list order. */
  ghost function FilenamesOf(ds: seq<Dataset>): (r: seq<string>)
    reads ds
    ensures |r| == |ds|
    ensures forall k :: 0 <= k < |ds| ==> r[k] == ds[k].filename
  {
    if ds == [] then [] else [ds[0].filename] + FilenamesOf(ds[1..])
  }

  /** Every dataset in the list is what `DatasetCreate` built from its own file with `lib` and `srs`. */
  ghost predicate BuiltWith(ds: seq<Dataset>, lib: Library, srs: string)
    reads ds
  {
    ds == [] || (ds[0].lib == lib && ds[0].BuiltFrom(ds[0].filename, srs) && BuiltWith(ds[1..], lib, srs))
  }

  /** The altitude `ContextGetAltitude` finds walking the list from its head. */
  ghost function FirstHit(ds: seq<Dataset>, x: real, y: real): Altitude
    reads ds
    requires AllValid(ds)
  {
    if ds == [] then NoData
    else
      var a := ds[0].GetAltitude(x, y);
      if a.Alt? then a else FirstHit(ds[1..], x, y)
  }

  /** The query misses exactly when every dataset misses, an empty list included. */
  lemma {:induction false} FirstHitMissIff(ds: seq<Dataset>, x: real, y: real)
    requires AllValid(ds)
    ensures FirstHit(ds, x, y) == NoData <==> forall k :: 0 <= k < |ds| ==> ds[k].GetAltitude(x, y) == NoData
  {
    if ds != [] {
      FirstHitMissIff(ds[1..], x, y);
      assert forall k :: 1 <= k < |ds| ==> ds[k] == ds[1..][k - 1];
    }
  }

  /** The first dataset from the head that has an altitude decides the answer. */
  lemma {:induction false} FirstHitIsFirst(ds: seq<Dataset>, x: real, y: real, k: nat)
    requires AllValid(ds) && k < |ds|
    requires ds[k].GetAltitude(x, y).Alt?
    requires forall j :: 0 <= j < k ==> ds[j].GetAltitude(x, y) == NoData
    ensures FirstHit(ds, x, y) == ds[k].GetAltitude(x, y)
  {
    if k > 0 {
      assert forall j :: 0 <= j < k - 1 ==> ds[1..][j] == ds[j + 1];
      FirstHitIsFirst(ds[1..], x, y, k - 1);
    }
  }

  /** Datasets that miss a point do not change the answer for it, however many are loaded. */
  lemma {:induction false} FirstHitSkipsMisses(misses: seq<Dataset>, ds: seq<Dataset>, x: real, y: real)
    requires AllValid(misses) && AllValid(ds)
    requires forall d | d in misses :: d.GetAltitude(x, y) == NoData
    ensures AllValid(misses + ds)
    ensures FirstHit(misses + ds, x, y) == FirstHit(ds, x, y)
  {
    if misses != [] {
      assert (misses + ds)[0] == misses[0];
      assert (misses + ds)[1..] == misses[1..] + ds;
      FirstHitSkipsMisses(misses[1..], ds, x, y);
    } else {
      assert misses + ds == ds;
    }
  }

  /** A point outside the bounds of every dataset has no altitude. */
  lemma OutsideAllBounds(ds: seq<Dataset>, x: real, y: real)
    requires AllValid(ds)
    requires forall d | d in ds :: !d.InBounds(x, y)
    ensures FirstHit(ds, x, y) == NoData
  {
    FirstHitMissIff(ds, x, y);
  }

  /**
    What a registry answers depends only on the library, the SRS and the list
    of files it loaded: two lists built alike from the same files, in the same
    order, answer every query alike.
   */
  lemma {:induction false} SameFilesSameAnswers(ds1: seq<Dataset>, ds2: seq<Dataset>, lib: Library, srs: string, x: real, y: real)
    requires BuiltWith(ds1, lib, srs) && BuiltWith(ds2, lib, srs)
    requires FilenamesOf(ds1) == FilenamesOf(ds2)
    ensures AllValid(ds1) && AllValid(ds2)
    ensures FirstHit(ds1, x, y) == FirstHit(ds2, x, y)
  {
    BuiltWithValid(ds1, lib, srs);
    BuiltWithValid(ds2, lib, srs);
    if ds1 != [] {
      assert FilenamesOf(ds1)[0] == FilenamesOf(ds2)[0];
      SameBuildSameAnswers(ds1[0], ds2[0], ds1[0].filename, srs, x, y);
      assert FilenamesOf(ds1[1..]) == FilenamesOf(ds1)[1..];
      assert FilenamesOf(ds2[1..]) == FilenamesOf(ds2)[1..];
      SameFilesSameAnswers(ds1[1..], ds2[1..], lib, srs, x, y);
    }
  }

  /** Every dataset `DatasetCreate` built can answer queries. */
  lemma {:induction false} BuiltWithValid(ds: seq<Dataset>, lib: Library, srs: string)
    requires BuiltWith(ds, lib, srs)
    ensures AllValid(ds)
  {
    if ds != [] {
      BuiltWithValid(ds[1..], lib, srs);
      assert forall d | d in ds :: d == ds[0] || d in ds[1..];
    }
  }

  /**
    `struct context`: the dataset list, newest at the head, and its counter.
   */
  class Context {
    var datasets: seq<Dataset>
    var numDatasets: nat

    ghost predicate Valid()
      reads this, datasets
    {
      numDatasets == |datasets| && AllValid(datasets)
    }

    constructor Empty()
      ensures Valid() && datasets == []
    {
      datasets := [];
      numDatasets := 0;
    }

    /**
      `ContextCreate`: a missing path loads nothing, a file is loaded itself,
      and a directory contributes its ".tif" and ".hgt" entries, joined to the
      directory path, in enumeration order. The list ends up newest first.
     */
    static method Create(lib: Library, path: string, srs: string, kind: PathKind) returns (ctx: Context)
      ensures fresh(ctx) && ctx.Valid()
      ensures BuiltWith(ctx.datasets, lib, srs)
      ensures FilenamesOf(ctx.datasets) == Reversed(Loadable(lib, CandidatePaths(path, kind), srs))
    {
      ctx := new Context.Empty();
      match kind {
        case Missing =>
        case NotDirectory =>
          ctx.AddDataset(lib, path, srs);
        case Directory(entries) =>
          if entries.Some? {
            ctx.AddDirectory(lib, path, entries.value, srs);
          }
      }
    }

    /**
      The `readdir` loop of `ContextCreate`: each ".tif" or ".hgt" entry, in
      enumeration order, is joined to the directory path and added.
     */
    method AddDirectory(lib: Library, dir: string, names: seq<string>, srs: string)
      requires Valid()
      modifies this
      ensures Valid()
      ensures FilenamesOf(datasets) ==
        Reversed(Loadable(lib, JoinAll(dir, RasterNames(names)), srs)) + old(FilenamesOf(datasets))
      ensures |datasets| >= |old(datasets)| && datasets[|datasets| - |old(datasets)|..] == old(datasets)
      ensures old(BuiltWith(datasets, lib, srs)) ==> BuiltWith(datasets, lib, srs)
    {
      ghost var before := FilenamesOf(datasets);
      ghost var older := datasets;
      ghost var builtBefore := BuiltWith(datasets, lib, srs);
      ghost var added: seq<Dataset> := [];
      for i := 0 to |names|
        invariant Valid()
        invariant FilenamesOf(datasets) == Reversed(Loadable(lib, JoinAll(dir, RasterNames(names[..i])), srs)) + before
        invariant datasets == added + older
        invariant builtBefore ==> BuiltWith(datasets, lib, srs)
      {
        var name := names[i];
        ghost var prev := datasets;
        AddEntry(lib, dir, name, srs);
        assert builtBefore ==> BuiltWith(datasets, lib, srs);
        if datasets != prev {
          ConcatAssoc([datasets[0]], added, older);
          added := [datasets[0]] + added;
        }
        assert datasets == added + older;
        DirectoryStep(lib, dir, names, i, srs);
        ghost var filepath := JoinPath(PathBufferSize, dir, name).value;
        ConcatAssoc(if IsRasterName(name) && FirstFailure(lib, filepath, srs).None? then [filepath] else [],
          Reversed(Loadable(lib, JoinAll(dir, RasterNames(names[..i])), srs)), before);
      }
      assert names[..|names|] == names;
    }

    /**
      One `readdir` entry of `ContextCreate`: a ".tif" or ".hgt" name is joined
      to the directory path and added; any other name is skipped.
     */
    method AddEntry(lib: Library, dir: string, name: string, srs: string)
      requires Valid()
      modifies this
      ensures Valid()
      ensures datasets == old(datasets) || (|datasets| > 0 && datasets == [datasets[0]] + old(datasets))
      ensures var path := JoinPath(PathBufferSize, dir, name).value;
        FilenamesOf(datasets) ==
          (if IsRasterName(name) && FirstFailure(lib, path, srs).None? then [path] else []) + old(FilenamesOf(datasets))
      ensures var path := JoinPath(PathBufferSize, dir, name).value;
        IsRasterName(name) && FirstFailure(lib, path, srs).None? ==>
          && |datasets| > 0 && fresh(datasets[0]) && datasets[0].filename == path
          && datasets[0].lib == lib && datasets[0].BuiltFrom(datasets[0].filename, srs)
      ensures old(BuiltWith(datasets, lib, srs)) ==> BuiltWith(datasets, lib, srs)
    {
      if EndsWith(Some(name), Some(".tif")) || EndsWith(Some(name), Some(".hgt")) {
        var filepath := JoinPath(PathBufferSize, dir, name).value;
        AddDataset(lib, filepath, srs);
        if FirstFailure(lib, filepath, srs).None? {
          assert datasets[0].lib == lib && datasets[0].BuiltFrom(filepath, srs);
          assert datasets == [datasets[0]] + datasets[1..];
          assert FilenamesOf(datasets) == [filepath] + old(FilenamesOf(datasets));
        } else {
          assert FilenamesOf(datasets) == [] + old(FilenamesOf(datasets));
        }
      } else {
        assert !IsRasterName(name);
        assert FilenamesOf(datasets) == [] + old(FilenamesOf(datasets));
      }
    }

    /**
      `contextAddDataset`: on success the new dataset goes to the head of the
      list and the counter grows by one; on failure nothing changes.
     */
    method AddDataset(lib: Library, filepath: string, srs: string)
      requires Valid()
      modifies this
      ensures Valid()
      ensures FirstFailure(lib, filepath, srs).None? ==>
        && |datasets| == |old(datasets)| + 1 && datasets[1..] == old(datasets)
        && fresh(datasets[0]) && datasets[0].lib == lib && datasets[0].BuiltFrom(filepath, srs)
        && numDatasets == old(numDatasets) + 1
      ensures FirstFailure(lib, filepath, srs).Some? ==>
        datasets == old(datasets) && numDatasets == old(numDatasets)
      ensures old(BuiltWith(datasets, lib, srs)) ==> BuiltWith(datasets, lib, srs)
      ensures FilenamesOf(datasets) ==
        (if FirstFailure(lib, filepath, srs).None? then [filepath] else []) + old(FilenamesOf(datasets))
    {
      var r := Dataset.Create(lib, filepath, srs);
      if r.Success? {
        var d := r.value;
        assert old(BuiltWith(datasets, lib, srs)) ==> BuiltWith(datasets, lib, srs);
        assert FilenamesOf(datasets) == old(FilenamesOf(datasets));
        datasets := [d] + datasets;
        numDatasets := numDatasets + 1;
        assert datasets[0] == d && datasets[1..] == old(datasets);
        assert d.filename == filepath;
      }
    }

    /** `ContextEmpty`: whether the list is empty, which is whether the counter is zero. */
    function IsEmpty(): (r: bool)
      reads this, datasets
      requires Valid()
      ensures r <==> numDatasets == 0
    {
      datasets == []
    }

    /**
      `ContextGetAltitude`: walks the list from the head and returns the first
      altitude a dataset yields, or NoData when none does.
     */
    method GetAltitude(x: real, y: real) returns (alt: Altitude)
      requires Valid()
      ensures alt == FirstHit(datasets, x, y)
    {
      var i := 0;
      while i < |datasets|
        invariant 0 <= i <= |datasets|
        invariant FirstHit(datasets[i..], x, y) == FirstHit(datasets, x, y)
      {
        alt := datasets[i].GetAltitude(x, y);
        if alt.Alt? {
          return;
        }
        assert datasets[i..][1..] == datasets[i + 1..];
        i := i + 1;
      }
      return NoData;
    }
  }

  /**
    The most recently added dataset that has an altitude at a point shadows
    every dataset added before it.
   */
  lemma NewestWins(d: Dataset, older: seq<Dataset>, x: real, y: real)
    requires d.Valid() && AllValid(older)
    requires d.GetAltitude(x, y).Alt?
    ensures AllValid([d] + older)
    ensures FirstHit([d] + older, x, y) == d.GetAltitude(x, y)
  {
  }
}
