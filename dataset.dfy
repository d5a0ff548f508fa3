/**
  One elevation tile (dataset.cpp): a raster file opened through GDAL together
  with its geotransforms, its query/native coordinate transforms and its bounds
  in the query SRS.
 */
module Datasets {
  import opened Wrappers
  import opened Gdal

  /** An altitude query result: `NaN` in the C code is `NoData` here. */
  datatype Altitude = NoData | Alt(value: real)

  /**
    How one `DatasetGetAltitude` call ends. Only `Sample` yields an altitude;
    `OutsideGrid` is the one exit that sets `errno` to ERANGE, and the last
    three are the exits that read the raster.
   */
  datatype Exit =
    | OutsideBounds
    | TransformFailed
    | OutsideGrid(pixel: int, line: int)
    | ReadFailed(pixel: int, line: int)
    | NoDataSample(pixel: int, line: int)
    | Sample(pixel: int, line: int, value: real)
  {
    /** The exit assigns `errno = ERANGE`. */
    predicate SetsErange() {
      OutsideGrid?
    }

    /** The exit is reached only after `GDALRasterIO` was called. */
    predicate ReadsRaster() {
      ReadFailed? || NoDataSample? || Sample?
    }

    function ToAltitude(): (a: Altitude)
      ensures a.Alt? <==> Sample?
      ensures a.Alt? ==> a.value == value
    {
      if Sample? then Alt(value) else NoData
    }
  }

  /** Why `DatasetCreate` returned NULL: one value per failing step, in source order. */
  datatype CreateError =
    | OpenFailed
    | BandCount(count: int)
    | NoBand
    | ComplexType
    | NoGeoTransform
    | NotInvertible
    | InvalidSrs
    | SourceSrsFailed
    | ForwardTransformFailed
    | InverseTransformFailed
    | BoundsFailed

  /** An axis-aligned rectangle in the query SRS. */
  datatype Bounds = Bounds(top: real, left: real, bottom: real, right: real)

  /** The four raster corners after transformation into the query SRS. */
  datatype Quad = Quad(upperLeft: Point, lowerLeft: Point, upperRight: Point, lowerRight: Point)

  /** GDAL's pixel/line to georeferenced mapping: the affine image of (u, v). */
  function ApplyAffine(t: Affine, u: real, v: real): Point {
    (t[0] + t[1] * u + t[2] * v, t[3] + t[4] * u + t[5] * v)
  }

  /**
    The native coordinate that `datasetGetCorner` computes for pixel corner
    (u, v). The x coordinate is the affine image; the y coordinate is computed
    from the already-updated x, so it is off from the affine image by
    t[4] times the change in x.
   */
  function CornerToNative(t: Affine, u: real, v: real): (p: Point)
    ensures p.0 == ApplyAffine(t, u, v).0
    ensures p.1 == ApplyAffine(t, u, v).1 + t[4] * (p.0 - u)
  {
    var x := t[0] + t[1] * u + t[2] * v;
    (x, t[3] + t[4] * x + t[5] * v)
  }

  /** The corner quirk disappears exactly when t[4] is zero or the corner's x does not move. */
  lemma CornerExactIff(t: Affine, u: real, v: real)
    ensures CornerToNative(t, u, v) == ApplyAffine(t, u, v) <==> t[4] * (ApplyAffine(t, u, v).0 - u) == 0.0
  {
  }

  /** A corner carried into the query SRS by the inverse coordinate transform. */
  function ProjectCorner(lib: Library, inv: Transform, t: Affine, u: real, v: real): Option<Point> {
    var c := CornerToNative(t, u, v);
    lib.transform(inv, c.0, c.1)
  }

  /** The four corners of an xSize by ySize grid, or None if any of them fails to transform. */
  function Corners(lib: Library, inv: Transform, t: Affine, xSize: int, ySize: int): (r: Option<Quad>)
    ensures r.Some? <==>
      && ProjectCorner(lib, inv, t, 0.0, 0.0).Some?
      && ProjectCorner(lib, inv, t, 0.0, ySize as real).Some?
      && ProjectCorner(lib, inv, t, xSize as real, 0.0).Some?
      && ProjectCorner(lib, inv, t, xSize as real, ySize as real).Some?
  {
    var ul := ProjectCorner(lib, inv, t, 0.0, 0.0);
    var ll := ProjectCorner(lib, inv, t, 0.0, ySize as real);
    var ur := ProjectCorner(lib, inv, t, xSize as real, 0.0);
    var lr := ProjectCorner(lib, inv, t, xSize as real, ySize as real);
    if ul.Some? && ll.Some? && ur.Some? && lr.Some? then
      Some(Quad(ul.value, ll.value, ur.value, lr.value))
    else
      None
  }

  /**
    The bounds that `datasetGetBounds` derives from the four corners. Each side
    takes the extreme of only the two corners on that side: top of the upper
    two, bottom of the lower two, left of the left two, right of the right two.
   */
  function Envelope(q: Quad): (b: Bounds)
    ensures b.top >= q.upperLeft.1 && b.top >= q.upperRight.1
    ensures b.top == q.upperLeft.1 || b.top == q.upperRight.1
    ensures b.bottom <= q.lowerLeft.1 && b.bottom <= q.lowerRight.1
    ensures b.bottom == q.lowerLeft.1 || b.bottom == q.lowerRight.1
    ensures b.left <= q.upperLeft.0 && b.left <= q.lowerLeft.0
    ensures b.left == q.upperLeft.0 || b.left == q.lowerLeft.0
    ensures b.right >= q.upperRight.0 && b.right >= q.lowerRight.0
    ensures b.right == q.upperRight.0 || b.right == q.lowerRight.0
  {
    Bounds(
      if q.upperRight.1 > q.upperLeft.1 then q.upperRight.1 else q.upperLeft.1,
      if q.upperLeft.0 < q.lowerLeft.0 then q.upperLeft.0 else q.lowerLeft.0,
      if q.lowerRight.1 < q.lowerLeft.1 then q.lowerRight.1 else q.lowerLeft.1,
      if q.upperRight.0 > q.lowerRight.0 then q.upperRight.0 else q.lowerRight.0)
  }

  /** The bounds are not an envelope of all four corners: a lower corner can lie above `top`. */
  lemma EnvelopeCanMissCorner()
    ensures exists q: Quad :: q.lowerLeft.1 > Envelope(q).top
  {
    var q := Quad((0.0, 0.0), (0.0, 5.0), (1.0, 0.0), (1.0, 0.0));
    assert q.lowerLeft.1 > Envelope(q).top;
  }

  /** When the transformed grid keeps its orientation, every corner lies inside the bounds. */
  lemma EnvelopeContainsUprightQuad(q: Quad)
    requires q.upperLeft.1 >= q.lowerLeft.1 && q.upperRight.1 >= q.lowerRight.1
    requires q.upperLeft.0 <= q.upperRight.0 && q.lowerLeft.0 <= q.lowerRight.0
    ensures var b := Envelope(q);
      forall p :: p in [q.upperLeft, q.lowerLeft, q.upperRight, q.lowerRight] ==>
        b.left <= p.0 <= b.right && b.bottom <= p.1 <= b.top
  {
  }

  /**
    The pixel/line cell of a native coordinate under the inverse geotransform,
    `(int) floor(...)` of each affine row.
   */
  function PixelOf(inv: Affine, p: Point): (r: (int, int))
    ensures r.0 as real <= inv[0] + inv[1] * p.0 + inv[2] * p.1 < r.0 as real + 1.0
    ensures r.1 as real <= inv[3] + inv[4] * p.0 + inv[5] * p.1 < r.1 as real + 1.0
  {
    ((inv[0] + inv[1] * p.0 + inv[2] * p.1).Floor, (inv[3] + inv[4] * p.0 + inv[5] * p.1).Floor)
  }

  /**
    The step at which `DatasetCreate` returns NULL for this file and SRS, or
    None when it returns a dataset: the raster checks first, then the
    projection steps.
   */
  function FirstFailure(lib: Library, filename: string, srs: string): Option<CreateError> {
    match lib.open(filename)
    case None => Some(OpenFailed)
    case Some(ds) =>
      var e := RasterFailure(lib, ds);
      if e.Some? then e else ProjectionFailure(lib, ds, srs)
  }

  /** The checks on the opened raster: one real-valued band and an invertible geotransform. */
  function RasterFailure(lib: Library, ds: Raster): (e: Option<CreateError>)
    ensures e.None? ==> ds.geoTransform.Some?
  {
    if ds.bandCount != 1 then Some(BandCount(ds.bandCount))
    else if ds.band.None? then Some(NoBand)
    else if ds.band.value.isComplex then Some(ComplexType)
    else if ds.geoTransform.None? then Some(NoGeoTransform)
    else if lib.invGeoTransform(ds.geoTransform.value).None? then Some(NotInvertible)
    else None
  }

  /**
    The SRS, coordinate-transform and bounds steps. The target SRS is created
    but never tested (the source re-tests the source SRS in its place), so a
    NULL target handle goes on to `OCTNewCoordinateTransformation`.
   */
  function ProjectionFailure(lib: Library, ds: Raster, srs: string): Option<CreateError>
    requires ds.geoTransform.Some?
  {
    match lib.sanitizeSrs(srs)
    case None => Some(InvalidSrs)
    case Some(wkt) =>
      match lib.newSrs(wkt)
      case None => Some(SourceSrsFailed)
      case Some(src) =>
        var trg := lib.newSrs(ds.projectionRef);
        match lib.newTransform(Some(src), trg)
        case None => Some(ForwardTransformFailed)
        case Some(_) =>
          match lib.newTransform(trg, Some(src))
          case None => Some(InverseTransformFailed)
          case Some(inv) =>
            if Corners(lib, inv, ds.geoTransform.value, ds.xSize, ds.ySize).None? then Some(BoundsFailed)
            else None
  }

  /** A dataset is created exactly when every step succeeds, with a single band of real samples. */
  lemma CreatedMeansUsable(lib: Library, filename: string, srs: string)
    requires FirstFailure(lib, filename, srs).None?
    ensures lib.open(filename).Some?
    ensures var ds := lib.open(filename).value;
      && ds.bandCount == 1 && ds.band.Some? && !ds.band.value.isComplex
      && ds.geoTransform.Some? && lib.invGeoTransform(ds.geoTransform.value).Some?
      && lib.sanitizeSrs(srs).Some? && lib.newSrs(lib.sanitizeSrs(srs).value).Some?
  {
  }

  /**
    A NULL target SRS does not stop creation: when the transform oracle accepts
    the NULL handle in both directions, the dataset is created.
   */
  lemma TargetSrsIsNotChecked(lib: Library, filename: string, srs: string, src: Srs, inv: Transform)
    requires lib.open(filename).Some? && RasterFailure(lib, lib.open(filename).value).None?
    requires lib.sanitizeSrs(srs).Some? && lib.newSrs(lib.sanitizeSrs(srs).value) == Some(src)
    requires lib.newSrs(lib.open(filename).value.projectionRef).None?
    requires lib.newTransform(Some(src), None).Some? && lib.newTransform(None, Some(src)) == Some(inv)
    requires var ds := lib.open(filename).value;
      Corners(lib, inv, ds.geoTransform.value, ds.xSize, ds.ySize).Some?
    ensures FirstFailure(lib, filename, srs).None?
  {
  }

  /**
    `struct dataset`. A freshly allocated object has every handle NULL and every
    number zero, like the `calloc` in `DatasetCreate`; `Create` fills the fields
    step by step.
   */
  class Dataset {
    const lib: Library
    var filename: string
    var raster: Option<Raster>          // hSrcDS
    var band: Option<Band>              // hBand
    var noDataValue: real
    var srcSrs: Option<Srs>             // the query SRS
    var trgSrs: Option<Srs>             // the raster's native SRS
    var sanitizedSrs: Option<string>
    var ct: Option<Transform>           // query to native
    var invCt: Option<Transform>        // native to query
    var geo: Affine                     // adfGeoTransform
    var invGeo: Affine                  // adfInvGeoTransform
    var top: real
    var left: real
    var bottom: real
    var right: real

    /** Every handle that a query uses is present. */
    predicate Valid()
      reads this
    {
      raster.Some? && band.Some? && ct.Some? && invCt.Some?
    }

    /** The fields hold what `DatasetCreate` stores for this file and SRS. */
    ghost predicate BuiltFrom(file: string, srs: string)
      reads this
    {
      && raster == lib.open(file) && raster.Some?
      && filename == file
      && RasterLoaded()
      && ProjectionLoaded(srs)
    }

    /** The band, nodata value and geotransforms are those of the open raster. */
    ghost predicate RasterLoaded()
      reads this
    {
      && raster.Some?
      && band == raster.value.band && band.Some?
      && noDataValue == band.value.noDataValue
      && raster.value.geoTransform == Some(geo)
      && lib.invGeoTransform(geo) == Some(invGeo)
    }

    /** The SRS handles, coordinate transforms and bounds are those built from `srs`. */
    ghost predicate ProjectionLoaded(srs: string)
      reads this
    {
      && raster.Some?
      && sanitizedSrs == lib.sanitizeSrs(srs) && sanitizedSrs.Some?
      && srcSrs == lib.newSrs(sanitizedSrs.value)
      && trgSrs == lib.newSrs(raster.value.projectionRef)
      && ct == lib.newTransform(srcSrs, trgSrs) && ct.Some?
      && invCt == lib.newTransform(trgSrs, srcSrs) && invCt.Some?
      && var q := Corners(lib, invCt.value, geo, raster.value.xSize, raster.value.ySize);
         q.Some? && StoredBounds() == Envelope(q.value)
    }

    function StoredBounds(): Bounds
      reads this
    {
      Bounds(top, left, bottom, right)
    }

    /** The inclusive bounds pre-filter of `DatasetGetAltitude`. */
    predicate InBounds(x: real, y: real)
      reads this
    {
      !(x < left || x > right || y < bottom || y > top)
    }

    predicate InGrid(pixel: int, line: int)
      reads this
      requires Valid()
    {
      0 <= pixel < raster.value.xSize && 0 <= line < raster.value.ySize
    }

    constructor Empty(lib: Library)
      ensures this.lib == lib
      ensures raster == None && band == None && ct == None && invCt == None
      ensures srcSrs == None && trgSrs == None && sanitizedSrs == None
      ensures filename == [] && noDataValue == 0.0
      ensures StoredBounds() == Bounds(0.0, 0.0, 0.0, 0.0)
      ensures forall k :: 0 <= k < 6 ==> geo[k] == 0.0 && invGeo[k] == 0.0
    {
      this.lib := lib;
      filename := [];
      raster, band := None, None;
      noDataValue := 0.0;
      srcSrs, trgSrs, sanitizedSrs := None, None, None;
      ct, invCt := None, None;
      geo := [0.0, 0.0, 0.0, 0.0, 0.0, 0.0];
      invGeo := [0.0, 0.0, 0.0, 0.0, 0.0, 0.0];
      top, left, bottom, right := 0.0, 0.0, 0.0, 0.0;
    }

    /**
      `DatasetCreate`: the fail-fast chain of steps. The error value stands for
      the message the source prints before returning NULL.
     */
    static method Create(lib: Library, filename: string, srs: string) returns (r: Result<Dataset, CreateError>)
      ensures r.Failure? <==> FirstFailure(lib, filename, srs).Some?
      ensures r.Failure? ==> r.error == FirstFailure(lib, filename, srs).value
      ensures r.Success? ==> fresh(r.value) && r.value.lib == lib && r.value.Valid()
      ensures r.Success? ==> r.value.BuiltFrom(filename, srs)
    {
      var ctx := new Dataset.Empty(lib);
      ctx.raster := lib.open(filename);
      var e: Option<CreateError> := Some(OpenFailed);
      if ctx.raster.Some? {
        ctx.filename := filename;
        e := ctx.LoadRaster();
        if e.None? {
          e := ctx.LoadProjection(srs);
        }
      }
      assert FirstFailure(lib, filename, srs) == e;
      // Every failing step releases what was built so far and returns NULL.
      r := if e.Some? then Failure(e.value) else Success(ctx);
    }

    /**
      The raster checks of `DatasetCreate`: exactly one band, a band that
      exists, a real data type, a geotransform and its inverse.
     */
    method LoadRaster() returns (e: Option<CreateError>)
      requires raster.Some?
      modifies this`band, this`noDataValue, this`geo, this`invGeo
      ensures e == RasterFailure(lib, raster.value)
      ensures e.None? ==> RasterLoaded()
    {
      var count := raster.value.bandCount;
      if count != 1 {
        return Some(BandCount(count));
      }
      band := raster.value.band;
      if band.None? {
        return Some(NoBand);
      }
      if band.value.isComplex {
        return Some(ComplexType);
      }
      noDataValue := band.value.noDataValue;
      if raster.value.geoTransform.None? {
        return Some(NoGeoTransform);
      }
      geo := raster.value.geoTransform.value;
      var inv := lib.invGeoTransform(geo);
      if inv.None? {
        return Some(NotInvertible);
      }
      invGeo := inv.value;
      return None;
    }

    /**
      The second half of `DatasetCreate`: sanitize the SRS, create both SRS
      handles and both coordinate transforms, then compute the bounds.
     */
    method LoadProjection(srs: string) returns (e: Option<CreateError>)
      requires raster.Some? && raster.value.geoTransform == Some(geo)
      modifies this`sanitizedSrs, this`srcSrs, this`trgSrs, this`ct, this`invCt
      modifies this`top, this`left, this`bottom, this`right
      ensures e == ProjectionFailure(lib, raster.value, srs)
      ensures e.None? ==> ProjectionLoaded(srs)
    {
      sanitizedSrs := lib.sanitizeSrs(srs);
      if sanitizedSrs.None? {
        return Some(InvalidSrs);
      }
      srcSrs := lib.newSrs(sanitizedSrs.value);
      if srcSrs.None? {
        return Some(SourceSrsFailed);
      }
      // The source tests the source SRS a second time here instead of the
      // target SRS; that test can never fail, so a NULL target goes on.
      trgSrs := lib.newSrs(raster.value.projectionRef);
      ct := lib.newTransform(srcSrs, trgSrs);
      if ct.None? {
        return Some(ForwardTransformFailed);
      }
      invCt := lib.newTransform(trgSrs, srcSrs);
      if invCt.None? {
        return Some(InverseTransformFailed);
      }
      var ok := ComputeBounds();
      if !ok {
        return Some(BoundsFailed);
      }
      return None;
    }

    /**
      `datasetGetCorner`: pixel corner (x, y) to native coordinates through the
      geotransform (y from the updated x), then to the query SRS through the
      inverse coordinate transform; `ok` is that transform's success.
     */
    method GetCorner(x: real, y: real) returns (ok: bool, cx: real, cy: real)
      requires invCt.Some?
      ensures ok <==> ProjectCorner(lib, invCt.value, geo, x, y).Some?
      ensures ok ==> (cx, cy) == ProjectCorner(lib, invCt.value, geo, x, y).value
    {
      cx := geo[0] + geo[1] * x + geo[2] * y;
      cy := geo[3] + geo[4] * cx + geo[5] * y;
      assert cx == CornerToNative(geo, x, y).0;
      assert cy == CornerToNative(geo, x, y).1;
      var p := lib.transform(invCt.value, cx, cy);
      ok := p.Some?;
      if ok {
        cx, cy := p.value.0, p.value.1;
      }
    }

    /**
      `datasetGetBounds`: transforms the four grid corners and stores the
      bounds; on the first failing corner it returns false with the bounds
      fields unwritten.
     */
    method ComputeBounds() returns (ok: bool)
      requires raster.Some? && invCt.Some?
      modifies this`top, this`left, this`bottom, this`right
      ensures var q := Corners(lib, invCt.value, geo, raster.value.xSize, raster.value.ySize);
        && (ok <==> q.Some?)
        && (ok ==> StoredBounds() == Envelope(q.value))
      ensures !ok ==> StoredBounds() == old(StoredBounds())
    {
      var xSize, ySize := raster.value.xSize as real, raster.value.ySize as real;
      var ulOk, upperLeftX, upperLeftY := GetCorner(0.0, 0.0);
      if !ulOk {
        return false;
      }
      var llOk, lowerLeftX, lowerLeftY := GetCorner(0.0, ySize);
      if !llOk {
        return false;
      }
      var urOk, upperRightX, upperRightY := GetCorner(xSize, 0.0);
      if !urOk {
        return false;
      }
      var lrOk, lowerRightX, lowerRightY := GetCorner(xSize, ySize);
      if !lrOk {
        return false;
      }
      top := if upperRightY > upperLeftY then upperRightY else upperLeftY;
      bottom := if lowerRightY < lowerLeftY then lowerRightY else lowerLeftY;
      left := if upperLeftX < lowerLeftX then upperLeftX else lowerLeftX;
      right := if upperRightX > lowerRightX then upperRightX else lowerRightX;
      return true;
    }

    /** `DatasetGetBounds`: the stored bounds, unchanged. */
    method GetBounds() returns (t: real, l: real, b: real, r: real)
      ensures Bounds(t, l, b, r) == StoredBounds()
      ensures forall x: real, y: real :: InBounds(x, y) <==> l <= x <= r && b <= y <= t
    {
      t, l, b, r := top, left, bottom, right;
    }

    /**
      The exit that `DatasetGetAltitude` takes for query point (x, y):
      bounds pre-filter, forward transform, floor of the inverse geotransform,
      grid check, one-sample read, exact nodata comparison.
     */
    function Probe(x: real, y: real): (r: Exit)
      reads this
      requires Valid()
      ensures r.OutsideBounds? <==> x < left || x > right || y < bottom || y > top
      ensures r.TransformFailed? <==> InBounds(x, y) && lib.transform(ct.value, x, y).None?
      ensures !r.OutsideBounds? && !r.TransformFailed? ==>
        && lib.transform(ct.value, x, y).Some?
        && (r.pixel, r.line) == PixelOf(invGeo, lib.transform(ct.value, x, y).value)
      ensures r.SetsErange() <==>
        && InBounds(x, y) && lib.transform(ct.value, x, y).Some?
        && var (p, l) := PixelOf(invGeo, lib.transform(ct.value, x, y).value);
           p < 0 || l < 0 || p >= raster.value.xSize || l >= raster.value.ySize
      ensures r.ReadsRaster() ==> InGrid(r.pixel, r.line)
      ensures r.ReadFailed? ==> band.value.read(r.pixel, r.line).None?
      ensures r.NoDataSample? ==> band.value.read(r.pixel, r.line) == Some(noDataValue)
      ensures r.Sample? ==> band.value.read(r.pixel, r.line) == Some(r.value) && r.value != noDataValue
    {
      if x < left || x > right || y < bottom || y > top then
        OutsideBounds
      else
        match lib.transform(ct.value, x, y)
        case None => TransformFailed
        case Some(native) =>
          var (pixel, line) := PixelOf(invGeo, native);
          if pixel < 0 || line < 0 || pixel >= raster.value.xSize || line >= raster.value.ySize then
            OutsideGrid(pixel, line)
          else
            match band.value.read(pixel, line)
            case None => ReadFailed(pixel, line)
            case Some(v) => if v == noDataValue then NoDataSample(pixel, line) else Sample(pixel, line, v)
    }

    /** `DatasetGetAltitude`: the sample at the query point, or NoData. */
    function GetAltitude(x: real, y: real): (a: Altitude)
      reads this
      requires Valid()
      ensures !InBounds(x, y) ==> a == NoData
      ensures a.Alt? ==> InBounds(x, y) && a.value != noDataValue
      ensures a.Alt? <==> Probe(x, y).Sample?
      ensures a.Alt? ==> a.value == Probe(x, y).value
    {
      Probe(x, y).ToAltitude()
    }
  }

  /**
    What a dataset answers depends only on the library, the file and the SRS it
    was built from: two datasets built alike answer every query alike.
   */
  lemma SameBuildSameAnswers(d1: Dataset, d2: Dataset, file: string, srs: string, x: real, y: real)
    requires d1.lib == d2.lib
    requires d1.BuiltFrom(file, srs) && d2.BuiltFrom(file, srs)
    ensures d1.Valid() && d2.Valid()
    ensures d1.GetAltitude(x, y) == d2.GetAltitude(x, y)
  {
    assert d1.StoredBounds() == d2.StoredBounds();
    assert d1.Probe(x, y) == d2.Probe(x, y);
  }

  /**
    For an in-grid cell whose read succeeds, the query returns the sample
    unchanged unless it equals the nodata value exactly.
   */
  lemma {:induction false} SampleOrNoData(d: Dataset, x: real, y: real, v: real)
    requires d.Valid() && d.InBounds(x, y)
    requires d.lib.transform(d.ct.value, x, y).Some?
    requires var (p, l) := PixelOf(d.invGeo, d.lib.transform(d.ct.value, x, y).value);
      d.InGrid(p, l) && d.band.value.read(p, l) == Some(v)
    ensures d.GetAltitude(x, y) == if v == d.noDataValue then NoData else Alt(v)
  {
    var r := d.Probe(x, y);
    assert !r.OutsideBounds? && !r.TransformFailed? && !r.SetsErange();
  }
}
