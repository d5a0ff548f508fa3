/**
  The slice of GDAL and OGR that the engine consumes, as uninterpreted oracles.
  Every library call whose C result may be NULL (or a CPLErr other than CE_None)
  returns an `Option` here; the engine never looks inside the values it gets back.
 */
module Gdal {
  import opened Wrappers

  /** The six coefficients of a GDAL geotransform (`double adfGeoTransform[6]`). */
  type Affine = s: seq<real> | |s| == 6 witness [0.0, 0.0, 0.0, 0.0, 0.0, 0.0]

  /** A point (x, y) in some coordinate system. */
  type Point = (real, real)

  /** An `OGRSpatialReferenceH`: opaque to the engine. */
  datatype Srs = Srs(handle: nat)

  /** An `OGRCoordinateTransformationH`: opaque to the engine. */
  datatype Transform = Transform(handle: nat)

  /**
    A `GDALRasterBandH`: whether its sample type is complex, its nodata value
    (`GDALGetRasterNoDataValue`) and the outcome of a one-sample `GDALRasterIO`
    read at (pixel, line): the real part of the sample, or None when the read
    does not return CE_None.
   */
  datatype Band = Band(isComplex: bool, noDataValue: real, read: (int, int) -> Option<real>)

  /**
    A `GDALDatasetH` as the engine queries it: the band count, band 1
    (`GDALGetRasterBand(ds, 1)`), the grid size, the geotransform (None when
    `GDALGetGeoTransform` fails) and the projection reference string.
   */
  datatype Raster = Raster(
    bandCount: int,
    band: Option<Band>,
    xSize: int,
    ySize: int,
    geoTransform: Option<Affine>,
    projectionRef: string)

  /**
    The library entry points:
    - `open`: `GDALOpen(filename, GA_ReadOnly)`;
    - `invGeoTransform`: `GDALInvGeoTransform`, None when the affine is singular;
    - `sanitizeSrs`: `sanitizeSRS` (dataset.cpp:223-238), the user string as WKT;
    - `newSrs`: `OSRNewSpatialReference`;
    - `newTransform`: `OCTNewCoordinateTransformation`; either argument may be a NULL handle;
    - `transform`: `OCTTransform` of one point, None when it reports failure.
   */
  datatype Library = Library(
    open: string -> Option<Raster>,
    invGeoTransform: Affine -> Option<Affine>,
    sanitizeSrs: string -> Option<string>,
    newSrs: string -> Option<Srs>,
    newTransform: (Option<Srs>, Option<Srs>) -> Option<Transform>,
    transform: (Transform, real, real) -> Option<Point>)
}
