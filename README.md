# demd elevation lookup engine in Dafny

This project models the core of demd, a small HTTP service that answers
point-altitude queries against digital elevation raster tiles. The model has
three parts:

- **The tile** (`dataset.cpp`, module `Datasets`). The `Dataset` class is the
  C `struct dataset`. `Dataset.Create` runs the fail-fast chain of
  `DatasetCreate`, filling the fields step by step. It is proved against the
  pure function `FirstFailure`, which names the first failing step; its two
  halves are `LoadRaster` and `LoadProjection`.
  `ComputeBounds` and `GetCorner` are `datasetGetBounds` and
  `datasetGetCorner`. `Probe` and `GetAltitude` are `DatasetGetAltitude`:
  - an inclusive bounds pre-filter;
  - the forward coordinate transform;
  - `floor` of the inverse geotransform;
  - the grid check, the only exit that sets `errno` to ERANGE;
  - a one-sample read;
  - an exact comparison with the nodata value.
- **The registry** (`context.cpp`, module `Contexts`). The `Context` class
  holds the dataset list as a `seq` with the newest dataset at the head, plus
  the `num_datasets` counter. `AddDataset` inserts at the head.
  `GetAltitude` walks the list and returns the first altitude it finds. It is
  proved against the spec function `FirstHit`. `Create`, `AddDirectory` and
  `AddEntry` are `ContextCreate`, with its `.tif`/`.hgt` name filter and
  `joinPath`. The ghost predicate `BuiltWith` says that every listed dataset
  is what `DatasetCreate` built from its own file, so a registry's answers
  are fixed by the files it loaded (`SameFilesSameAnswers`).
- **The batch handler** (`elevation.cpp`, module `Elevation`). `Handle` is
  `elevation_request_cb`. Its loop builds the result array one pair at a time.
  It is proved equal to the spec function `Respond`.

GDAL, OGR, json-c and libevent are not modelled. They appear only as oracles:
the function fields of `Gdal.Library` and `Elevation.Env`, which return
`Option` wherever the C call can return NULL or fail. The registry's altitude
query reaches the handler as a function parameter. C doubles are `real`, and
`NaN` is `NoData`.

Three quirks of `dataset.cpp` are modelled as written:
- `datasetGetCorner` computes the new y from the already-updated x. The
  lemma `CornerExactIff` says when this equals the true affine image.
- The bounds are not a full envelope. `top` comes from the two upper
  corners only, `bottom` from the two lower, and so on. The lemma
  `EnvelopeCanMissCorner` gives a quad whose lower corner lies above `top`.
- The "target SRS" NULL test re-tests the source SRS. A NULL target handle
  therefore reaches `OCTNewCoordinateTransformation` (`TargetSrsIsNotChecked`).

The handler's error statuses follow the code. A body that fails to parse as
JSON takes the `err` path and gets 500 (elevation.cpp:56-61, 125-126). So does
the document `null`: json-c represents it by a NULL pointer, the same value a
parse error returns, and the `!json` test cannot tell them apart. An empty
body, any other document that is not an array, and a malformed pair get 400
(elevation.cpp:44-48, 63-66, 82-99).

## Model

| member | source | states |
|---|---|---|
| `Datasets.CornerToNative` | dataset.cpp:215-218 | the corner's x is the affine image of the pixel corner; its y is the affine image's y plus gt[4] times the change in x (y is computed from the updated x) |
| `Datasets.CornerExactIff` | dataset.cpp:215-218 | the corner equals the affine image exactly when gt[4]·(x′ − u) = 0 |
| `Datasets.Corners` | dataset.cpp:185-204 | the four corners are available exactly when all four corner transforms succeed |
| `Datasets.Envelope` | dataset.cpp:206-209 | top is the larger y of the two upper corners, bottom the smaller y of the two lower, left the smaller x of the two left, right the larger x of the two right |
| `Datasets.EnvelopeCanMissCorner` | dataset.cpp:206-209 | some quad has a lower corner above the computed top, so the bounds are not an envelope of all four corners |
| `Datasets.EnvelopeContainsUprightQuad` | dataset.cpp:206-209 | when the transformed grid keeps its orientation, all four corners lie inside the bounds |
| `Datasets.PixelOf` | dataset.cpp:151-159 | pixel and line are the floors of the two inverse-affine rows: p ≤ inv[0] + inv[1]·x + inv[2]·y < p + 1, and the same for the line |
| `Datasets.CreatedMeansUsable` | dataset.cpp:37-85 | a created dataset was opened, has exactly one band that exists and is not complex, an invertible geotransform, a sanitized SRS and a source SRS |
| `Datasets.TargetSrsIsNotChecked` | dataset.cpp:86-103 | a NULL target SRS does not stop creation when both transform constructions accept it |
| `Datasets.Dataset.Empty` | dataset.cpp:36 | a new dataset has every handle NULL and every number zero, both geotransforms included, as after `calloc` |
| `Datasets.Dataset.Create` | dataset.cpp:35-110 | NULL (Failure) exactly when some step fails, naming the first failing step in source order; on success a fresh, queryable dataset whose fields hold the oracle results and the envelope of its corners |
| `Datasets.Dataset.LoadRaster` | dataset.cpp:47-73 | the band-count, band, data-type, geotransform and inversion checks fail at the first failing one, in order; on success band, nodata value and both geotransforms are those of the open raster |
| `Datasets.Dataset.LoadProjection` | dataset.cpp:74-108 | the SRS, transform and bounds steps fail at the first failing one, in order; on success both transforms exist and the bounds are the envelope of the corners |
| `Datasets.Dataset.GetCorner` | dataset.cpp:214-221 | returns the inverse transform's success for the corner computed by `CornerToNative`, and the transformed point when it succeeds |
| `Datasets.Dataset.ComputeBounds` | dataset.cpp:185-212 | true exactly when all four corners transform; then the stored bounds are their `Envelope`; on false the bounds fields are unchanged |
| `Datasets.Dataset.GetBounds` | dataset.cpp:178-183 | returns the stored bounds unchanged; the pre-filter accepts a point exactly when l ≤ x ≤ r and b ≤ y ≤ t, edges included |
| `Datasets.Dataset.Probe` | dataset.cpp:144-176 | out of bounds exactly when x < left, x > right, y < bottom or y > top; a transform failure exactly when it is in bounds and the transform fails; otherwise the pixel is `PixelOf` the transformed point; ERANGE exactly when that pixel is outside [0, XSize) × [0, YSize); the raster is read only at in-grid pixels; a sample equal to the nodata value gives no altitude, any other sample is returned unchanged |
| `Datasets.Dataset.GetAltitude` | dataset.cpp:144-176 | NoData outside the bounds; an altitude only for an in-bounds point whose sample differs from the nodata value, exactly when the probe ends in a sample, and then the altitude is that sample |
| `Datasets.SampleOrNoData` | dataset.cpp:166-175 | for an in-grid pixel whose read gives v: NoData if v equals the nodata value exactly, otherwise v |
| `Datasets.SameBuildSameAnswers` | dataset.cpp:35-176 | two datasets built with the same library from the same file and SRS answer every query alike |
| `Contexts.EndsWith` | context.cpp:104-112 | true exactly when both strings are non-NULL and the string is some prefix followed by the suffix (so false when the suffix is longer) |
| `Contexts.JoinPath` | context.cpp:114-120 | nothing written for n = 0; otherwise a prefix of `dir + file` (dir ending in "/") or `dir + "/" + file`, of length min(full length, n − 1) |
| `Contexts.JoinPathNoDoubleSlash` | context.cpp:114-120 | without truncation the result is `dir + file` when dir ends in "/", and `dir + "/" + file` otherwise |
| `Contexts.RasterNames` | context.cpp:41-46 | keeps exactly the names ending in ".tif" or ".hgt" |
| `Contexts.RasterNamesAppend` | context.cpp:41-46 | the filter keeps enumeration order: filtering a + b is filtering a, then filtering b |
| `Contexts.JoinAll` | context.cpp:43 | each kept name becomes its `joinPath` with the directory and a 1024-byte buffer, in order |
| `Contexts.Loadable` | context.cpp:72-86 | keeps exactly the paths for which `DatasetCreate` succeeds |
| `Contexts.FirstHitMissIff` | context.cpp:92-101 | the registry returns NoData exactly when every dataset returns NoData, the empty list included |
| `Contexts.FirstHitIsFirst` | context.cpp:92-101 | the first dataset from the head that returns an altitude decides the answer |
| `Contexts.FirstHitSkipsMisses` | context.cpp:92-101 | datasets that miss a point do not change the answer, however many there are |
| `Contexts.OutsideAllBounds` | context.cpp:92-101 | a point outside the bounds of every dataset has no altitude |
| `Contexts.SameFilesSameAnswers` | context.cpp:31-101 | two registries whose datasets were built with the same library and SRS from the same files, in the same order, answer every query alike |
| `Contexts.NewestWins` | context.cpp:72-101 | a dataset at the head that has an altitude at a point shadows all older datasets |
| `Contexts.Context.Empty` | context.cpp:32-33 | a new registry is empty with counter zero |
| `Contexts.Context.Create` | context.cpp:31-56 | the loaded file names, head first, are the reverse of the candidate paths that load: none for a missing path, the path itself for any existing path that is not a directory, the joined ".tif"/".hgt" entries in enumeration order for a directory; every listed dataset is the one `DatasetCreate` built from its file with the given library and SRS |
| `Contexts.DirectoryStep` | context.cpp:41-46 | one more directory entry adds its joined path at the head of the loaded names exactly when it is a ".tif"/".hgt" name whose dataset loads |
| `Contexts.Context.AddDirectory` | context.cpp:38-48 | the directory scan puts the loadable joined entries in front of the list, newest first; the old dataset objects stay as the tail; if every old dataset was built with this library and SRS, every dataset of the new list is |
| `Contexts.Context.AddEntry` | context.cpp:42-45 | a ".tif"/".hgt" entry whose dataset loads adds one dataset at the head, named by its joined path; that head is a fresh dataset with the given library, built by `DatasetCreate` from the joined path and SRS; any other entry leaves the list unchanged; the built-with property of the list is kept |
| `Contexts.Context.AddDataset` | context.cpp:72-86 | on success the new dataset is at the head, built by `DatasetCreate` from the path with the given library, the old list follows unchanged and the counter grows by exactly one; on failure list and counter are unchanged |
| `Contexts.Context.IsEmpty` | context.cpp:88-90 | the list is empty exactly when the counter is zero |
| `Contexts.Context.GetAltitude` | context.cpp:92-102 | returns the first altitude found walking from the head (`FirstHit`) |
| `Elevation.Entry` | elevation.cpp:100-105 | an accepted pair gives null or a number, a number exactly when the registry has an altitude there, and then that altitude |
| `Elevation.Batch` | elevation.cpp:82-106 | fails exactly when some element is not a 2-array of readable numbers; otherwise one entry per pair, in input order |
| `Elevation.Respond` | elevation.cpp:16-140 | a command other than POST gives 405 whatever else holds; errors are 400, 405 or 500; a reply is 200 with Content-Type `application/json; charset=utf-8` |
| `Elevation.Handle` | elevation.cpp:16-140 | the handler's response equals `Respond` for every request and library outcome |
| `Elevation.EmptyBodyIsBadRequest` | elevation.cpp:44-48 | an empty body gives 400 |
| `Elevation.ParseFailureIsServerError` | elevation.cpp:56-61 | a body that does not parse gives 500 |
| `Elevation.NullDocumentIsServerError` | elevation.cpp:56-61 | the document `null`, a NULL pointer in json-c, gives 500 like a parse failure |
| `Elevation.NonArrayIsBadRequest` | elevation.cpp:63-66 | a top-level value other than `null` that is not an array gives 400 |
| `Elevation.EmptyArrayAnswer` | elevation.cpp:68-73 | an empty array gives 200 with body exactly "[]", whatever the altitude query would answer |
| `Elevation.MalformedElementRefusesBatch` | elevation.cpp:82-99 | one malformed element anywhere gives 400 with no result body |
| `Elevation.SuccessfulBatch` | elevation.cpp:82-123 | a successful batch body is the serialized array plus "\n"; the array has one entry per pair, in order, null exactly where there is no altitude |
| `Elevation.CoveredAndUncoveredPoints` | elevation.cpp:82-109 | [[1,2],[999,999]] with 42.5 at the first point and no data at the second gives the array [42.5, null] |

## Left out

- GDAL, OGR and json-c internals are oracles here. This covers `GDALOpen`, `GDALRasterIO`, `OCTTransform`, `OSRNewSpatialReference`, `GDALInvGeoTransform`, `sanitizeSRS` (dataset.cpp:223-238), json-c parsing and serialization, and `json_object_get_double`. Their source is not part of this model.
- Because the transforms are oracles, no lemma says that transforming a bounds corner forward then back gives the original point.
- `DatasetFree` and `ContextFree` are left out: they only release memory and handles. `ContextFree` also frees `item` inside `LIST_FOREACH`, a use after free.
- `DatasetFilename` is left out: it only returns the `filename` field.
- Filesystem access (`exist`, `isDir`, `opendir`, `readdir`) is left out. `PathKind` gives what they would report: a missing path, an existing path that is not a directory (`NotDirectory`: a regular file, device, FIFO or socket), or a directory with its entry names, or None when `opendir` fails.
- All logging is left out: `printf`/`fprintf`, the timing in elevation.cpp, and main.cpp's CLI, signal and socket handling.
- IEEE-754 is not modelled. Doubles are reals and NaN is `NoData`. A NaN nodata value, which never compares equal to a sample, is therefore not captured.
- Integer widths are not modelled. The `(int)` cast of the floored pixel is taken as exact, and `num_datasets` does not wrap.
- The `n < 0` branch of the handler cannot occur: array lengths are natural numbers here.
- C strings are modelled as character sequences. An embedded NUL is not modelled.
- The request body handed to the JSON parser is not NUL-terminated in the source. The model treats parsing as a function of the body bytes.
- json-c's `json_object_array_length` on an element that is not an array is not part of this model. Such an element counts as malformed (400).
- A `json_object_new_double` that returns NULL is not modelled.
- `Datasets.Dataset.GetCorner`: says nothing about the coordinates left behind when the inverse transform fails. Those values come from the library's partial writes, and the caller discards them.
- `Contexts.Context.AddDirectory`: promises that the new list is built with the given library and SRS only when the old one was. `ContextCreate` always starts from an empty list, so `Contexts.Context.Create` promises it unconditionally.
- `Elevation.Handle`: the source tests `errno == EINVAL` without clearing `errno` first. A stale EINVAL could therefore refuse a valid pair. The model takes the coordinate read's verdict as a function of the element alone.
