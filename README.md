# Graph digitizer, modelled in Dafny

The graph digitizer is a browser tool for reading data off a chart image.
The user clicks two points on each axis and types the values they stand for.
The tool fits an affine map per axis (linear, or on the base-10 logarithm for
a log axis). Every later click, drag or free-hand stroke then becomes a data
point of the current line. The lines can be sorted, renamed, exported as CSV,
XLSX or JSON, and moved through with a snapshot undo/redo history.

The repository holds four near-duplicate variants of the same program. This
project models the algorithmic core of each, one Dafny module per variant,
on top of shared modules for what they have in common:

| module | file | what it models |
|---|---|---|
| `Wrappers` | wrappers.dfy | `Option`, and `Num`: a JavaScript number that may be `NaN`, `null` or `undefined` |
| `Geometry` | geometry.dfy | points, squared distances, rounding, interpolation, the Catmull-Rom point, orthogonal axis helpers |
| `Text` | text.dfy | decimal and hexadecimal numerals, the `#rrggbb` colour codec, `trim`, the XLSX sheet-name sanitiser |
| `History` | history.dfy | the snapshot history every variant keeps (record, undo, redo, the 50-entry cap) |
| `Coordinates` | coordinates.dfy | both calibration conventions, their fits, the pixel/data maps, calibrate's input checks |
| `Document` | document.dfy | lines and points, sorting, the export order, nearest-point lookup, order back-filling, unique line names, CSV rows |
| `Resample` | resample.dfy | arc-length resampling of a stroke and per-segment subdivision |
| `Pixels` | pixels.dfy | the RGBA buffer, the clamped pixel read and the dark-pixel magnet |
| `LineColor` | line_color.dfy | the line-colour histogram over a stroke |
| `ColorDetect` | color_detect.dfy | the colour-tolerance centroid of the auto-centring click |
| `Workspace` | workspace.dfy | what digitizer.js and the split variant share: the snapshot, one-line edits, re-reading points after calibration |
| `ClassicApp` | classic_app.dfy | core.js, point-line.js and data-history.js: globals changed by event handlers (class `Digitizer`) |
| `EngineApp` | engine_app.dfy | digitizer-core.js and digitizer-tools.js: the split global-state variant (class `Engine`) |
| `ModularApp` | modular_app.dfy | modules/history.js, calibration.js, points.js, ui.js and io.js: one shared state object (class `Session`) |
| `ClassApp` | class_app.dfy | digitizer.js: `DigitizerState` and the handlers of `UIController` and `InteractionHandler` (class `DigitizerState`) |

Modelling choices that hold throughout:

- The mutable application state of each variant is a Dafny `class`. Its
  fields are the globals or object fields the source reassigns. Each handler
  is a method with a field-precise `modifies` clause, and its `ensures` give
  the whole new state. Lines and points are datatypes, so a restored snapshot
  is a value and cannot alias the history entry it came from. This matches the
  `JSON.parse(JSON.stringify(...))` deep copies in the source.
- Two calibration conventions are kept apart. Convention A stores
  `pixel = value * scale + offset` (digitizer.js, digitizer-core.js).
  Convention B stores `data = scale * pixel + offset` (core.js,
  modules/calibration.js, modules/points.js).
- `Math.pow(10, ·)` and `Math.log10` are an arbitrary pair of maps with the
  inverse laws (`Coordinates.Lawful`). `Math.hypot` and `Math.sqrt` are
  avoided by comparing squares, or they are an abstract non-negative distance
  passed as a parameter.
- A missing, non-finite or `NaN` number is `Num.NaN`; a parsed input that
  fails to parse is `None` or `NaN`.
- Clicks arrive already mapped to canvas coordinates. The pixel buffer, the
  canvas size and the typed texts are parameters.

## Model

| member | source | states |
|---|---|---|
| Geometry.Round | digitizer-core.js:446-447 | `Math.round` gives the integer within half a unit of its argument, halves rounded up |
| Geometry.SqDist | digitizer-core.js:571-583 | the squared distance is non-negative and zero from a point to itself |
| Geometry.Lerp | digitizer-tools.js:200-201 | the point at fraction 0 is the segment start and at fraction 1 its end |
| Geometry.CatmullRomEndpoints | digitizer-core.js:841-851 | the spline point is `p1` at `t = 0` and `p2` at `t = 1`, for every tension |
| Geometry.WeightsSumToOne | digitizer-core.js:841-851 | the four blending weights sum to one at every `t` and tension |
| Geometry.OrthogonalFourth | core.js:495-500 | the synthesised fourth axis point is perpendicular to X1→X2 about X1 and as far from X1 as X2 |
| Geometry.ConstrainClick | digitizer-tools.js:220-229 | the constrained click keeps one coordinate of the raw click, and appending it keeps a partial axis-point list aligned (X2 on X1's row, the last point on its axis' column) |
| Text.NatToString | digitizer-tools.js:350 | the decimal numeral of a natural number is never empty |
| Text.NatToStringShort | digitizer-tools.js:353 | a numeral of at most `m` digits denotes a number below `10^m` |
| Text.HexDigit | modules/color-detect.js:72-74 | `toString(16)` writes a lower-case hexadecimal digit |
| Text.HexValue | modules/color-detect.js:68-71 | a character has a hexadecimal value below 16 exactly when it is a digit or a letter `a`-`f` in either case |
| Text.HexDigitValue | modules/color-detect.js:68-74 | reading a written digit gives its value back |
| Text.NatToHex | modules/color-detect.js:73 | the hexadecimal numeral is never empty |
| Text.PadStart2 | modules/color-detect.js:73 | `padStart(2, '0')` lengthens a shorter string to exactly two characters and leaves a longer one's length |
| Text.ByteChannelHex | modules/color-detect.js:73 | a channel in 0..255 is written as exactly two lower-case hex digits whose values are its high and low nibble |
| Text.HexToRgb | modules/color-detect.js:68-71 | a parsed colour has every channel in 0..255 |
| Text.HexToRgbAccepts | modules/color-detect.js:69-70 | `hexToRgb` succeeds exactly on an optional `#` followed by six hexadecimal digits of either case |
| Text.RgbToHexShape | modules/ui.js:288-290 | formatting a byte colour yields `#` and six lower-case hexadecimal digits |
| Text.HexRoundTrip | modules/ui.js:283-290 | parsing a formatted byte colour gives the colour back |
| Text.HexRoundTripBack | modules/color-detect.js:68-74 | formatting a parsed colour gives back its six digits in lower case after a `#` |
| Text.ChannelDigits | modules/color-detect.js:70-73 | writing back a byte read from two hex digits gives those digits in lower case |
| Text.LeadingSpaces | digitizer.js:1255 | the count of leading spaces is the longest all-space prefix |
| Text.TrailingSpaces | digitizer.js:1255 | the count of trailing spaces is the longest all-space suffix |
| Text.Trim | digitizer.js:2087 | `trim` keeps the text between the leading and trailing white space (every ECMAScript white-space character and line terminator), and a non-empty result neither starts nor ends with one |
| Text.IdeographicSpaceTrimmed | digitizer.js:2087 | a name of only an ideographic space (U+3000) trims to nothing, so it counts as empty |
| Text.TrimIdempotent | digitizer.js:2087 | trimming twice is trimming once |
| Text.SheetName | data-history.js:138 | the sheet name has at most 31 characters, none of `\ [ ] * / ? :`, each replaced by `_`, the rest copied from the line name |
| History.Record | modules/history.js:12-37 | after recording, the cursor is on the last entry, that entry is the new snapshot, and redo is disabled |
| History.RecordKeepsPast | core.js:150-159 | recording keeps every entry up to the cursor in place and drops every entry after it |
| History.Undo | modules/history.js:43-47 | undo is a no-op at the first entry and otherwise moves the cursor back by exactly one, enabling redo |
| History.Redo | modules/history.js:48-52 | redo is a no-op at the last entry and otherwise moves the cursor forward by exactly one, enabling undo |
| History.UndoAfterRecord | modules/history.js:12-47 | undo right after a record brings back the snapshot that was current before it |
| History.RedoUndoes | modules/history.js:43-52 | redo after undo restores the exact timeline |
| History.UndoRedoes | modules/history.js:43-52 | undo after redo restores the exact timeline |
| History.RecordAfterUndoDropsRedo | modules/history.js:14 | recording after an undo discards the undone entries, so redo is a no-op |
| History.RecordCappedAsWritten | digitizer.js:145-179 | the as-written capped record keeps at most 50 entries with the cursor on the new snapshot |
| History.CappedAsWrittenLosesCurrent | digitizer.js:147-153 | with 50 entries and the cursor on the first, the as-written order loses the current snapshot, so nothing can be undone |
| History.RecordCapped | digitizer.js:145-179 | the corrected capped record keeps at most 50 entries, puts the cursor on the new snapshot with the previous one just before it, and equals the plain record while the cap is not reached |
| History.UndoAfterRecordCapped | digitizer.js:145-187 | with the cap, undo right after a record restores the previous snapshot |
| Coordinates.LogInjective | digitizer-core.js:922-923 | the logarithm of distinct positive values differs, so a log axis with distinct values has a non-zero value difference |
| Coordinates.PixelToData | digitizer-core.js:476-500 | a pixel converts exactly when the axis has a finite, non-zero scale and a finite offset |
| Coordinates.DataToPixel | digitizer.js:301-331 | a data value has a pixel exactly when the axis has a finite scale and offset and, on a log axis, the value is positive |
| Coordinates.FitAxis | digitizer.js:1059-1068 | the fit keeps the log flag, and its scale and offset are finite exactly when the two axis values differ (after the logarithm on a log axis) |
| Coordinates.FitAxisFinite | digitizer-core.js:900-927 | distinct values, positive on a log axis, always give a finite fit |
| Coordinates.FitAxisEndpoints | digitizer-core.js:920-927 | with distinct pixels and guarded values, the fitted axis maps the two calibration pixels back to the two entered values |
| Coordinates.FitAxisUnscaled | digitizer.js:1059-1068 | the fit puts each calibration pixel's value (or its logarithm) under that pixel before any power is taken |
| Coordinates.AxisRecovers | digitizer-core.js:480-494 | a pixel whose unscaled value is the axis value of `v` converts back to `v` |
| Coordinates.DataPixelData | digitizer.js:268-331 | on a fitted axis, data to pixel and back returns the data value |
| Coordinates.PixelDataPixel | digitizer.js:268-331 | on a fitted axis, pixel to data and back returns the pixel |
| Coordinates.CanvasToData | digitizer.js:268-299 | the identity while uncalibrated; otherwise both axes converted, or nothing when either fails |
| Coordinates.DataToCanvas | digitizer.js:301-331 | the identity while uncalibrated; otherwise a result exactly when both axes have a pixel for the value |
| Coordinates.BothAxes | digitizer-core.js:476-500 | a data point exactly when both axes convert, and then the two converted values |
| Coordinates.TransformerRoundTrip | digitizer.js:268-331 | on calibrated axes with non-zero scales `canvasToData` always succeeds and `dataToCanvas` inverts it |
| Coordinates.CalibrationEndpoints | digitizer.js:1059-1075 | an accepted calibration fits both axes so that they convert (the `isFinite` refusal is never taken), and each calibration pixel converts to its entered value |
| Coordinates.Affine | modules/points.js:125-129 | `scale * pixel + offset` is finite exactly when both fields are |
| Coordinates.FitAffine | core.js:412-415 | the convention-B fit is finite exactly when the two pixels differ |
| Coordinates.FitAffineEndpoints | modules/calibration.js:42-45 | a convention-B fit maps each calibration pixel to its entered value |
| Coordinates.CoreToDataAsWritten | core.js:225-239 | the as-written core.js conversion, which inverts the stored map as `(pixel - offset) / scale`, succeeds exactly when scale and offset are finite and the scale is non-zero |
| Coordinates.CoreConversionMissesEndpoint | core.js:225-239 | a core.js calibration through (0 → 0, 1 → 2) converts pixel 1 to 0.5, not 2 |
| Coordinates.CoreToData | core.js:225-239 | the corrected conversion applies the fitted `scale * pixel + offset` on a linear axis |
| Coordinates.CoreToDataEndpoints | core.js:412-415 | with the corrected conversion each core.js calibration pixel converts to its entered value |
| Document.AppendFreshName | point-line.js:197-201 | appending a line under a name no line has keeps the names distinct |
| Document.RenameFreshName | point-line.js:217-221 | renaming one line to a name no other line has keeps the names distinct |
| Document.InsertPermutes | point-line.js:39 | one insertion step adds exactly the one point |
| Document.SortByPermutes | point-line.js:39 | the sort is a permutation of the points |
| Document.InsertAtLeast | point-line.js:39 | inserting a point with a key at least `v` into keys at least `v` keeps them so |
| Document.InsertSorted | point-line.js:39 | inserting into a key-ordered sequence keeps it ordered |
| Document.SortBySorted | point-line.js:38-43 | with numeric keys the sort orders the points by non-decreasing key |
| Document.SortByKeepsSorted | point-line.js:39 | sorting points already in non-decreasing key order leaves them unchanged |
| Document.InsertAtEnd | point-line.js:39 | a point whose key is no smaller than every key goes to the end |
| Document.ExportOrderPermutes | modules/io.js:35-36 | the export order lists every stored point exactly once |
| Document.NearestUnique | point-line.js:148-158 | at most one index is the nearest point, so every scan satisfying it agrees |
| Document.NearestIndex | point-line.js:148-158 | the lookup returns -1 exactly when no point is strictly within the limit, and otherwise the first index of minimal distance |
| Document.MaxOrder | digitizer-core.js:191-197 | the running maximum is non-negative and no present order exceeds it |
| Document.BackfillOrders | digitizer-core.js:190-198 | every point gets an order, its own or one more than the largest before it, and the final maximum is the largest order |
| Document.BumpKeepsNumbered | digitizer-tools.js:261 | handing out the next order keeps a line well numbered (distinct orders, none above the counter) |
| Document.AppendKeepsNumbered | digitizer-tools.js:261 | appending a point with the freshly handed-out order keeps the line well numbered |
| Document.ReplaceKeepsNumbered | digitizer-tools.js:312-315 | replacing a point while keeping its order keeps the line well numbered |
| Document.RemoveKeepsNumbered | digitizer-tools.js:267 | removing a point keeps the line well numbered |
| Document.BackfillLegacy | digitizer-core.js:190-198 | points saved without orders are numbered 1, 2, ... in storage order and the line is well numbered |
| Document.ChosenName | digitizer-tools.js:350 | the name is the trimmed typed one when that is non-empty, never empty |
| Document.Suffixed | digitizer-tools.js:353 | `base (k)` is three characters longer than `base` plus the numeral of `k` |
| Document.FirstFreeNameUnique | digitizer-tools.js:350-353 | there is only one first free name (the base, or `base (k)` for the least free `k`) |
| Document.LongestName | digitizer-tools.js:353 | no line name is longer than the returned length |
| Document.TakenSuffixBound | digitizer-tools.js:353 | a taken suffixed name has a suffix below `10^m`, so the naming loop terminates |
| Document.FreeNameByRenaming | digitizer-tools.js:350-353 | the naming loop finds the base name if free, else `base (k)` for the least free `k` |
| Document.FreeNameByCounting | digitizer.js:2087-2097 | the counting loop finds the same first free name |
| Document.Kept | digitizer.js:2110-2121 | the kept candidates are among the candidates, each with its converted data, all of them when all convert |
| Document.KeptIndices | digitizer.js:2110-2121 | the listed positions increase and each one's candidate converts |
| Document.KeptIndicesComplete | digitizer.js:2110-2121 | every converting candidate's position is listed |
| Document.KeptInOrder | digitizer.js:2110-2121 | the kept candidates are exactly the converting ones, in candidate order, each with its converted data |
| Document.NumberPoints | digitizer-tools.js:375-379 | each candidate that converts becomes a point at it, with its data and the order `i + 1`, in candidate order |
| Document.NumberedConsecutive | digitizer-tools.js:375-379 | the committed points carry orders 1..k in sequence, and the line with counter k is well numbered |
| Document.CsvBlocks | data-history.js:110-123 | the CSV lists every line in document order: title, header, one row per stored point in storage order (non-finite values as `NaN`), blank row |
| Document.CsvLength | data-history.js:110-123 | the CSV has three rows per line plus one per point |
| Workspace.RereadRoundTrip | digitizer.js:1106-1118 | a re-read point keeps its pixel and order, holds finite data, and that data maps back to its pixel |
| Workspace.RereadEach | digitizer-core.js:937-940 | the nested loop re-reads every point of every line in place |
| Workspace.Clicked | digitizer.js:1990-2006 | the click is appended with order `orderCounter + 1`, nothing else of the line changes, and a well-numbered line stays so |
| Workspace.Removed | digitizer.js:2014-2025 | exactly the point at `idx` is removed, the rest keep their order, and a well-numbered line stays so |
| Workspace.Moved | digitizer-tools.js:308-317 | the dragged point moves with fresh data and keeps its order, the others are unchanged, and a well-numbered line stays so |
| Resample.LastMark | digitizer-tools.js:190 | with `step = total / (n - 1)` the last of the `n` marks is the whole length |
| Resample.EmitStep | digitizer-tools.js:199-201 | emitting the sample for the next mark keeps every collected point at its arc length |
| Resample.EmitOnSegment | digitizer-tools.js:199-202 | the inner loop emits a point for every mark the accumulated length reaches, up to `n` |
| Resample.SampleAlong | digitizer-tools.js:190-204 | the shared loop collects exactly `n` points, the first point of the path then one at each multiple of the step along it |
| Resample.ResampleClamped | digitizer-tools.js:180-205 | `n` is raised to 2; a short path is cut to `n`; a zero-length path gives its first point; otherwise `n` samples starting at the first point |
| Resample.ResampleGuarded | digitizer.js:2152-2186 | a short path comes back unchanged and a zero-length path gives its first point; otherwise `n <= 0` gives nothing, `n = 1` the first point, and `n >= 2` exactly `n` samples from the first point, one at each multiple of the step |
| Resample.ResampleUnguarded | point-line.js:160-186 | a short path comes back unchanged; `n <= 0` gives nothing; a zero-length path gives the first point and `n - 1` non-finite samples; otherwise `n` samples from the first point |
| Resample.SegmentPoints | modules/points.js:75-79 | a segment cut into `n` parts gives `n + 1` points |
| Resample.SubdivisionLength | modules/points.js:71-81 | a stroke of `len` samples gives exactly `(len - 1) * (n + 1)` points |
| Resample.SubdivisionAt | modules/points.js:72-80 | point `j` of segment `i` sits at position `i * (n + 1) + j`, a fraction `j / n` along the segment |
| Resample.Subdivide | modules/points.js:67-87 | the nested loop emits exactly the subdivision of every segment, segment after segment |
| Pixels.OffsetInside | digitizer-core.js:448 | every pixel inside the image has its four bytes inside the buffer |
| Pixels.ColorAt | digitizer-tools.js:84-87 | a pixel's colour has every channel in 0..255 |
| Pixels.Luma | digitizer-tools.js:39 | the luma of a byte colour lies in 0..255 |
| Pixels.ClampIndex | digitizer-core.js:446-447 | the clamped, rounded index lies in `0..hi`, at the ends for out-of-range input and within half a unit otherwise |
| Pixels.RawPixel | digitizer-core.js:442-450 | `getRawPixel` gives `None` exactly without an image, and otherwise four bytes of the pixel nearest the clamped position |
| Pixels.MinLumaInDisc | digitizer-tools.js:31-42 | the first pass computes the running minimum luma over the in-image disc cells |
| Pixels.DarkSums | digitizer-tools.js:46-58 | the second pass sums the positions and counts the disc cells no lighter than the threshold |
| Pixels.RowMinBelow | digitizer-tools.js:32-42 | the running minimum of a row never rises and ends at or below every visited cell |
| Pixels.AreaMinBelow | digitizer-tools.js:31-42 | the first pass ends at or below 255 and at or below every visited cell's luma |
| Pixels.RowMinAttained | digitizer-tools.js:32-42 | a row's minimum is its start or the luma of a visited cell |
| Pixels.AreaMinAttained | digitizer-tools.js:31-42 | the first pass ends at 255 or at the luma of some visited cell |
| Pixels.RowDarkCounts | digitizer-tools.js:48-58 | the count never falls, and a dark visited cell raises it |
| Pixels.AreaDarkCounts | digitizer-tools.js:46-58 | a dark visited cell anywhere in the disc makes the count positive |
| Pixels.RowDarkInBox | digitizer-tools.js:48-58 | a row's sums stay within the disc's bounding box cut to the image |
| Pixels.AreaDarkInBox | digitizer-tools.js:46-58 | the second pass's sums stay within the disc's bounding box cut to the image |
| Pixels.SnapDisc | digitizer-tools.js:26-29 | the disc radius is at least 4 |
| Pixels.SnapToDark | digitizer-tools.js:23-66 | `snapToDark` returns the click without an image, with snapping off and not forced, or when the darkest disc pixel is lighter than 230; otherwise the centroid of the pixels within 30 of the darkest |
| Pixels.SnapFindsDark | digitizer-tools.js:44-60 | once the darkest pixel is at most 230 the second pass counts at least one pixel, so the `darkCount === 0` exit is never taken |
| Pixels.SnappedInDisc | digitizer-tools.js:62-65 | a snapped point that moved lies over the image part the disc covers |
| Pixels.CentroidOverDisc | digitizer-tools.js:62-65 | the centroid of sums inside the disc's box lies over that box, scaled to the canvas |
| LineColor.FindKey | digitizer-tools.js:91 | the bucket lookup finds the bucket under the key, or -1 exactly when no bucket has it |
| LineColor.OccurrencesAppend | digitizer-tools.js:90-93 | a new sample adds one occurrence to its own key only |
| LineColor.AddSampleTallies | digitizer-tools.js:90-93 | adding a sample keeps the buckets an exact tally of the samples seen |
| LineColor.AddSampleCovers | digitizer-tools.js:91 | every key among the samples has a bucket after the step |
| LineColor.OtherBucketTally | digitizer-tools.js:92-93 | a bucket under another key is unaffected by a sample |
| LineColor.NewBucketTally | digitizer-tools.js:91-93 | the bucket a first sample opens tallies it |
| LineColor.OwnBucketTally | digitizer-tools.js:92-93 | a sample's own bucket, with it added, still tallies |
| LineColor.InBucketAdd | digitizer-tools.js:92 | a value under key `k` added to sums under `k` keeps them under `k` |
| LineColor.HistogramTallies | digitizer-tools.js:80-94 | the histogram of any samples tallies them: distinct keys, exact counts, sums in the key's range, every occurring key present |
| LineColor.Best | digitizer-tools.js:96-99 | the first bucket after the stable descending sort has a largest count and is the earliest inserted of those |
| LineColor.MeanInBucket | digitizer-tools.js:101-103 | the rounded mean of values under key `k` is under `k` too |
| LineColor.WinnerIsMode | digitizer-tools.js:96-105 | the result is missing exactly when no sample was kept; otherwise its colour, made of the rounded means, quantises to a key shared by at least as many samples as the key of any other sample |
| LineColor.OccurrencesPositive | digitizer-tools.js:90 | every sample's own key occurs |
| LineColor.SampleStep | digitizer-tools.js:77 | the sampling stride is at least 1 |
| LineColor.DetectLineColor | digitizer-tools.js:72-106 | `detectLineColor` is missing without an image or with fewer than two path points, otherwise the winner of the histogram of the kept samples |
| LineColor.BucketSamples | digitizer-tools.js:80-94 | the sampling loop builds the histogram of every `step`-th path colour with luma at most 220 |
| LineColor.SamplesUnfold | digitizer-tools.js:80-94 | one loop step adds the colour at `i` exactly when it is kept |
| ColorDetect.SqColorDistance | modules/color-detect.js:47-49 | the squared colour distance is non-negative and zero exactly for equal colours |
| ColorDetect.ColorDistanceSymmetric | modules/color-detect.js:47-49 | the colour distance is symmetric |
| ColorDetect.DistancePredicates | modules/color-detect.js:34 | the squared tests say the true distance is within, or beyond, the limit |
| ColorDetect.SquaresOrdered | modules/color-detect.js:34 | for non-negative reals comparing squares compares the values |
| ColorDetect.CellInWindow | modules/color-detect.js:35-36 | buffer index `4k` names a cell inside the `2r` by `2r` window |
| ColorDetect.WindowTallyInBox | modules/color-detect.js:30-39 | the qualifying cells' sums stay inside the window |
| ColorDetect.FindLineCenter | modules/color-detect.js:13-45 | the click comes back when auto-centring is off, no image is loaded or the copy fails; otherwise the centroid of the qualifying pixels offset by the window corner when more than 5 qualify, else the click |
| ColorDetect.CenterInWindow | modules/color-detect.js:40-42 | a moved click lands inside the search window |
| ClassicApp.AxisClickPoints | core.js:484-500 | the click is appended only while fewer than 3 (shared) or 4 points are set, never past that; in orthogonal mode without a shared origin the third click brings the synthesised fourth |
| ClassicApp.OrthogonalClickSquare | core.js:495-500 | the fourth point is perpendicular to the X axis about X1 and as far from X1 as X2 |
| ClassicApp.CalibrationEndpoints | core.js:412-415 | after a successful core.js calibration, each calibration pixel converts to the value entered for it |
| ClassicApp.ToData | core.js:225-239 | a canvas point converts exactly when both corrected axis conversions are finite |
| ClassicApp.ReadingsSound | point-line.js:125-128 | every stored stroke point sits on a sample, converts to its data, and has finite data and no order |
| ClassicApp.ReadingsComplete | point-line.js:125-128 | every sample that converts is stored |
| ClassicApp.StrokeSampling | point-line.js:124 | a short path comes back as it is; a NaN count gives no sample on a longer path; otherwise one sample for `n == 1`, and for `n >= 2` exactly `n` samples from the first point, the others at the multiples of `total / (n - 1)` along the path, or not finite on a path of length 0 |
| ClassicApp.HighlightName | point-line.js:123 | the typed name when non-empty, else `Highlighted Line <count + 1>` |
| ClassicApp.XlsxSheets | data-history.js:128-140 | at most one sheet per line |
| ClassicApp.XlsxSheetSource | data-history.js:129 | each sheet comes from a line with points |
| ClassicApp.XlsxSheetPresent | data-history.js:128-140 | every line with points gets its sheet |
| ClassicApp.XlsxSheetsShape | data-history.js:130-138 | each sheet's name is sanitised and its points are a permutation of a non-empty line's, in non-decreasing data X when all are numbers |
| ClassicApp.SheetOfShape | data-history.js:130-138 | the sheet of one non-empty line has that shape |
| ClassicApp.ExportXlsx | data-history.js:125-145 | the XLSX export refuses exactly when every line is empty, and otherwise writes the sheets |
| ClassicApp.Digitizer.constructor | core.js:8-17 | page load: one empty line, nothing calibrated, nothing recorded |
| ClassicApp.Digitizer.SaveState | core.js:150-163 | the history becomes the old timeline recorded with the current state |
| ClassicApp.Digitizer.Restore | data-history.js:201-240 | every recorded field is assigned back from the snapshot |
| ClassicApp.Digitizer.Undo | data-history.js:198-251 | undo at the first entry changes nothing; otherwise the cursor steps back one and that entry is restored |
| ClassicApp.Digitizer.Redo | data-history.js:253-306 | redo at the last entry changes nothing; otherwise the cursor steps forward one and that entry is restored |
| ClassicApp.Digitizer.TotalReset | data-history.js:157-193 | one empty `Line 1` current, no axis points, uncalibrated, default view; the history is exactly that one state at index 0 |
| ClassicApp.Digitizer.RestartHistory | data-history.js:170-191 | an emptied history followed by `saveState` holds exactly the current state |
| ClassicApp.Digitizer.SetShared | core.js:378-385 | the box takes the new value and the axis points are empty afterwards; the state is recorded only when there were points |
| ClassicApp.Digitizer.SetOrthogonal | core.js:387-394 | without a shared origin and with more than two points only X1 and X2 are kept, recorded |
| ClassicApp.Digitizer.AxisClick | core.js:481-510 | in axes mode the axis points become `AxisClickPoints` of the click and the state is recorded; in any other mode nothing changes |
| ClassicApp.Digitizer.Calibrate | core.js:396-437 | a NaN or repeated axis value changes nothing; with fewer than two axis points nothing changes; with two or more but fewer than needed only the X fit through X1 and X2 is stored; otherwise both fits are stored, finite exactly when the calibration pixels differ, and only a finite fit marks the state calibrated with no mode and records it |
| ClassicApp.Digitizer.StoreScales | core.js:412-415 | both fits are stored as computed |
| ClassicApp.Digitizer.MarkCalibrated | core.js:420-436 | calibrated, no mode, recorded |
| ClassicApp.Digitizer.ResetCalibration | core.js:438-456 | no axis points, no scales, uncalibrated, no mode, recorded; the lines are untouched |
| ClassicApp.Digitizer.AddPoint | point-line.js:63-70 | in add mode while calibrated, the converted click is appended to the current line only and recorded; a click that does not convert changes nothing |
| ClassicApp.Digitizer.DeletePoint | point-line.js:77-84 | exactly the nearest point within `10 / zoom` is removed from the current line and recorded; with none nothing changes |
| ClassicApp.Digitizer.GrabPoint | point-line.js:71-76 | the nearest point within `10 / zoom` is selected; dragging starts if there is one, and a miss leaves a pending drag pending |
| ClassicApp.Digitizer.DragPoint | point-line.js:94-100 | the grabbed point is replaced by the converted mouse position; nothing is recorded |
| ClassicApp.Digitizer.ReleasePoint | point-line.js:108-113 | the drag ends, the selection clears and the state is recorded |
| ClassicApp.Digitizer.ClearPoints | point-line.js:30-36 | the current line's points and the highlight path are emptied, other lines unchanged, recorded |
| ClassicApp.Digitizer.SortPoints | point-line.js:38-43 | the current line's points become a permutation in non-decreasing data X, other lines unchanged, recorded |
| ClassicApp.Digitizer.HighlightPress | point-line.js:85-88 | a press in highlight mode starts stroking and adds the click to the path |
| ClassicApp.Digitizer.HighlightMove | point-line.js:101-103 | a move while stroking in highlight mode extends the path |
| ClassicApp.Digitizer.EndHighlight | point-line.js:107-146 | only a stroke in progress in highlight mode is acted on, with the parsed count or NaN |
| ClassicApp.Digitizer.CommitStroke | point-line.js:114-145 | `n < 1` is refused, a NaN count is not; otherwise the samples are those `StrokeSampling` describes (positions along the stroke, none for NaN on a path of two or more) and the converted ones form a new line, made current with no mode and recorded; a stroke none of whose samples converts is refused; the path is cleared in every case |
| ClassicApp.Digitizer.PushStrokeLine | point-line.js:135-144 | the line is appended and made current, the mode cleared, recorded |
| ClassicApp.Digitizer.NewLine | point-line.js:191-209 | an empty or used name is refused; otherwise an empty line is appended and made current, recorded |
| ClassicApp.Digitizer.RenameLine | point-line.js:211-227 | an empty name or another line's name is refused; otherwise only the current line's name changes |
| ClassicApp.Digitizer.SelectLine | point-line.js:229-234 | the chosen line becomes current and nothing is recorded |
| ClassicApp.Digitizer.ExportCsv | data-history.js:110-123 | the rows are the CSV rows of every line in storage order; the state is unchanged |
| EngineApp.Check | digitizer-core.js:900-918 | no refusal exactly when the input is acceptable with a `1e-10` pixel separation; the NaN refusal exactly when a value is not a number; the point-count refusal exactly when the values are numbers, the two X values and the two Y values differ, and the count is wrong |
| EngineApp.AxisClickPoints | digitizer-tools.js:220-254 | the constrained click is appended while fewer than 3 (shared) or 4 points are set, never past that, and the orthogonal constraint keeps the list aligned |
| EngineApp.SnapAll | digitizer-tools.js:375-377 | every candidate is snapped with `snapToDark` in order |
| EngineApp.TraceStroke | digitizer-tools.js:374-379 | the path is resampled to the candidates and the snapped candidates that convert are numbered from 1 |
| EngineApp.RestoredMode | digitizer-core.js:219-226 | a missing mode is `none`, and without a calibration no digitising mode is restored |
| EngineApp.LoadLines | digitizer-core.js:187-199 | each saved line is restored: `sorted` defaults to false, and a line without a counter has its orders back-filled and its counter set to the largest order |
| EngineApp.LegacyLineNumbered | digitizer-core.js:190-198 | a line saved before orders existed is restored numbered 1, 2, ... and well numbered |
| EngineApp.Engine.constructor | digitizer-core.js:24-43 | page load: one empty `Line 1`, nothing calibrated, nothing recorded |
| EngineApp.Engine.SaveState | digitizer-core.js:272-287 | the history becomes the old timeline recorded with the current state, uncapped |
| EngineApp.Engine.Restore | digitizer-core.js:289-326 | every recorded field comes back; the calibrate button follows the point count |
| EngineApp.Engine.RestoreDocument | digitizer-core.js:290-298 | the lines, axis points and calibration come back |
| EngineApp.Engine.RestoreInteraction | digitizer-core.js:299-317 | the view, mode, stroke and the calibrate button come back |
| EngineApp.Engine.Undo | digitizer-core.js:328-332 | undo at the first entry changes nothing; otherwise one step back, restored |
| EngineApp.Engine.Redo | digitizer-core.js:334-338 | redo at the last entry changes nothing; otherwise one step forward, restored |
| EngineApp.Engine.LoadSession | digitizer-core.js:180-226 | lines restored with back-filled orders, every field with its default, and the mode only as far as the calibration allows; nothing recorded |
| EngineApp.Engine.LoadDocument | digitizer-core.js:187-207 | the restored lines, axis points and calibration fields |
| EngineApp.Engine.LoadSettings | digitizer-core.js:208-226 | the view, magnet and mode of the session |
| EngineApp.Engine.TotalReset | digitizer-tools.js:487-522 | no image, one empty `Line 1`, no axis points, uncalibrated, linear axes, no mode, empty history |
| EngineApp.Engine.ClearDocument | digitizer-tools.js:492-499 | the document half of the reset |
| EngineApp.Engine.Uncalibrate | digitizer-tools.js:492-495 | no axis points, unset scales, uncalibrated |
| EngineApp.Engine.ClearSettings | digitizer-tools.js:500-505 | the settings half of the reset |
| EngineApp.Engine.SetAxes | digitizer-core.js:856-868 | axes mode with no points and the calibrate button off; nothing recorded |
| EngineApp.Engine.SetAxisPoints | digitizer-tools.js:253 | the calibrate button is enabled exactly when the needed number of points is set |
| EngineApp.Engine.SetShared | digitizer-core.js:870-880 | in axes mode the points are discarded and the state recorded; otherwise only the box changes |
| EngineApp.Engine.ResetAxisPoints | digitizer-core.js:882-893 | axes mode with no points, recorded |
| EngineApp.Engine.AxisClick | digitizer-tools.js:231-254 | the axis points become `AxisClickPoints` of the click, the calibrate button is enabled exactly when the needed points are set, recorded |
| EngineApp.Engine.Calibrate | digitizer-core.js:895-941 | the refusal is `Check` of the input; a refused input changes nothing; otherwise both axes are fitted, the state is calibrated in add mode, every stored point re-read, recorded |
| EngineApp.Engine.ApplyCalibration | digitizer-core.js:920-940 | stores the fits, enters add mode, re-reads every point and records |
| EngineApp.Engine.ResetCalibration | digitizer-core.js:945-955 | no axis points, unset scales, uncalibrated, no mode; the lines are untouched |
| EngineApp.Engine.ToggleGrid | digitizer-core.js:957-960 | the grid flag flips and is recorded |
| EngineApp.Engine.AddPoint | digitizer-tools.js:256-262 | the snapped click, when it converts, is appended to the current line only with order `orderCounter + 1`, recorded |
| EngineApp.Engine.ReplaceCurrent | digitizer-tools.js:261-262 | only the current line is replaced, recorded |
| EngineApp.Engine.DeletePoint | digitizer-tools.js:264-269 | exactly the nearest point within `10 / zoom` is removed, recorded; with none nothing changes |
| EngineApp.Engine.GrabPoint | digitizer-tools.js:271-273 | the nearest point within `10 / zoom` is selected; dragging starts only if there is one |
| EngineApp.Engine.DragPoint | digitizer-tools.js:308-317 | the grabbed point takes the snapped mouse position with fresh data and its old order, when it converts; a stale selection outside the line changes nothing; nothing recorded |
| EngineApp.Engine.ReleasePoint | digitizer-tools.js:329-332 | the drag ends, the selection clears, recorded |
| EngineApp.Engine.ClearPoints | digitizer-tools.js:439-445 | only the current line changes: no points, counter 0, not sorted, still well numbered; recorded |
| EngineApp.Engine.ToggleSort | digitizer-tools.js:447-452 | only the current line's sort flag flips, its points stay in storage order, and the state is recorded |
| EngineApp.Engine.HighlightPress | digitizer-tools.js:275-279 | a press in highlight mode while calibrated and not stroking starts a path at the click |
| EngineApp.Engine.ExtendStroke | digitizer-tools.js:319-325 | the path grows by a point more than `5 / zoom` from its last one |
| EngineApp.Engine.EndStroke | digitizer-tools.js:334-386 | a path under two points or `n` missing or below 2 is dropped; otherwise a new line with the first free name holds the snapped samples that convert, numbered from 1, is made current and recorded; the path is emptied in every case |
| EngineApp.Engine.CommitStroke | digitizer-tools.js:350-385 | the committing branch: free name, traced points, new current line, recorded |
| EngineApp.Engine.FinishStroke | digitizer-tools.js:382-385 | the path is emptied and the traced line appended, made current and recorded |
| EngineApp.Engine.PushLine | digitizer-tools.js:461-463 | a line is appended, made current, recorded |
| EngineApp.Engine.DeleteHighlight | digitizer-tools.js:434-437 | the path is emptied and recorded |
| EngineApp.Engine.NewLine | digitizer-tools.js:457-465 | an empty or used name is refused; otherwise an empty line is appended and made current, recorded |
| EngineApp.Engine.RenameLine | digitizer-tools.js:467-476 | an empty name or another line's name is refused; otherwise only the current line's name changes, recorded |
| EngineApp.Engine.SelectLine | digitizer-tools.js:478-482 | the chosen line becomes current and nothing is recorded |
| ModularApp.SharedPixelsAgree | modules/calibration.js:36-39 | with a shared origin the as-written pixel choice is the right one |
| ModularApp.FourPointY1Missed | modules/calibration.js:37-45 | with four axis points the Y axis is fitted through X1's row: the Y1 click entered as 10 reads back as 15 |
| ModularApp.CalibrationEndpoints | modules/calibration.js:42-45 | fitting both axes through the calibration pixels makes each clicked pixel read back as its entered value |
| ModularApp.PlacedReadsCalibration | modules/points.js:125-129 | a point placed on a calibration pixel pair reads the entered values |
| ModularApp.ClickLine | modules/points.js:15-36 | the counter moves on every click; add appends a point carrying it, adjust moves the nearest point within 15 keeping its order, delete removes it; the line stays well numbered |
| ModularApp.Divisions | modules/points.js:68 | the count is never zero, and it is the entered one whenever that is a non-zero number (otherwise the default 5) |
| ModularApp.TracedShape | modules/points.js:67-87 | a stroke of two or more samples appends exactly `(len - 1) * (n + 1)` points after the existing ones, numbered consecutively after the counter |
| ModularApp.TracedAt | modules/points.js:72-80 | point `j` of segment `i` lies the fraction `j / n` along that segment |
| ModularApp.TracedNumbered | modules/points.js:72-80 | a stroke keeps the line well numbered |
| ModularApp.SharedThirdLabelMismatch | modules/ui.js:246-249 | with a shared origin the third click is asked for as Y1, yet `PixelsOf` reads it as Y2 and, off the origin's row, not as Y1 |
| ModularApp.AxisLabel | modules/ui.js:244-249 | for every list of axis points, the label asked for at click `k` names the value `PixelsOf` pairs with point `k` |
| ModularApp.InstructionAsksForPairedValue | modules/ui.js:238-253 | before calibration, while points are missing, the instruction asks for the value calibration will pair with the next click whatever the clicks are; the completion text once calibrated; the request for values once the points are set |
| ModularApp.InExportOrder | modules/io.js:33-36 | each line's points are ordered by data X when sorted and by click order otherwise; names and flags are kept |
| ModularApp.CsvExportBlocks | modules/io.js:31-45 | every line, empty ones included, gets a block: title, header, a permutation of its points sorted by the line's key when every key is a number, blank row |
| ModularApp.NoPointsStep | modules/io.js:51 | no points in the first `k + 1` lines means none in the first `k` and none in line `k` |
| ModularApp.XlsxRowsEmpty | modules/io.js:50-58 | the sheet has rows exactly when some line has points |
| ModularApp.XlsxNamesEveryLine | modules/io.js:50-52 | every line with points contributes its name row |
| ModularApp.ExportOrderEmpty | modules/io.js:53-54 | ordering a line for export empties it exactly when it was empty |
| ModularApp.ExportXlsx | modules/io.js:47-62 | the single sheet's rows, or the "no data" refusal exactly when every line is empty |
| ModularApp.ImportExported | modules/io.js:8-29 | exporting a portable state and importing the file gives the same state back |
| ModularApp.ZeroToleranceBecomesDefault | modules/io.js:94 | a colour tolerance of 0 comes back from a file as 30 |
| ModularApp.Session.constructor | modules/history.js:6-9 | the start-up state with an empty history |
| ModularApp.Session.SaveState | modules/history.js:12-41 | the history becomes the old timeline recorded with the current state; redo is disabled, undo enabled exactly when something was recorded before |
| ModularApp.Session.Restore | modules/history.js:54-74 | every recorded field is assigned back from the snapshot |
| ModularApp.Session.Assign | modules/history.js:55-66 | the document and calibration fields come back |
| ModularApp.Session.AssignSettings | modules/history.js:67-73 | the settings and the stroke come back |
| ModularApp.Session.Undo | modules/history.js:43-47 | a no-op at the first entry; otherwise one step back, restored |
| ModularApp.Session.Redo | modules/history.js:48-52 | a no-op at the last entry; otherwise one step forward, restored |
| ModularApp.Session.AxisClick | modules/calibration.js:13-23 | exactly one point is appended, with no limit |
| ModularApp.Session.Calibrate | modules/calibration.js:25-54 | refused with fewer than the needed points or a NaN value; otherwise both axes fitted through the corrected pixel choice (`PixelsOf`, Y through Y1 with four points), calibrated, recorded |
| ModularApp.Session.EmptyLines | modules/calibration.js:61 | every line loses its points; names, flags and counters stay |
| ModularApp.Session.ResetCalibration | modules/calibration.js:56-68 | no axis points, zero fits, uncalibrated, every line emptied, recorded |
| ModularApp.Session.ToggleLogX | modules/calibration.js:70-75 | only the X log flag flips |
| ModularApp.Session.ToggleLogY | modules/calibration.js:76-81 | only the Y log flag flips |
| ModularApp.Session.PointClick | modules/points.js:11-42 | the current line changes as a click describes, the other lines stay, and the state is recorded in every case |
| ModularApp.Session.StartHighlight | modules/points.js:47-51 | stroking starts on a new path holding the press, unless the press lies within 3 of the last kept sample, which leaves the new path empty |
| ModularApp.Session.MoveHighlight | modules/points.js:52-60 | while stroking, a sample at least 3 from the last kept one is appended and becomes the last kept one |
| ModularApp.Session.StampTraced | modules/points.js:75-80 | the traced positions are numbered on from the counter, one at a time |
| ModularApp.Session.InterpolateHighlight | modules/points.js:67-87 | a stroke under two samples changes nothing; otherwise the subdivided stroke is appended to the current line, the stroke cleared, recorded |
| ModularApp.Session.EndHighlight | modules/points.js:61-66 | finishes a stroke in progress and forgets the last kept sample |
| ModularApp.Session.DeleteHighlight | modules/points.js:88-91 | the stroke is dropped; nothing else changes |
| ModularApp.Session.ClearCurrentLine | modules/points.js:94-102 | no points and counter 0 on the current line, the sort flag kept, recorded |
| ModularApp.Session.SortCurrentLine | modules/points.js:103-110 | only the current line's sort flag flips, its export order stays a permutation of its points, and nothing is recorded |
| ModularApp.Session.ResetAxisPoints | modules/ui.js:82-87 | the axis clicks are forgotten, nothing else changes |
| ModularApp.Session.NewLine | modules/ui.js:104-114 | a non-empty name, taken or not, appends an empty line made current; not recorded |
| ModularApp.Session.RenameLine | modules/ui.js:115-125 | a non-empty name renames only the current line |
| ModularApp.Session.SelectLine | modules/ui.js:126-132 | the chosen line becomes current |
| ModularApp.Session.SetMode | modules/ui.js:175-183 | sets the mode; the axis inputs show only in axes mode with a point while uncalibrated, the stroke controls only in highlight mode |
| ModularApp.Session.SetBgColor | modules/ui.js:157-160 | the typed background colour, or `None` when it is not six hex digits |
| ModularApp.Session.SetLineColor | modules/ui.js:161-164 | the typed line colour, or `None` when it is not six hex digits |
| ModularApp.Session.ExportCsv | modules/io.js:31-45 | each line's block with its points in export order; storage is not reordered |
| ModularApp.Session.ImportJson | modules/io.js:66-96 | a file whose `lines` is not an array is refused and nothing changes; otherwise every field is taken from it with falsy ones defaulted; stroke and history untouched |
| ClassApp.ValidateLines | digitizer.js:114-143 | no list or an empty one gives one empty `Line 1`; otherwise each line is validated |
| ClassApp.BackfilledBelowCounter | digitizer.js:128-139 | after a back-fill every point has an order and the counter is above all of them |
| ClassApp.LegacyLineValidated | digitizer.js:128-139 | a line stored without orders comes back numbered 1, 2, ... with the counter one past its count, well numbered |
| ClassApp.Check | digitizer.js:989-1045 | no refusal exactly when the input is acceptable with a pixel separation of 1; the NaN refusal exactly when a value is not a number; the log-X refusal exactly when the values are numbers, both pairs differ, X is logarithmic and an X value is not positive; a point-count refusal only when the count is wrong |
| ClassApp.ConstrainMove | digitizer.js:1907-1921 | the shown position keeps one coordinate of the mouse position, and appending it keeps the axis points square |
| ClassApp.AxisClickAsWritten | digitizer.js:1969-1988 | the raw click is appended while there is room, whatever the orthogonal box says |
| ClassApp.OrthogonalClickIgnored | digitizer.js:1907-1988 | with X1 at the origin the mouse at (100, 7) is shown at (100, 0) but stored at (100, 7), so the axes are not square |
| ClassApp.AxisClicked | digitizer.js:1969-1988 | the click, as shown, is appended while fewer than the needed points are set, never past that; in orthogonal mode the points stay square |
| ClassApp.CreateAsWritten | digitizer.js:1253-1279 | as written: a blank name is refused, the duplicate check uses the typed name, and the line gets the trimmed one |
| ClassApp.RenameAsWritten | digitizer.js:1281-1301 | as written: the same mismatch against the other lines |
| ClassApp.TrimmedDuplicateCreated | digitizer.js:1253-1279 | " Line 1" passes the as-written check and creates a second `Line 1` |
| ClassApp.TrimmedDuplicateRenamed | digitizer.js:1281-1301 | renaming `Line 2` to "Line 1 " passes the as-written check and leaves two lines named `Line 1` |
| ClassApp.SampledBounds | digitizer.js:2152-2186 | the samples start at the path's first point and are never more than `n` |
| ClassApp.CommittedLine | digitizer.js:2108-2121 | a committed stroke's line holds at most `n` points, numbered 1, 2, ... and well numbered |
| ClassApp.TraceStroke | digitizer.js:2108-2121 | the samples of the path and the numbered points of those that convert |
| ClassApp.DigitizerState.constructor | digitizer.js:16-52 | page load: one empty `Line 1`, nothing calibrated, nothing recorded |
| ClassApp.DigitizerState.AddToHistory | digitizer.js:145-179 | the history becomes the corrected capped record of the current state: at most 50 entries, the cursor on the new one, the previous current entry just before it |
| ClassApp.DigitizerState.Restore | digitizer.js:197-216 | every recorded field is assigned back |
| ClassApp.DigitizerState.RestoreDocument | digitizer.js:198-206 | the lines, axis points and calibration come back |
| ClassApp.DigitizerState.RestoreInteraction | digitizer.js:207-215 | the view, mode and stroke come back |
| ClassApp.DigitizerState.Undo | digitizer.js:181-187 | false and no change at the first entry; otherwise true, one step back, restored |
| ClassApp.DigitizerState.Redo | digitizer.js:189-195 | false and no change at the last entry; otherwise true, one step forward, restored |
| ClassApp.DigitizerState.Reset | digitizer.js:226-250 | the state of a fresh page with an empty history |
| ClassApp.DigitizerState.ResetDocument | digitizer.js:231-238 | the document half of the reset |
| ClassApp.DigitizerState.ResetInteraction | digitizer.js:228-247 | the view, mode, stroke and history half of the reset |
| ClassApp.DigitizerState.StartAxisCalibration | digitizer.js:916-925 | axes mode with no points and the calibrate button off; nothing recorded |
| ClassApp.DigitizerState.ResetAxisPoints | digitizer.js:927-937 | the same, recorded |
| ClassApp.DigitizerState.SharedOriginChange | digitizer.js:939-949 | in axes mode the points are discarded and recorded; otherwise only the box changes |
| ClassApp.DigitizerState.AxisClick | digitizer.js:1969-1988 | with the needed points set nothing happens; otherwise the click as shown is appended, the calibrate button enabled exactly when the needed points are set, recorded |
| ClassApp.DigitizerState.Calibrate | digitizer.js:982-1104 | a refused input changes nothing; otherwise both axes fitted, calibrated in add mode, every point re-read, recorded |
| ClassApp.DigitizerState.ApplyCalibration | digitizer.js:1078-1118 | stores the fits, enters add mode, re-reads every point and records |
| ClassApp.DigitizerState.ToggleGrid | digitizer.js:1120-1126 | the grid flag flips and is recorded |
| ClassApp.DigitizerState.ReplaceCurrent | digitizer.js:2000-2006 | only the current line is replaced, recorded |
| ClassApp.DigitizerState.AddPoint | digitizer.js:1990-2012 | nothing before calibration or when the click does not convert; otherwise the click is appended to the current line only with order `orderCounter + 1`, recorded |
| ClassApp.DigitizerState.DeletePoint | digitizer.js:2014-2025 | once calibrated, exactly the nearest point within `10 / zoom` is removed, recorded; with none nothing changes |
| ClassApp.DigitizerState.AdjustStart | digitizer.js:2027-2035 | once calibrated the nearest point within `10 / zoom` is grabbed; with none the selection stays |
| ClassApp.DigitizerState.AdjustDrag | digitizer.js:2037-2049 | the grabbed point moves to the mouse position with fresh data and its old order when it converts; nothing recorded |
| ClassApp.DigitizerState.ReleasePoint | digitizer.js:1949-1955 | the drag ends, the selection clears, recorded |
| ClassApp.DigitizerState.ClearCurrentLinePoints | digitizer.js:1223-1234 | only the current line loses its points, counter and sort flag, recorded |
| ClassApp.DigitizerState.ToggleSort | digitizer.js:1236-1244 | only the current line's sort flag flips; its points stay in storage order |
| ClassApp.DigitizerState.PushLine | digitizer.js:1268-1276 | a line is appended, made current, recorded |
| ClassApp.DigitizerState.NewLine | digitizer.js:1253-1279 | a name that trims to nothing or to a name in use is refused; otherwise an empty line under the trimmed name is appended, made current, recorded; distinct names stay distinct |
| ClassApp.DigitizerState.RenameLine | digitizer.js:1281-1301 | a name that trims to nothing or to another line's name is refused; otherwise only the current line's name changes; distinct names stay distinct |
| ClassApp.DigitizerState.HighlightStart | digitizer.js:2051-2057 | once calibrated a press starts a path at the click |
| ClassApp.DigitizerState.HighlightDrag | digitizer.js:2059-2067 | the path grows by a point more than `3 / zoom` from its last one |
| ClassApp.DigitizerState.ClearHighlightPath | digitizer.js:1246-1251 | the path is emptied and recorded |
| ClassApp.DigitizerState.HighlightEnd | digitizer.js:2069-2132 | a path under ten points or `n` not in 1..1000 commits nothing; otherwise a line with the first free name holds the numbered samples that convert, is made current and recorded; the path is emptied in every case |
| ClassApp.DigitizerState.CommitStroke | digitizer.js:2087-2132 | the committing branch: free name, traced points, new current line, recorded |
| ClassApp.DigitizerState.FinishStroke | digitizer.js:2123-2130 | the path is emptied and the traced line appended, made current and recorded |

## Left out

- DOM, canvas and modal work: drawing, the magnifier, status-bar text, cursors, themes, spinners, `prompt` and `confirm`. A confirmed dialog is a precondition of the handler; a typed text is a parameter.
- Storage and files: `localStorage` reads and writes (`saveSession`, digitizer.js `saveToLocalStorage`/`loadFromLocalStorage`, all of modules/session.js), `FileReader`, image upload and loading, `download`. The session loads are modelled only through what they compute: `EngineApp.Engine.LoadSession` and `ClassApp.ValidateLines`.
- The XLSX library: only the sheets and rows handed to it are modelled.
- Image enhancement (brightness, contrast, grid filter, processed image data) and the auto-trace refinement (`autoTrace`, `refinePerp`). The auto-trace branch of the digitizer-tools.js highlight commit is left out; its plain branch is modelled.
- app.py, a Streamlit shell around an embedded copy of the page.
- Timers (`debounce`, `throttle`, `setTimeout`), zoom and pan handlers, keyboard shortcuts, the highlight width.
- Floating point: reals stand for JavaScript numbers. `Math.pow`/`Math.log10` are an abstract inverse pair, `Math.hypot`/`Math.sqrt` are squared comparisons or an abstract distance, `toFixed` formatting is not modelled (CSV rows hold the values), and non-finite values are `NaN`.
- `parseFloat`/`parseInt` of the input boxes: their results are parameters (`Num` or `Option<int>`, `None` for NaN); `parseInt` overflowing to `Infinity` on hundreds of digits is not modelled.
- digitizer.js `snapToGrid`, `toggleLogX`/`toggleLogY`, `recalculateScalesAndPoints`, `setMode`, `switchLine`, `handleImportJson` and its exports; digitizer-core.js `toggleLogX`/`toggleLogY`; the JSON import and the exports of digitizer-tools.js; the JSON import of data-history.js; the log toggles, set-axes and mode buttons of core.js and point-line.js. These handlers are outside the modelled core.
- The modules/ui.js inputs that only copy a value into the shared state (grid, tolerance, search radius, auto-centre, theme, zoom) are not modelled; the colour inputs are (`ModularApp.Session.SetBgColor`, `ModularApp.Session.SetLineColor`).
- Axis-point labels that digitizer.js and digitizer-tools.js store beside each point are display strings and are not kept.
- The `isFinite` refusal after the fit in digitizer.js and digitizer-core.js is not a separate branch: `Coordinates.CalibrationEndpoints` proves an accepted input always fits finitely.
- Paths that throw: modules/ui.js:225 reads an undefined `line960`, so `updatePreview` throws once the current line has points; modules/history.js:81 and modules/io.js:100 call `rgbToHex`, which those files do not import; modules/calibration.js and modules/points.js import `saveState` from modules/session.js, which does not export it. The model assumes every handler runs to its end.
- ClassApp.DigitizerState.AdjustDrag: a selection outside the current line makes the source throw before any change; the model changes nothing in that case.
- Text.SheetName: names with characters outside the Basic Multilingual Plane are cut at 31 characters, where `substring(0, 31)` cuts at 31 UTF-16 code units (possibly splitting a surrogate pair); the model's strings are sequences of Unicode scalar values, so the "at most 31" of Text.SheetName, ClassicApp.XlsxSheetsShape and ClassicApp.SheetOfShape counts characters.
- ClassicApp.Digitizer.DragPoint: requires the selection to lie inside the current line. A drag released off the canvas and followed by Clear points or a line switch leaves it past the end; point-line.js:97 then writes at that index and grows the array, with holes when the index lies beyond its end, which a sequence of points cannot hold.
- ClassApp.DigitizerState.HighlightDrag: on an empty path the source throws before any change; the model changes nothing in that case.
- Resample.SampleAlong: the proof holds over the reals; floating-point rounding that could emit one sample fewer or more is not modelled.
- The orthogonal constraint and the synthesised fourth point are the only meanings of "orthogonal" the code has; no other snapping is modelled.

## Findings

| source | as written | input that shows it | evidently intended | confidence | as-written member | corrected member |
|---|---|---|---|---|---|---|
| core.js:225-239 and core.js:412-415 | calibrate stores `data = scale * pixel + offset`, but `canvasToDataCoords` inverts it as `(pixel - offset) / scale` | pixels 0 and 1 entered as 0 and 2: pixel 1 converts to 0.5 | the conversion applies the stored map, `scale * pixel + offset` | high (not executed) | Coordinates.CoreToDataAsWritten, Coordinates.CoreConversionMissesEndpoint | Coordinates.CoreToData, Coordinates.CoreToDataEndpoints |
| digitizer.js:145-179 | with a full history the oldest entry is dropped and the cursor moved back before the redo entries are cut | 50 entries, cursor on the first: the history becomes only the new snapshot | cut after the cursor first, drop the oldest only if still full; undo then returns to the previous state | high (not executed) | History.RecordCappedAsWritten, History.CappedAsWrittenLosesCurrent | History.RecordCapped, History.UndoAfterRecordCapped |
| digitizer.js:1253-1301 | the duplicate check compares the typed name, but the line stores the trimmed name | creating " Line 1" beside `Line 1` gives two lines named `Line 1` | check the trimmed name that is stored | high (not executed) | ClassApp.CreateAsWritten, ClassApp.TrimmedDuplicateCreated, ClassApp.RenameAsWritten, ClassApp.TrimmedDuplicateRenamed | ClassApp.DigitizerState.NewLine, ClassApp.DigitizerState.RenameLine |
| modules/calibration.js:37-45 | the Y axis is always fitted from `p[0].y`, also with four axis points where Y1 is `p[2]` | X1 at row 0, Y1 clicked at row 10 for value 10, Y2 at row 20 for 20: the Y1 click reads back as 15 | fit Y through the Y1 point without a shared origin | high (not executed) | ModularApp.PixelsAsWritten, ModularApp.FourPointY1Missed | Geometry.PixelsOf, ModularApp.CalibrationEndpoints, ModularApp.Session.Calibrate |
| modules/ui.js:246-249 | with a shared origin the third click is labelled "Y1" | shared origin, two points set: the instruction asks for Y1, calibrate fits Y2 through it | ask for Y2 | medium (not executed) | ModularApp.AxisLabelAsWritten, ModularApp.SharedThirdLabelMismatch | ModularApp.AxisLabel, ModularApp.InstructionAsksForPairedValue |
| digitizer.js:1907-1921 and digitizer.js:1969-1988 | with "orthogonal axes" ticked the mouse position is shown constrained, but the click stores the raw position | X1 at (0, 0), click at (100, 7): shown at (100, 0), stored at (100, 7) | store the constrained position that is shown | medium (not executed) | ClassApp.AxisClickAsWritten, ClassApp.OrthogonalClickIgnored | ClassApp.AxisClicked, ClassApp.DigitizerState.AxisClick |
