# Landsat band alignment and NDVI, modelled in Dafny

The repository processes Landsat 8/9 surface-reflectance scenes. These are
GeoTIFF files named `<scene>_SR_B<n>.TIF`. It does five things:

- **Alignment verification** (`src/georeference_analysis.py`):
  - reduces each band file to a metadata record: CRS, WGS84 bounds, centre, shape and pixel size;
  - compares every band of a scene with the first band, using exact equality of WGS84 bounds and shape;
  - reports per-band mismatches, CRS agreement and raw-bounds differences.
- **Band alignment** (`src/band_aligner.py`):
  - finds scenes by their `_SR_B4.TIF` file, and pairs each with its `B5` sibling when that sibling exists;
  - writes one `<scene>_<band>_aligned.TIF` per band;
  - copies the reference band verbatim;
  - resamples every other band onto the reference grid.
- **NDVI scripts**. All three compute `(nir - red) / (nir + red)` from band 4 (red) and band 5 (near infrared):
  - `src/vegetation-ortho-aligned.py` writes pixels with a zero sum as 0;
  - `src/vegetation-ortho.py` marks those pixels NaN and asserts the range;
  - `vegetation-ortho.py` marks those pixels NaN and clips to [-1, 1];
  - the last two number their outputs `ndvi_1.tif`, `ndvi_2.tif`, … in processing order.
- **Alignment test suite** (`tests/alignment_testing.py`):
  - groups files by the regular expression `(.+)_B(\d+)(_aligned)?\.TIF$` into scene prefix → band label → file;
  - checks each group;
  - tallies the recorded results in a report with a success rate.
- **Coordinate query** (`src/coordinate_query.py`): names the 1-degree elevation tile of a raster as the floor of the centre of its WGS84 bounds.

## How the model is built

- **The file system.** It is a `Disk`, a map from path to file. A file is either a raster or something unreadable. `Open` plays the part of `rasterio.open` followed by `read(1)`.
- **Library calls.**
  - `transform_bounds` and the native `bounds` are the function fields of a `GeoLib` value.
  - `reproject` is a `Resampler` function that gives the value of one destination pixel.
  - The model needs only the fact that a resampled raster lies on the destination grid.
- **Python dictionaries.** They are sequences of entries kept in first-insertion order (`OrderedMaps`). Re-assigning a key keeps its position, as in Python.
- **`str.replace`.** It replaces every leftmost non-overlapping occurrence (`Text.ReplaceAll`).
- **Classes.**
  - `BandAligner` and `TestSuite` are classes. Their methods update `disk` / `scenes` and `results` in place.
  - Each method is proved against a function of the old state (`AlignSceneOn`, `AlignAllOn`, `ResultsOf`, …). The lemmas state what the source promises about those functions.
- **NDVI scripts.** Each script's scene loop is a method. It is proved equal to a recursive run function over the disk, and the lemmas are stated about that run.
- **Pixels.** A pixel is a `Float`: a real number, an infinity or NaN. NaN is the missing marker. Division by a zero sum yields ±inf or NaN, as numpy does before masking.
- **Failures.** A script that raises — because a file does not open, the band shapes differ, or an assertion fails — ends in an `Aborted` status. Every file written before that point is kept.

The branches of the repository's own code are modelled. These include the CRS test, the early returns, skipped scenes, the try/except in `align_all_scenes` and the range assertion. The library calls `transform_bounds` and `reproject` are modelled as never raising (see "Left out"). So in the model a scene or a script fails only when a file does not open, when the band shapes differ, or when the assertion fails.

## Model

| member | source | states |
|---|---|---|
| Text.ReplaceOnlySuffix | src/band_aligner.py:31 | `str.replace` of a pattern that occurs in the name only as its suffix swaps exactly that suffix for the replacement |
| Text.ReplaceAbsent | src/vegetation-ortho.py:46-49 | `str.replace` leaves a string that does not contain the pattern unchanged |
| Text.BaseNameOfJoin | src/georeference_analysis.py:32 | `Path(dir / name).name` is `name` for any name without a slash |
| Text.NatToStringRoundTrip | src/vegetation-ortho.py:79 | the decimal text of the counter `j` is a non-empty digit string that parses back to `j` |
| Text.NatToStringInjective | vegetation-ortho.py:48 | distinct counters have distinct decimal texts |
| OrderedMaps.PutGet | tests/alignment_testing.py:36-39 | after `d[k] = v`, looking up `k` gives `v` and every other key gives what it gave before |
| OrderedMaps.PutKeys | tests/alignment_testing.py:36-39 | assigning a new key appends it after the existing keys; assigning an existing key leaves the key order unchanged |
| OrderedMaps.PutSame | src/georeference_analysis.py:227-231 | assigning a key the value it already holds leaves the dict unchanged |
| OrderedMaps.GetIffKey | src/band_aligner.py:77-84 | a lookup succeeds exactly when the key is among the dict's keys |
| OrderedMaps.PutDistinct | tests/alignment_testing.py:36-39 | assignment keeps the keys of a dict distinct |
| OrderedMaps.PutKeepsFirst | src/georeference_analysis.py:58 | assignment never changes the first key of a non-empty dict, so the reference band of a group is the first band filed |
| Georeference.GetInfoWgs84Unchanged | src/georeference_analysis.py:24-32 | for a raster already in EPSG:4326, `bounds_wgs84` is the native bounds, untransformed, and `file` is the path's base name |
| Georeference.GetInfoCenterInside | src/georeference_analysis.py:35 | `center_wgs84` lies within west..east and south..north whenever the bounds are ordered |
| Georeference.GetInfoPixelSize | src/georeference_analysis.py:37 | `pixel_size` is non-negative and equals ± the transform's a and e coefficients |
| Georeference.CheckAlignment | src/georeference_analysis.py:51-68 | true when fewer than two bands are given; true exactly when every band after the first has the first band's WGS84 bounds and shape |
| Georeference.MaxCornerDiff | src/georeference_analysis.py:155-160 | `max_diff` is non-negative, at least every corner difference, equal to one of them, and 0 exactly when the two bounds coincide |
| Georeference.Check | src/georeference_analysis.py:166-208 | "only one band" exactly when fewer than two bands; otherwise the reference is the first band, the mismatches are those of the later bands, and `all_aligned` holds exactly when there are none |
| Georeference.MismatchesEmptyIff | src/georeference_analysis.py:178-191 | no mismatch is reported exactly when every non-reference band has the reference's WGS84 bounds and shape |
| Georeference.MismatchesDiffer | src/georeference_analysis.py:186-201 | every reported mismatch is a non-reference band whose shape differs or whose WGS84 `max_diff` is positive |
| Georeference.CheckAgreesWithCheckAlignment | src/georeference_analysis.py:166-208 | with distinct band labels, `check`'s verdict equals `check_alignment`'s |
| Georeference.SameGridAllMatch | src/georeference_analysis.py:51-68 | bands on one grid are aligned |
| Georeference.CheckCrs | src/georeference_analysis.py:93-123 | "only one band" exactly when fewer than two bands; otherwise one verdict per band against the first band's CRS, and `crs_consistent` holds exactly when every verdict agrees |
| Georeference.CrsVerdictsConsistentIff | src/georeference_analysis.py:93-123 | every verdict agrees exactly when every non-reference band's CRS string equals the reference's |
| Georeference.CheckRawBounds | src/georeference_analysis.py:125-164 | "only one band" exactly when fewer than two bands; otherwise one line per band with its label, CRS and native bounds, and for every band after the first the max corner difference from the first band's native bounds |
| Naming.TrailingDigits | src/georeference_analysis.py:225 | the greedy `\d+` run at the end of a stem: all its characters are digits and the character before it is not |
| Naming.MatchBandFileSound | src/georeference_analysis.py:225-228 | a match gives a non-empty prefix and digit string whose composition with `_B` and `_aligned.TIF` or `.TIF` is the name |
| Naming.MatchBandFileComplete | src/georeference_analysis.py:225-228 | every way of writing the name as prefix `_B` digits `(_aligned).TIF` is the one the match returns, so the decomposition is unique |
| Naming.BandFileRoundTrip | tests/alignment_testing.py:32-35 | matching `prefix_B<digits>.TIF` or `prefix_B<digits>_aligned.TIF` gives back the prefix and the digits |
| Naming.GroupFiles | tests/alignment_testing.py:31-39 | the grouping loop computes `Group` of the chained glob results |
| Naming.GroupLastWins | src/georeference_analysis.py:224-231 | each (prefix, label) holds the last file in glob order that matches with that prefix and label |
| Naming.GroupPrefixes | src/georeference_analysis.py:224-231 | a prefix is a group exactly when some globbed file matches with that prefix |
| Naming.GroupDictsDistinct | tests/alignment_testing.py:31-39 | the band labels within every group are distinct |
| Naming.RefilingIsNoOp | src/georeference_analysis.py:221-231 | seeing a file a second time, as the overlapping globs do, leaves the grouping unchanged |
| Naming.ChainedPatterns | src/georeference_analysis.py:221-222 | for the chained globs, a file of the second pattern overrides the first pattern's file for the same prefix and label |
| Naming.GroupLabels | tests/alignment_testing.py:39 | every band label is `B` followed by one or more digits |
| Naming.SceneNameRoundTrip | src/band_aligner.py:31 | when `_SR_B4.TIF` occurs only as the suffix, the scene name plus `_SR_B4.TIF` is the file name |
| Naming.NirNameOfSceneFile | src/band_aligner.py:35 | when `B4.TIF` occurs only as the suffix, the NIR name is the red name with that suffix swapped for `B5.TIF` |
| Naming.AlignedNameInjective | src/band_aligner.py:92 | `{scene}_{band}_aligned.TIF` determines the scene and the band, for band labels of equal length |
| Naming.AlignedPathInjective | src/band_aligner.py:131 | two bands of one scene never share an aligned output path |
| Naming.NumberedNamesDistinct | src/vegetation-ortho.py:79 | distinct counters give distinct `data/ndvi_{j}.tif` names |
| BandAlignment.FindScenes | src/band_aligner.py:25-39 | the scene loop computes `FoundScenes` of the glob results |
| BandAlignment.SceneEntryShape | src/band_aligner.py:31-37 | a scene maps B4 to its file, and has a B5 entry exactly when the sibling named by replacing `B4.TIF` with `B5.TIF` exists; its keys are `[B4]` or `[B4, B5]` |
| BandAlignment.FoundScenesGet | src/band_aligner.py:30-37 | a scene's entry is built from the last matching file of that scene in glob order, and an unlisted scene has none |
| BandAlignment.LastSceneFileNames | src/band_aligner.py:30-32 | that file is listed, matches `*_SR_B4.TIF` and has the scene's name, and the scene name plus `_SR_B4.TIF` rebuilds it |
| BandAlignment.EveryRedFileFound | src/band_aligner.py:30-32 | every file matching `*_SR_B4.TIF` yields a scene |
| BandAlignment.FoundScenesDistinct | src/band_aligner.py:25-39 | scene names are distinct |
| BandAlignment.Reproject | src/band_aligner.py:53-64 | the destination buffer, sized to the reference grid, is filled with the resampled raster |
| BandAlignment.AlignBandsFailureStays | src/band_aligner.py:91-105 | once a band raises, the scene loop ends there: no later band is processed |
| BandAlignment.AlignBandsFiles | src/band_aligner.py:89-107 | a scene that completes returns exactly the scene's band keys, each mapped to `output_dir/{scene}_{band}_aligned.TIF` |
| BandAlignment.OutputsDistinct | src/band_aligner.py:92 | distinct bands of a scene have distinct output paths |
| BandAlignment.WrittenElsewhere | src/band_aligner.py:91-105 | the scene loop leaves every path other than its outputs untouched |
| BandAlignment.WrittenOutputs | src/band_aligner.py:91-105 | each output path holds that band's output: the reference copy or the aligned band |
| BandAlignment.AlignBandsDisk | src/band_aligner.py:91-105 | the scene loop completes exactly when the reference and every band file open, and then writes exactly the band outputs |
| BandAlignment.ExpectedOutputValue | src/band_aligner.py:94-102 | the reference band's output is its file's raster unchanged; another band's output is that band resampled onto the reference raster |
| BandAlignment.BandAligner.constructor | src/band_aligner.py:17-23 | the aligner keeps its directories and finds its scenes on construction |
| BandAlignment.BandAligner.AlignBandToReference | src/band_aligner.py:41-73 | writes the resampled band to the output file exactly when both files open, and changes nothing else |
| BandAlignment.BandAligner.AlignOneBand | src/band_aligner.py:91-105 | one pass of the scene loop: copies the reference or aligns the band to its output path, or raises and writes nothing |
| BandAlignment.BandAligner.AlignScene | src/band_aligner.py:75-107 | the outcome and the new disk are those of `AlignSceneOn` on the old disk |
| BandAlignment.BandAligner.GetAlignedScenePaths | src/band_aligner.py:127-134 | returns `ExistingAligned` of B4 and B5 on the current disk |
| BandAlignment.BandAligner.AlignAllScenes | src/band_aligner.py:109-125 | the new disk and the returned dict are those of `AlignAllOn` over the scene names in order |
| BandAlignment.ExistingAlignedSpec | src/band_aligner.py:127-134 | the paths hold B4 and then B5, each exactly when its aligned file exists, and nothing else |
| BandAlignment.AlignAllRecords | src/band_aligner.py:109-125 | one outcome per scene; a scene that raised (in the model, one with a band file that does not open) is absent, a scene that returned maps to what it returned (None for an unknown scene or a missing reference), and no other name is present |
| BandAlignment.AlignSceneNoOp | src/band_aligner.py:77-84 | the outcome is "not found" exactly when the scene is unknown, "reference not found" exactly when the scene lacks the reference band, and then nothing is written |
| BandAlignment.BandsOfAllOpen | tests/alignment_testing.py:42-57 | when every file of a group opens, the group yields one band per file, in order, with its label, path and raster |
| BandAlignment.AlignSceneWrites | src/band_aligner.py:91-105 | after a completed scene, the reference output is a verbatim copy and every other output is its band resampled onto the reference |
| BandAlignment.AlignBandsWrites | src/band_aligner.py:91-105 | the same for the scene loop of any job |
| BandAlignment.AlignedOutputsOnReferenceGrid | src/band_aligner.py:45-71 | every output of a completed scene opens on the reference band's grid |
| BandAlignment.AlignBandsOnReferenceGrid | src/band_aligner.py:45-71 | the same for the scene loop of any job |
| BandAlignment.AlignBandsFilesAt | src/band_aligner.py:92-105 | the k-th returned entry is the k-th band with its output path |
| BandAlignment.AlignThenCheck | src/georeference_analysis.py:51-68 | the outputs of a completed scene all open and pass `check_alignment` |
| BandAlignment.AlignThenGetPaths | src/band_aligner.py:127-134 | after a B4-referenced scene completes, `get_aligned_scene_paths` returns exactly what `align_scene` returned, provided no stale `{scene}_B5_aligned.TIF` is present for a scene that has no B5 band; with such a file the source returns an extra B5 entry |
| BandAlignment.AlignBandsThenExisting | src/band_aligner.py:127-134 | the same for the scene loop of a B4-referenced job whose bands are B4 or B4 and B5, under the same hypothesis about a stale B5 output |
| Ndvi.NdviPixelValue | src/vegetation-ortho.py:65-68 | where nir + red ≠ 0 the pixel is the normalised difference; where it is 0 the pixel is 0 (zero fill) or NaN (missing); never infinite; in [-1, 1] for non-negative bands |
| Ndvi.NormalisedDifferenceBounds | src/vegetation-ortho-aligned.py:112 | for non-negative bands with a non-zero sum, the normalised difference is in [-1, 1] and positive exactly when nir > red |
| Ndvi.FillZeroIsFinite | src/vegetation-ortho-aligned.py:112-115 | with zero fill, every pixel of non-negative bands is a number in [-1, 1] |
| Ndvi.ToArray | src/vegetation-ortho.py:65 | a fresh array of the given shape holding the image |
| Ndvi.MaskZeroSum | src/vegetation-ortho.py:68 | the in-place mask sets exactly the zero-sum pixels to NaN and leaves the others unchanged |
| Ndvi.MaskedRatioIsNdvi | src/vegetation-ortho.py:65-68 | dividing and then masking in place yields the NaN-marked NDVI image |
| Ndvi.ClipSpec | vegetation-ortho.py:41 | clipping keeps NaN missing, puts every other value in [-1, 1], leaves in-range values unchanged and is idempotent |
| Ndvi.ClipImageInRange | vegetation-ortho.py:41 | a clipped image passes the range check for any input signs |
| Ndvi.FlattenMembers | src/vegetation-ortho.py:70-71 | a value is in the flattened image exactly when it is in some row |
| Ndvi.NanMinSpec | src/vegetation-ortho.py:70 | `np.nanmin` is NaN exactly when every value is missing, and otherwise is a present value at most every other present value |
| Ndvi.NanMaxSpec | src/vegetation-ortho.py:71 | `np.nanmax` is NaN exactly when every value is missing, and otherwise is a present value at least every other present value |
| Ndvi.RangeAssertionAgreement | src/vegetation-ortho.py:70-71 | the assertion as written implies the intended range check, and the two agree except on an all-missing image, which only the intended check accepts |
| Ndvi.NdviImageInRange | src/vegetation-ortho.py:65-71 | the NaN-marked NDVI of non-negative bands passes the intended range check |
| Ndvi.DarkPixelFailsAsWritten | src/vegetation-ortho.py:65-71 | a single pixel with red = nir = 0 gives the image [[NaN]], which the assertion as written rejects and the intended check accepts |
| NdviScripts.RedNames | src/vegetation-ortho-aligned.py:71-73 | exactly the listed names that contain `B4` and end with `.TIF` (their order is stated by RedNamesAppend) |
| NdviScripts.RedNamesAppend | vegetation-ortho.py:9-11 | filtering a concatenated listing is filtering each part and concatenating: the B4 names keep their listing order, which fixes the number `j` in each scene's `ndvi_{j}` output |
| NdviScripts.PathsInNames | src/vegetation-ortho-aligned.py:71-78 | for directory entries without a slash, `red_path.name` of `data_dir / f` is `f`, so each path's scene name is that of its listed name |
| NdviScripts.WriteAlignedNdvi | src/vegetation-ortho-aligned.py:104-122 | reopening the aligned bands and writing the NDVI computes `AlignedNdviWrite` |
| NdviScripts.AlignedNdviScene | src/vegetation-ortho-aligned.py:76-122 | one pass of the scene loop computes `AlignedNdviStep` |
| NdviScripts.ProcessAlignedNdvi | src/vegetation-ortho-aligned.py:58-124 | the script computes `AlignedNdviRun` over the red files of the listing, in order |
| NdviScripts.AlignedNdviAbortStays | src/vegetation-ortho-aligned.py:76-122 | once a scene raises, no later scene is processed |
| NdviScripts.AlignedNdviSkipsUnpaired | src/vegetation-ortho-aligned.py:82-86 | a red band without its `B5.TIF` counterpart is skipped and nothing is written for it |
| NdviScripts.AlignedNdviStepWrites | src/vegetation-ortho-aligned.py:78-122 | a paired scene writes three files: `{scene}_B5_aligned.TIF` on the red grid, `{scene}_B4_aligned.TIF` as a verbatim copy, and `ndvi_aligned_{scene}.tif` with zero fill |
| NdviScripts.AlignedNdviInRange | src/vegetation-ortho-aligned.py:112-122 | the zero-filled NDVI output has the red band's shape and every pixel is a number in [-1, 1] for non-negative bands |
| NdviScripts.ModeFilter | src/vegetation-ortho.py:34-37 | aligned mode keeps exactly the paths containing `_aligned.TIF`; the other mode keeps exactly the rest (their order is stated by ModeFilterAppend) |
| NdviScripts.ModeFilterAppend | src/vegetation-ortho.py:29-37 | the mode filter of a concatenated list is the filters of its parts concatenated: the kept paths stay in listing order, which fixes the number `j` in each scene's `data/ndvi_{j}.tif` |
| NdviScripts.ModeFilterPartition | src/vegetation-ortho.py:34-37 | the two modes partition the B4 list: every path is kept by exactly one of them, and their sizes add up |
| NdviScripts.NumberedAbortStays | src/vegetation-ortho.py:42-81 | once a scene raises, no later scene is processed |
| NdviScripts.NanNdvi | src/vegetation-ortho.py:65-68 | dividing and masking as the script does yields the NaN-marked NDVI image |
| NdviScripts.RunNumbered | src/vegetation-ortho.py:41-81 | the scene loop, with its counter `j` from 1, computes `NumberedRun` |
| NdviScripts.ComputeScene | src/vegetation-ortho.py:46-74 | reading, computing and checking one scene computes `NumberedScene` |
| NdviScripts.VegetationOrtho | src/vegetation-ortho.py:16-81 | the script's mode choice, B4 list and filter, followed by the numbered scene loop |
| NdviScripts.VegetationOrthoClipped | vegetation-ortho.py:11-50 | the script's B4 list, followed by the numbered scene loop with clipping |
| NdviScripts.IntendedCheckNeverRaises | src/vegetation-ortho.py:65-71 | with the intended range check, or with clipping, a scene of non-negative bands of one shape is always written |
| NdviScripts.AsWrittenRaisesOnBlankScene | src/vegetation-ortho.py:70-71 | as written, a scene whose every pixel has nir + red = 0 raises the range assertion, while the intended check writes it |
| NdviScripts.BlankSceneExample | src/vegetation-ortho.py:70-71 | a one-pixel scene with both bands 0 raises the assertion as written |
| NdviScripts.ClippedOutputInRange | vegetation-ortho.py:41-49 | every written clipped NDVI passes the range check |
| NumberedRuns.NumberedNameIsTif | src/vegetation-ortho.py:79 | every numbered output name ends in lower-case `.tif` |
| NumberedRuns.TifIsNotNumbered | src/vegetation-ortho.py:29-31 | a band path ending in `.TIF`, as every selected red path does, is not one of the lower-case `.tif` outputs |
| NumberedRuns.NumberedRunElsewhere | src/vegetation-ortho.py:42-81 | the scene loop leaves every path other than its numbered outputs untouched |
| NumberedRuns.NumberedLastStep | src/vegetation-ortho.py:42-81 | the run over n files is the run over the first n-1 files, followed by the n-th scene filed as `ndvi_{n}.tif` unless an earlier scene raised |
| NumberedRuns.NumberedRunIsFiledAll | src/vegetation-ortho.py:42-81 | every scene reads the original disk, so the run is the scene results filed in order |
| NumberedRuns.FiledAllCompletes | src/vegetation-ortho.py:42-81 | the loop completes exactly when every scene yields its file |
| NumberedRuns.FiledAllFiles | src/vegetation-ortho.py:79-81 | after a completed loop, scene k (from 0) is at `data/ndvi_{k+1}.tif` |
| NumberedRuns.FiledAllElsewhere | src/vegetation-ortho.py:79-81 | filing touches no path other than a numbered output |
| NumberedRuns.NumberedRunWrites | src/vegetation-ortho.py:41-81 | the loop completes exactly when every scene yields its file; then scene k is at `data/ndvi_{k+1}.tif`; every other path is untouched |
| NumberedRuns.FiledAllWrites | src/vegetation-ortho.py:79-81 | the same for filing any sequence of scene results |
| AlignmentTesting.ResultsAt | tests/alignment_testing.py:86-91 | one recorded result per tested scene, in order |
| AlignmentTesting.VerdictsAt | tests/alignment_testing.py:57 | one verdict per opened group, true exactly when it passes `check_alignment` |
| AlignmentTesting.OpenedGroups | tests/alignment_testing.py:42-62 | the groups tested before the run ends, in order; the run ends early only at a group whose files do not all open |
| AlignmentTesting.CountAligned | tests/alignment_testing.py:105-106 | `aligned_scenes` is at most the total, equals it exactly when every result is aligned, and is 0 exactly when none is |
| AlignmentTesting.ReportOf | tests/alignment_testing.py:95-121 | no report exactly when there are no results; otherwise the total is positive, aligned + misaligned = total, aligned counts the aligned results, and the rate is in [0, 100] with rate × total = aligned × 100 |
| AlignmentTesting.Percentage | tests/alignment_testing.py:113 | `aligned / total * 100` is in [0, 100], is 100 exactly when all are aligned and 0 exactly when none is |
| AlignmentTesting.SuccessRateExtremes | tests/alignment_testing.py:113 | the success rate is 100 exactly when every scene is aligned and 0 exactly when none is |
| AlignmentTesting.TestSuite.constructor | tests/alignment_testing.py:17-19 | a new suite has its data directory and no results |
| AlignmentTesting.TestSuite.TestSceneAlignment | tests/alignment_testing.py:64-93 | returns the `check_alignment` verdict and appends exactly one result with the labels, that verdict and the band count |
| AlignmentTesting.TestSuite.RunAllTests | tests/alignment_testing.py:21-62 | as written: one verdict per opened group, completing exactly when every group opens, with no result recorded |
| AlignmentTesting.TestSuite.RunAllTestsRecorded | tests/alignment_testing.py:21-62 | as intended: the same loop, appending one result per opened group, in order |
| AlignmentTesting.TestSuite.RecordGroups | tests/alignment_testing.py:42-62 | the recording loop over given groups appends one result per opened group and completes exactly when every group opens |
| AlignmentTesting.TestSuite.RecordGroup | tests/alignment_testing.py:42-62 | one group: records its result exactly when its files open, and otherwise records nothing |
| AlignmentTesting.TestSuite.GenerateReport | tests/alignment_testing.py:95-121 | the report of the results recorded so far |
| AlignmentTesting.CheckGroup | tests/alignment_testing.py:42-62 | a verdict exactly when the group's files open, and it is the `check_alignment` verdict |
| AlignmentTesting.GroupBandsDistinct | tests/alignment_testing.py:36-39 | the bands of a group have distinct labels |
| AlignmentTesting.BandsOfOpens | tests/alignment_testing.py:42-57 | a group yields bands only when every one of its files opens |
| AlignmentTesting.MainAsWritten | tests/alignment_testing.py:136-150 | as written: a report exactly when every group opens, and that report is always "no results" |
| AlignmentTesting.MainRecorded | tests/alignment_testing.py:136-150 | as intended: a report exactly when every group opens, and it is the report of one result per group |
| AlignmentTesting.RecordedReportCounts | tests/alignment_testing.py:95-113 | with recording, the report is "no results" exactly when there are no groups; otherwise its total is the number of groups, and aligned equals it exactly when every group passes |
| CoordinateQuery.Floor | src/coordinate_query.py:25-26 | `math.floor(x)` is the integer n with n ≤ x < n + 1 |
| CoordinateQuery.FloorUnique | src/coordinate_query.py:25-26 | no other integer satisfies that inequality |
| CoordinateQuery.CenterLatLon | src/coordinate_query.py:21-22 | the centre is equidistant from south and north and from west and east, and lies between them when they are ordered |
| CoordinateQuery.TileOf | src/coordinate_query.py:25-26 | tile ≤ centre < tile + 1 for latitude and longitude |
| CoordinateQuery.ShowCoordinates | src/coordinate_query.py:10-28 | a tile exactly when the file opens as a raster (every modelled raster has a CRS), and it brackets the centre of the raster's WGS84 bounds |
| CoordinateQuery.ShowCoordinatesWgs84 | src/coordinate_query.py:14-18 | for EPSG:4326, the native bounds are used untransformed |
| CoordinateQuery.ShowCoordinatesAgreesWithGetInfo | src/coordinate_query.py:14-26 | the tile is the floor of the centre `get_info` reports, with latitude and longitude swapped into (lat, lon) |
| CoordinateQuery.SouthernCaliforniaTile | src/coordinate_query.py:24-26 | a box from 33 to 34 north and 117 to 116 west has tile `33, -117`: negative centres round toward minus infinity |
| CoordinateQuery.TileShift | src/coordinate_query.py:21-26 | shifting a box by whole degrees shifts its tile by the same amount |

## Left out

- Console output (`print`), the matplotlib plots (src/vegetation-ortho.py:83-89, vegetation-ortho.py:52-58) and the report file written by `generate_report` (tests/alignment_testing.py:123-132): these are output only. The report's contents are modelled; the writing of the file is not.
- The display counter: vegetation-ortho.py:19 prints `j+1`. It is output only; the output numbering is modelled.
- Directory creation (`mkdir`), default directories, `os.getcwd()`, and the hard-coded `project_root`/`ROOT` paths: this is environment set-up. Directories are parameters, and a write into a directory always succeeds.
- The order of `glob` and `os.listdir`: the order is unspecified, so the listings are parameters. Every result is stated for whatever order is given.
- Glob matching rules beyond the suffix test, such as hidden files and case folding. The regular expression's behaviour on names that contain a newline is not modelled either. Under `re.search`, `.` does not match a newline, so the prefix starts after the last newline, and a name whose last line begins with `_B` does not match at all. The model's `(.+)` takes the whole text before the final `_B<digits>`. Also not modelled: `$` matching before a trailing newline, and non-ASCII digits under `\d`.
- `reproject` and `transform_bounds`. Bilinear resampling and CRS conversion happen inside rasterio/GDAL. They are uninterpreted (`Resampler`, `GeoLib`), and only the grid a resample lands on is fixed.
- Every modelled raster has a CRS (`Grid.crs` always holds a `Crs`). A raster whose `src.crs` is None is not modelled: for it `src.crs.to_epsg()` raises in `show_coordinates` before any library call (src/coordinate_query.py:14-16), and `transform_bounds` raises in `get_info` (src/georeference_analysis.py:24-27). So `CoordinateQuery.ShowCoordinates` gives a tile for every file that opens, where the script raises for a CRS-less one.
- Both library calls are modelled as never raising. In the source, `transform_bounds` raises for a raster with no CRS (src/georeference_analysis.py:24-27, see above), and `reproject` can raise inside `align_band_to_reference` (src/band_aligner.py:56-64). So the model does not capture a scene that `align_all_scenes` drops because of either error (src/band_aligner.py:117-123): a scene that raises is one with a file that does not open.
- IEEE rounding, float32 casting and `np.seterr`: pixels are exact reals, with ±inf and NaN as distinct values. The float32 `dtype` is recorded in the output profile but not applied.
- The rasterio profile: it is reduced to driver, dtype and nodata. Reading uses band 1 only; multi-band files and nodata masking are not modelled.
- numpy broadcasting: bands of different shapes are modelled as the script raising.
- The CRS test: `src.crs != CRS.from_epsg(4326)` (src/georeference_analysis.py:24) and `to_epsg() != 4326` (src/coordinate_query.py:14) are both modelled as "the CRS's EPSG code is 4326". This does not capture a CRS equal to WGS84 without that code.
- `check_alignment` is modelled over bands that are already open. In the source it opens the bands one at a time and returns False at the first mismatch, without opening the later bands (src/georeference_analysis.py:57-66). A group whose files do not all open therefore yields no verdict in the model. In the source, `run_all_tests` can still print `Aligned: False` for such a group before `check()` raises (tests/alignment_testing.py:57-62).
- `SceneAnalyzer.get_summary`, `find_bands` and `BandAligner.list_scenes`: these only print or return what the model already has.
- The `demo` functions of src/band_aligner.py and src/georeference_analysis.py: they only drive the modelled operations. The grouping in the latter is modelled as `Naming.Group`.
- The comment "Use the group with the most bands" (src/georeference_analysis.py:233, tests/alignment_testing.py:41): the code that follows it loops over every group instead, and the model follows the code.
- The NDVI outputs are never read back by any script, so their contents are stated but not reopened.
- `main` of src/coordinate_query.py: it globs and prints. `show_coordinates` is modelled.
- api.py (USGS catalog client), src/elevation_data.py and src/elevation_stitcher.py: these are network, GDAL scripts and interactive input, outside the modelled core.
- NumberedRuns.NumberedRunWrites: assumes no red or NIR input path ends in lower-case `.tif`. The outputs do, so an input would otherwise be one of them. Every `.TIF` path satisfies this (`NumberedRuns.TifIsNotNumbered`).
- AlignmentTesting.TestSuite.GenerateReport: returns the tallies the method prints and saves. The Python method returns `self.results`, or None when the list is empty, and `main` ignores that value.
- Naming.AlignedNameInjective: stated for band labels of equal length only, since `{scene}_{band}` alone does not determine the split in general.

## Findings

| source | as written | input that shows it | evidently intended | confidence | as-written member | corrected member |
|---|---|---|---|---|---|---|
| src/vegetation-ortho.py:70-71 | asserts `np.nanmin(ndvi) >= -1` and `np.nanmax(ndvi) <= 1`; both are NaN when every pixel is masked, so the assertion fails | a scene whose bands are all 0 (e.g. a 1 × 1 scene with red = nir = 0), whose NDVI is [[NaN]] | every present pixel lies in [-1, 1], which holds vacuously for an all-missing image | not executed | Ndvi.RangeAssertionAsWritten, Ndvi.DarkPixelFailsAsWritten, NdviScripts.AsWrittenRaisesOnBlankScene, NdviScripts.BlankSceneExample | Ndvi.RangeAssertion, Ndvi.NdviImageInRange, NdviScripts.IntendedCheckNeverRaises |
| tests/alignment_testing.py:42-62 | `run_all_tests` calls `check_alignment` and `check` for each group but never `test_scene_alignment`, so `self.results` stays empty and `main` always reports "No test results" | any directory with one group of two band files that open | each tested group appends one result, so the report tallies the groups | not executed | AlignmentTesting.TestSuite.RunAllTests, AlignmentTesting.MainAsWritten | AlignmentTesting.TestSuite.RunAllTestsRecorded, AlignmentTesting.MainRecorded, AlignmentTesting.RecordedReportCounts |
