# HLS crop-type pipeline: a Dafny model of its bookkeeping core

The repository downloads Harmonized Landsat Sentinel-2 (HLS) tiles from a STAC catalogue. It
turns each downloaded tile directory into one multi-band GeoTIFF, can find and merge tiles taken
on the same day, and runs a crop-type segmentation model on an image. Around the I/O and the
neural network sit three pieces of plain sequential logic. This project models them and proves
what they promise.

- **Downloading** (`download_items`, helpers.py). It flattens the items, works out each item's
  collection id and its bands, and downloads every band file that is not already on disk. It
  counts items downloaded, failed and skipped, and files downloaded (module `Download`). The
  network is a parameter `fetch : url -> Response`, and the disk is a map from paths to
  contents that the run extends. The model records every URL the run fetches, so "fetches
  nothing" can be stated.
- **Conversion and merging** (process_imagery.py):
  - which band files of a directory make up the multi-band image, and under which names;
  - the processed file written beside each directory;
  - the sequential driver that counts successful conversions;
  - the date key read from a tile's stem with `%Y%j`, and the frame of dates and paths;
  - the selection of every tile whose date repeats, and the merged file's name.

  The modules are `Conversion`, `TileNames`, `TileFrame`, `OrdinalDates`, `Strings` (Python's
  `split`/`rsplit`/`in`) and `Paths` (`pathlib`'s `name`, `parent`, `stem`).
- **Inference post-processing** (inference.py, module `Inference`):
  - the CDL colour map and `apply_color_map`, as a method over a channels-first `array3<int>`
    that never writes its input;
  - the no-data mask;
  - the masking of the prediction, the `+1`, the `uint8` cast and the three stacked channels;
  - the masking and clamping at the end of `process_rgb`;
  - `process_test_pipeline`, which updates records (`Stage` objects) in place.

Where the natural reading of the program's intent and its code differ, the model follows the
code:

- A band whose fetch fails adds to `failed`, the same counter that counts failed items. So
  `downloaded + failed + skipped` can exceed `total_items` (`Download.BandFailureCountedInFailed`).
- A requested band with no asset fails the whole item through the `KeyError` of
  `item.assets[band]`, even after earlier bands of the item were written
  (`Download.MissingBandFailsItem`, `Download.ItemFailsAtMissingBand`).
- `%Y%j` accepts day 366 of a common year. pandas reads it as 1 January of the next year, so
  that date does not format back to the same text (`OrdinalDates.DayAfterYearEndRollsOver`).
- A masked prediction pixel becomes class 0, then class 1 after the `+1`. It is therefore drawn
  in the colour of "Natural vegetation" (`Inference.MaskedPixelDrawnAsNaturalVegetation`).
- A stem whose fourth field has no digits before its `T` (such as `HLS.L30.T15TVL.T1_processed`)
  has the empty date text. `to_datetime` reads that as `NaT`, not as an error. Two such stems
  count as a repeated date, and naming the merge then fails in `strftime`
  (`TileNames.DateKeyWithoutDate`, `TileFrame.PlanMergeFailsOnNat`).
- A write that raises part-way leaves the cut-short file on disk. A later run finds the file and
  counts it as downloaded without fetching again (`Download.PartialFileTrustedLater`). The same
  holds for a conversion whose `to_raster` raises part-way: the cut-short `_processed.tif` is not
  counted, but both later globs find it (`Conversion.PartialOutputFoundLater`).
- process_imagery.py:12 imports `HLS_CRS` from `config`, and config.py does not define it. As
  written, importing the script raises `ImportError` before any of the modelled code runs; the
  model describes the code as if the name were defined.

## Model

| member | source | states |
|---|---|---|
| `Download.CollectionId` | helpers.py:56-62 | The item's own collection id when truthy. Otherwise `hls2-s30` when the collection name contains `s30`, else `hls2-l30` when it contains `l30` (and not `s30`), else the falsy id itself; with a falsy own id, the result is truthy exactly when one of the two fallbacks applies. A fallback id is always a key of the band table. |
| `Download.BandsToDownload` | helpers.py:68-71 | With a non-empty band table, the bands configured for the collection id, and a lookup error exactly when the id is missing from it or None. Without one, every asset key in order. |
| `Download.AssetKeys` | helpers.py:65 | The asset keys, one per asset, in order. |
| `Download.FindAsset` | helpers.py:87 | The asset keyed by the band. It is absent (the `KeyError`) exactly when the band is not among the asset keys. |
| `Download.BandStepFacts` | helpers.py:93-112 | One band raises exactly one of `files_downloaded` and `failed`. It counts as downloaded exactly when its file existed or its fetch wrote the whole body. It fetches exactly when the file is absent. It writes only its own file and never overwrites one. A new file holds the fetched body, or the bytes written before the write raised; a fetch that fails before `open` leaves the disk unchanged. |
| `Download.PartialFileTrustedLater` | helpers.py:95-112 | A write that raises counts the band as failed but leaves the cut-short file, and the next pass over that band counts it in `files_downloaded` without fetching. |
| `Download.ObtainableAfterFailure` | helpers.py:93-112 | After a first band that is not counted, every later band is counted from the new disk exactly as from the old. |
| `Download.BandsFromFacts` | helpers.py:84-112 | The band loop changes only `files_downloaded` and `failed`. `files_downloaded` grows by the number of bands downloaded. A completed loop counts every band once. New files are band files of this item. |
| `Download.BandsFromStopsAtMissing` | helpers.py:85-87 | The loop stops at the first band without an asset, in the state the bands before it left. |
| `Download.ItemFailsAtMissingBand` | helpers.py:85-119 | A band without an asset turns the item into one `failed` on top of the earlier bands' effects, and `downloaded` does not go up. |
| `Download.BandsFromDownloadsIff` | helpers.py:84-112 | When every band has an asset, the loop completes, and it downloads some band exactly when some band is counted at its turn: its file exists, its fetch writes the whole body, or an earlier pass over the same band name left a cut-short file. |
| `Download.ItemDownloadedIff` | helpers.py:84-115 | An item whose bands all have assets counts as downloaded exactly when some band is counted at its turn (as above). Every band counts once, in `files_downloaded` or `failed`. |
| `Download.ItemStepFacts` | helpers.py:47-119 | An item is skipped exactly when its band list is empty, and then only `skipped` changes. Its band lookup raises exactly when a band table is given and the collection id is not a key of it, and then only `failed` goes up by one. It never lowers a counter, leaves `total_items` alone, raises `downloaded + skipped` by at most one, keeps `downloaded` from overtaking `files_downloaded`, and adds files only under its own directory. |
| `Download.ItemsFromFacts` | helpers.py:47-119 | The same invariants over the whole item loop. |
| `Download.FlattenLength` | helpers.py:28-45 | `total_items` equals the number of items the flattening loop produces. |
| `Download.DownloadStatsBounds` | helpers.py:27-119 | At return, `total_items` is the number of items, `downloaded + skipped <= total_items`, and `downloaded <= files_downloaded`. |
| `Download.DownloadDiskFacts` | helpers.py:36-112 | Files already there are neither deleted nor overwritten. Every new file is `<base>/<item id>/<band>.tif` for one of the items. |
| `Download.BandsFromAllPresent` | helpers.py:95-98 | When every band's file exists, the band loop fetches nothing and writes nothing. |
| `Download.ItemsFromAllPresent` | helpers.py:47-112 | When every requested band file of every item exists, the item loop fetches nothing and writes nothing. |
| `Download.RerunFetchesNothing` | helpers.py:8-126 | A run over a disk that already holds every requested band file makes no request and leaves the disk unchanged. |
| `Download.BandsFromWritesAll` | helpers.py:93-109 | When every band has an asset whose fetch writes the whole body, the band loop leaves every band's file on disk. |
| `Download.ItemsFromFillsDisk` | helpers.py:47-112 | When every requested band of every item can be fetched whole, the item loop leaves every requested band file on disk. |
| `Download.SecondRunFetchesNothing` | helpers.py:8-126 | After such a clean first run, a second run over the same items, on any network, makes no request and leaves the disk as the first run left it. |
| `Download.OneItemRun` | helpers.py:27-47 | A run over one list holding one item is that item's step from a total of one. |
| `Download.FetchFailureInDownloadedItem` | helpers.py:85-115 | A two-band item whose first fetch succeeds and whose second fails adds one each to `downloaded`, `failed` and `files_downloaded`. |
| `Download.FetchedThenFailed` | helpers.py:93-112 | The band loop over a band fetched whole and then one whose fetch fails completes with the first band downloaded, one more file and one more failure. |
| `Download.BandFilesDiffer` | helpers.py:93 | Different band names give different files. |
| `Download.BandFailureCountedInFailed` | helpers.py:110-119 | One item whose second fetch fails ends with stats (1, 1, 1, 0, 1), so downloaded + failed + skipped exceeds total. |
| `Download.MissingBandFailsItem` | helpers.py:85-119 | An item whose second band has no asset writes its first band file, yet is counted as failed, not downloaded. |
| `Download.DownloadItems` | helpers.py:8-126 | The method's final stats, disk and requests are those of the specification run. |
| `Download.DownloadItem` | helpers.py:48-119 | One pass of the item loop body equals the item step of the specification. |
| `Download.DownloadBands` | helpers.py:84-112 | The band loop equals the specification's band loop, and it reports when it stopped at a missing asset. |
| `Download.DownloadBand` | helpers.py:93-112 | One band equals the specification's band step. |
| `Strings.Split` | process_imagery.py:86 | `str.split` yields at least one piece, no piece holds the separator, and joining the pieces gives the string back. |
| `Strings.SplitJoin` | process_imagery.py:86 | Splitting a join of separator-free parts gives the parts back. |
| `Strings.SplitExtendLast` | process_imagery.py:66 | Appending separator-free text lengthens only the last piece, as `_processed.tif` does to the last `.` field. |
| `Strings.RSplitHead` | process_imagery.py:107 | The first piece of `rsplit(sep, n)` is the join of all `split` pieces but the last `n`, and of at least the first. |
| `Strings.LastIndex` | process_imagery.py:107 | The index found holds the character, and no later index does. |
| `Strings.ContainsFirst` | inference.py:210 | A string containing a substring holds its first character. |
| `Strings.LexTotal` | process_imagery.py:120 | Python's order on strings is total. |
| `Strings.LexAntisymmetric` | process_imagery.py:120 | Two strings each not above the other are equal. |
| `Strings.LexTransitive` | process_imagery.py:120 | The order is transitive. |
| `Strings.InsertFacts` | process_imagery.py:120 | Inserting adds exactly the one string and keeps a sorted list sorted. |
| `Strings.SortStrings` | process_imagery.py:120 | `sorted` of strings is sorted and holds the same strings, each as many times. |
| `Strings.SortedUnique` | process_imagery.py:120 | Two sorted lists holding the same strings are equal, so the sorted result does not depend on the input order. |
| `Paths.Stem` | process_imagery.py:83 | The stem is a prefix of the name. |
| `Paths.StemOfExtension` | process_imagery.py:43 | `<n>.<ext>` with a dot-free extension has stem `<n>`. |
| `Paths.StemOfJoin` | process_imagery.py:86 | The stem of a `.`-joined name is the join of all its fields but the last. |
| `OrdinalDates.DayOfYear` | process_imagery.py:109 | `%j` lies between 1 and the length of the year. |
| `OrdinalDates.FromDayOfYear` | process_imagery.py:87 | Day `n` of year `y` is a valid date of that year whose day of the year is `n`. |
| `OrdinalDates.FromDayOfYearOfDate` | process_imagery.py:87 | Every valid date is the date of its own day of the year. |
| `OrdinalDates.FindMonthAt` | process_imagery.py:87 | The month search from any month not past a date's month finds that date. |
| `OrdinalDates.ParseYearDay` | process_imagery.py:87 | For a text that is not a `NaT` text: a parsed date is valid and within the `Timestamp` range, read from five to seven digits. |
| `OrdinalDates.ToDate` | process_imagery.py:87 | `to_datetime(...).date()` is `NaT` exactly for the empty text and the `NaT`/`NaN` spellings. Any other text is read by `%Y%j` (the clock texts `now` and `today` included, see "## Left out"): it fails exactly when `%Y%j` rejects it, and a day it yields is valid, representable and read from digits. |
| `OrdinalDates.DigitsAreNotNat` | process_imagery.py:87 | No text of digits reads as `NaT`. |
| `OrdinalDates.ToDateFormatted` | process_imagery.py:87-109 | A formatted date reads back as that day. |
| `OrdinalDates.FormatYearDay` | process_imagery.py:109 | `%Y%j` of a representable date is seven digits. |
| `OrdinalDates.ParseFormatted` | process_imagery.py:87-109 | Parsing the formatted text of a date gives the date back. |
| `OrdinalDates.FormatParsed` | process_imagery.py:87-109 | Formatting a parsed seven-digit text gives the text back whenever the day names a day of that year. |
| `OrdinalDates.Day366OfCommonYear` | process_imagery.py:87 | Day 366 of a common year reads as 1 January of the next year. |
| `OrdinalDates.DayAfterYearEndRollsOver` | process_imagery.py:87 | Day 366 of a common year reads as 1 January of the next year, the same date as day 1 of that year. |
| `OrdinalDates.ParseExample` | process_imagery.py:87 | "2021249" is 6 September 2021. |
| `TileNames.DateField` | process_imagery.py:86 | There is a date text exactly when the stem has four `.` fields, and it holds neither `T` nor `.`. |
| `TileNames.DateKeyFacts` | process_imagery.py:86-87 | A date key that is a day is a valid, representable date. `TooFewFields` occurs exactly when the stem has fewer than four fields. The key is `NaT` exactly when the date text is a `NaT` text, and otherwise reads exactly when `%Y%j` reads the text (`now` and `today` included, see "## Left out"). No key error is a selection error. |
| `TileNames.DateFieldOfFields` | process_imagery.py:86 | A fourth field `<date>T<time>` yields `<date>`. |
| `TileNames.DateKeyExample` | process_imagery.py:86-87 | The stem `HLS.L30.T15TVL.2021249T165852.v2.0` has the key 6 September 2021. |
| `TileNames.DateKeyWithoutDate` | process_imagery.py:86-87 | A fourth field starting with its `T` (such as in `HLS.L30.T15TVL.T1_processed`) has the empty date text, and its key is `NaT`, not an error. |
| `TileNames.ProcessedPath` | process_imagery.py:66 | The processed file sits beside the directory, named `<name>_processed.tif`. |
| `TileNames.ProcessedKeepsDateKey` | process_imagery.py:66 | A processed file keeps the date key of its directory whenever the directory name has at least five fields. |
| `TileNames.DateKeyOfFourthField` | process_imagery.py:86 | Stems with the same fourth field have the same date key. |
| `TileNames.MergedNameHead` | process_imagery.py:106-111 | The merged name is the name's `.` fields but the last four, then the date as `%Y%j`, then `T000000.v2.0_merged_processed.tif`. |
| `TileNames.MergedFields` | process_imagery.py:106-111 | A merged name of a seven-field name has seven dot-free fields. |
| `TileNames.MergedNameJoin` | process_imagery.py:106-111 | The merged name is the join of those seven fields. |
| `TileNames.MergedNameKeepsDate` | process_imagery.py:86-111 | Reading the date key back from a merged name gives the date it was built from. |
| `TileFrame.Stems` | process_imagery.py:83 | One row label per input. |
| `TileFrame.KeysAt` | process_imagery.py:85-87 | The `i`-th date key is that of the `i`-th input's stem. |
| `TileFrame.FirstErrorNone` | process_imagery.py:85-87 | No error is raised exactly when every date key reads. |
| `TileFrame.FirstErrorAt` | process_imagery.py:85-87 | The error raised is that of the first key that fails. |
| `TileFrame.FirstErrorAppend` | process_imagery.py:85-87 | The first error of two runs of keys is that of the first run, or else that of the second. |
| `TileFrame.FirstErrorIsKeyError` | process_imagery.py:85-92 | Reading date keys never reports that no date repeats, nor that a date cannot be formatted. |
| `TileFrame.LastIndexOfFacts` | process_imagery.py:88-89 | The row a `df.loc` label last receives holds that stem, no later row does, and one is found whenever the stem occurs. |
| `TileFrame.FrameOf` | process_imagery.py:82-89 | The filled frame has one row per input. |
| `TileFrame.FillFrame` | process_imagery.py:82-89 | The loop yields the frame specification: each row's date key and the last path with its stem, or the first date error. |
| `TileFrame.FillStep` | process_imagery.py:85-89 | One turn of the loop: a failing key is the frame's first error, and a key that reads advances the rows by one input. |
| `TileFrame.FrameOfRows` | process_imagery.py:82-89 | The frame exists exactly when every input's date key reads. Row `i` then carries the stem of input `i`, its date key (a day or `NaT`), and the last input with that stem. |
| `TileFrame.AssignStep` | process_imagery.py:88-89 | Assigning the `k`-th input to every row with its label advances the frame from `k` to `k + 1` inputs. |
| `TileFrame.StemsKeyed` | process_imagery.py:86-89 | Rows with the same label have the same date key. |
| `TileFrame.RowsComplete` | process_imagery.py:82-89 | After every input, every row holds a date and a path, and the rows are the frame. |
| `TileFrame.FrameDatesValid` | process_imagery.py:87 | Every day of a filled frame is valid and representable. |
| `TileFrame.FrameOfDistinctStems` | process_imagery.py:82-89 | With distinct stems, each row holds its own input. |
| `TileFrame.RepeatedFromExact` | process_imagery.py:91 | `duplicated(keep=False)` keeps exactly the rows whose date occurs in another row (`NaT` matching `NaT`), each once, in row order. |
| `TileFrame.RepeatedFromFirst` | process_imagery.py:91-92 | The first row selected is the first row whose date repeats. |
| `TileFrame.FirstRepeatIsNatAt` | process_imagery.py:91-92 | The first row selected is `NaT` exactly when the first row whose date repeats is. |
| `TileFrame.PlanFromSelects` | process_imagery.py:90-93 | The merge takes exactly the repeated dates in row order, at least two, under the first one's date, which is a day. |
| `TileFrame.PlanMergeSelects` | process_imagery.py:82-93 | The same, on the frame filled from the inputs. |
| `TileFrame.PlanFromEmpty` | process_imagery.py:91-109 | The selection is empty exactly when no date repeats. Naming fails exactly when the first repeated date is `NaT`, which `strftime` cannot format. There is no other failure. |
| `TileFrame.PlanMergeFailsWithoutRepeats` | process_imagery.py:82-92 | Merging reports an empty selection exactly when every key reads and no date repeats. |
| `TileFrame.PlanMergeFailsOnNat` | process_imagery.py:82-109 | Merging fails on an unformattable date exactly when every key reads and the first row whose date repeats is `NaT`. |
| `TileFrame.PlanFromKeepsDate` | process_imagery.py:106-112 | The merged file lands in the output directory, and its stem's date key is the shared date. |
| `TileFrame.PlanMergeKeepsDate` | process_imagery.py:82-112 | The same, from the inputs. |
| `TileFrame.MergeAdjacentTiles` | process_imagery.py:82-111 | The method computes the specification plan. |
| `TileFrame.DatesOf` | process_imagery.py:91 | The date column, row by row. |
| `TileFrame.PathsAt` | process_imagery.py:93 | The path column of the selected rows, in order. |
| `Conversion.BandFileGlob` | process_imagery.py:38 | A `.tif` file matches `B*tif` exactly when its stem starts with `B`. |
| `Conversion.BandTableFilesArePicked` | config.py:12-31 | Every configured band but the thumbnail is picked up by `B*tif`, under its own name. The thumbnail is not. |
| `Conversion.BandsToMultibandTif` | process_imagery.py:38-50 | The layers are named after the stems of the band files, in listing order, and the image is named after the directory's stem. |
| `Conversion.BandStemsExact` | process_imagery.py:38-43 | The layer names are exactly the stems of the band files. |
| `Conversion.ProcessAndSaveImage` | process_imagery.py:64-72 | Success exactly when the bands are read, merged and written, and then the processed path with the whole dataset left there. On any failure, the image itself. A failure before `to_raster` creates the file leaves nothing; one while writing leaves a cut-short file at the processed path. |
| `Conversion.HlsEntries` | process_imagery.py:120 | The glob keeps each entry matching `HLS*` as often as it is listed, and no other. |
| `Conversion.Images` | process_imagery.py:120 | Every entry matching `HLS*` is an image, and every image is such an entry under the data directory. The images are in Python's order of their names. |
| `Conversion.PathsUnder` | process_imagery.py:120 | Each name as a path in the directory, in order. |
| `Conversion.SortedNamesFound` | process_imagery.py:120 | A list holding exactly what the glob finds holds every matching entry and only those. |
| `Conversion.ImagesIgnoreListingOrder` | process_imagery.py:120 | The images do not depend on the order in which the directory lists its entries. |
| `Conversion.ImagesEmpty` | process_imagery.py:120-122 | There are no images exactly when no entry matches `HLS*`. |
| `Conversion.CompletedBounds` | process_imagery.py:128-132 | At most every image completes, and all do exactly when every conversion succeeds. |
| `Conversion.CompletedStep` | process_imagery.py:128-129 | One more image adds one to the count exactly when it reports success. |
| `Conversion.ConvertStep` | process_imagery.py:125-129 | One turn of the loop keeps the reported paths and the files left in step with the images. |
| `Conversion.ConvertEach` | process_imagery.py:125-132 | The count of successes, each image's reported path, and the processed file each image leaves, whole or cut short, or none when it raised before writing. |
| `Conversion.ConvertImages` | process_imagery.py:118-132 | Raise exactly when `HLS*` finds nothing. Otherwise `completed` of `total` images, with `completed <= total`, each reported path, and the processed file each image leaves. |
| `Conversion.ProcessedFilesMatchImageGlob` | process_imagery.py:156 | Processed files match both `HLS*` and `HLS*_processed.tif`. A later run's image glob therefore finds them too. |
| `Conversion.PartialOutputFoundLater` | process_imagery.py:64-72 | A conversion that raises while writing is not counted. Yet its cut-short file lies in the data directory, matches `HLS*_processed.tif` (line 156), and is among the images of a later run's `HLS*` (line 120). |
| `Inference.MapPixelLastMatch` | inference.py:54-57 | The last entry matching a pixel gives its colour, since every test reads the original pixel. |
| `Inference.MapPixelUnmatched` | inference.py:52-57 | A pixel no entry matches keeps its channels. |
| `Inference.MapPixelMatched` | inference.py:54-57 | With distinct values, a pixel matches at most one entry, and that entry's colour is the result. |
| `Inference.MapPixelOrderIndependent` | inference.py:54-57 | With distinct values, two maps holding the same entries in any order colour every pixel alike. |
| `Inference.CdlValues` | inference.py:35-47 | The CDL map has thirteen entries with values 1 to 13 in order, all distinct. |
| `Inference.CdlColors` | inference.py:35-57 | A grey pixel of class 1 to 13 gets that class's colour. Every other pixel is unchanged. |
| `Inference.ApplyEntry` | inference.py:57 | One `np.where` over one channel: matching pixels take the entry's channel value, all else stays. |
| `Inference.ApplyColorMap` | inference.py:50-59 | A fresh array of the same shape, each pixel's first three channels mapped by the colour map of the original pixel, the rest copied. The input is not written. |
| `Inference.BandMax` | inference.py:180-181 | The band maximum of the indicator is 0 or 1. It is 1 exactly when some band holds the no-data value. |
| `Inference.NoDataMask` | inference.py:180-181 | The mask has the raster's shape, and is 1 at a pixel exactly when some band there holds the no-data value, 0 elsewhere. |
| `Inference.NoDataMissingMasksNothing` | inference.py:180 | Without a no-data value, nothing is masked. |
| `Inference.MaskPrediction` | inference.py:187 | Masked predictions become 0. The others stay. |
| `Inference.Uint8` | inference.py:194 | A byte that differs from the value by a multiple of 256 (numpy's wrap), equal to the value when the value fits. |
| `Inference.StackedOutput` | inference.py:193-194 | Three identical channels, each the class plus one as a byte. |
| `Inference.MaskedPixelIsClassOne` | inference.py:187-194 | A masked pixel is class 1 in all three channels. Any other pixel is its class plus one. |
| `Inference.OutputRaster` | inference.py:187-195 | The channels-last output: each pixel has the CDL colour of its class plus one, masked pixels that of class 1. |
| `Inference.MaskedPixelDrawnAsNaturalVegetation` | inference.py:35-47 | Class 1, where masked pixels end, is drawn as (233, 255, 190), "Natural vegetation". |
| `Inference.MaskAndClamp` | inference.py:162-164 | Every value in [0, 255]. Masked pixels 0. Unmasked in-range values unchanged, negatives 0, values above 255 become 255. |
| `Inference.FirstOf` | inference.py:204-210 | The first record of the kind: it is of that kind and none before it is. It is absent exactly when no record is. |
| `Inference.FindFirst` | inference.py:204-210 | The comprehension's first index, as specified by `FirstOf`. |
| `Inference.ProcessTestPipeline` | inference.py:202-218 | Given bands, only the first `BandsExtract` record gets `bands`. Only the first record whose type contains `Collect` gets the nine meta keys. Every other record and key is unchanged, and the same list is returned. |
| `Inference.TargetsDiffer` | inference.py:204-210 | The `BandsExtract` record and the collecting record are never the same one. |

## Left out

- Network, catalogue and disk I/O. `requests.get`, `raise_for_status` and the file write are the `fetch` oracle plus an explicit disk map. `mkdir`, console output and the progress bar have no effect on the model.
- The raster library. Reading, clipping, merging, `clip(0, 1)`, and writing rasters through rioxarray and rasterio are out. How a conversion ends is a parameter (`outcome`: written, raised before the write, raised during it). Only the band selection and names are modelled.
- Floating point. Pixel values are integers, so NaN no-data values are not covered. The `/10000*255` scaling, the `uint8` cast of floats and the percentile stretch of `process_rgb` (inference.py:161) are out; `MaskAndClamp` starts from the stretched image.
- The CRS reprojection of the bounding box (process_imagery.py:19-24). The sequential branch never passes a box, so clipping is never reached.
- The `ProcessPoolExecutor` branch (process_imagery.py:134-149). Only the sequential branch is modelled, which is the `N_JOBS == 1` case.
- The model itself, config loading, `inference_segmentor` and module initialisation (inference.py:116-156, 220-223). The prediction is an input grid.
- `eval(bands)` at inference.py:208. Bands arrive already parsed as a list of numbers.
- `merge_datasets` and the raster write in `merge_adjacent_tiles`. The model stops at what would be merged and under which name. The call is commented out in the script's main block.
- The leading axis of length one of the mask and prediction arrays. Both are modelled by their single band.
- A record's `type` is modelled as the immutable kind of a `Stage`. A record without a `type` key, or whose type is not a string, raises in the source; it is not modelled.
- `pathlib` normalisation (`.`, `..`, repeated separators) and absolute paths. Paths are lists of components.
- Conversion.BandsToMultibandTif: lists one layer name per band file, repeats included. `xr.merge(..., compat="override")` (process_imagery.py:47) keeps one variable per name, so `B02.tif` and `B02.atif` would give a single layer; the model does not collapse such repeats.
- OrdinalDates.InTimestampRange: the range is that of nanosecond `Timestamp`s, which `to_datetime` of a string gives in pandas 2.x. Other units or pandas versions are not modelled.
- OrdinalDates.ParseYearDay: reads ASCII digits only. The `\d` of the `%Y` and `%j` patterns also accepts other Unicode decimal digits, which the model reports as `Malformed`.
- Download.BandStep: a fetch that fails before `open` creates the file is `FetchFailed`; one that fails after is `WriteFailed` with the bytes written so far. Which bytes reach the disk before an error is left to the `fetch` oracle.
- Download.BandsFromDownloadsIff: `fetch` is a function, so a URL requested twice in one run gets the same response both times; a real retry of the same URL can get a different one. The same assumption underlies `Download.ObtainableAt` and `Download.ItemDownloadedIff`.
- OrdinalDates.ToDate: pandas 2.x reads the texts `now` and `today` as the clock's current date before it tries the format. The model has no clock and reads them with `%Y%j`, so it reports them as `Malformed`.
- TileNames.DateKeyFacts: for the same reason, a stem whose date text is `now` or `today` (such as `HLS.L30.T15TVL.nowT1.v2.0`) gets a `Malformed` key here, where pandas would give the day the script runs.
