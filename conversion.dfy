/**
 * Turning downloaded HLS image directories into multi-band files: the band files picked from
 * a directory, the conversion of one image, and the sequential driver that counts them.
 */
module Conversion {
  import opened Wrappers
  import opened Strings
  import opened Paths
  import opened TileNames
  import Config

  /* ---------------------------------------------------------------------------------------- */
  /* Band files and the conversion of one image                                                */
  /* ---------------------------------------------------------------------------------------- */

  /** A name matched by the glob `<prefix>*<suffix>`: the star takes any text, so prefix and suffix may not overlap. */
  predicate MatchesGlob(name: string, prefix: string, suffix: string)
  {
    |prefix| + |suffix| <= |name| && StartsWith(name, prefix) && EndsWith(name, suffix)
  }

  predicate IsBandFile(name: string)
  {
    MatchesGlob(name, "B", "tif")
  }

  /** The variable names of the converted image: the stems of the band files, in listing order. */
  function BandStems(listing: seq<string>): seq<string>
  {
    if |listing| == 0 then []
    else BandStems(listing[..|listing| - 1]) + (if IsBandFile(listing[|listing| - 1]) then [Stem(listing[|listing| - 1])] else [])
  }

  /** Every band of the band table but the thumbnail is picked up, under its own name; the thumbnail is not. */
  lemma BandTableFilesArePicked(collection: string, band: string)
    requires collection in Config.Bands && band in Config.Bands[collection]
    ensures IsBandFile(band + ".tif") <==> band != "thumbnail"
    ensures band != "thumbnail" ==> Stem(band + ".tif") == band
  {
    StemOfExtension(band, "tif");
    BandFileGlob(band);
    assert collection == Config.SentinelCollection || collection == Config.LandsatCollection;
  }

  /** A `.tif` file is a band file exactly when its stem starts with 'B'. */
  lemma BandFileGlob(stem: string)
    ensures IsBandFile(stem + ".tif") <==> |stem| >= 1 && stem[0] == 'B'
  {
    var n := stem + ".tif";
    assert n[|n| - 3..] == "tif";
    assert n[..1] == [n[0]];
    assert n[0] == if |stem| >= 1 then stem[0] else '.';
  }

  /** What `bands_to_multiband_tif` makes, short of the pixels: one variable per band file, and the image's stem as its name. */
  datatype Dataset = Dataset(variables: seq<string>, name: string)

  /** Lines 38-50: go through the band files of the directory, naming each layer after its file's stem. */
  method BandsToMultibandTif(image: Path, listing: seq<string>) returns (ds: Dataset)
    ensures ds == Dataset(BandStems(listing), Stem(Name(image)))
  {
    var variables := [];
    var k := 0;
    while k < |listing|
      invariant k <= |listing|
      invariant variables == BandStems(listing[..k])
    {
      var band := listing[k];
      if IsBandFile(band) {
        variables := variables + [Stem(band)];
      }
      assert listing[..k + 1][..k] == listing[..k];
      k := k + 1;
    }
    assert listing[..k] == listing;
    ds := Dataset(variables, Stem(Name(image)));
  }

  /** Stems collected are those of band files, one per band file. */
  lemma {:induction false} BandStemsExact(listing: seq<string>)
    ensures forall v :: v in BandStems(listing) ==> exists i :: 0 <= i < |listing| && IsBandFile(listing[i]) && Stem(listing[i]) == v
    ensures forall i :: 0 <= i < |listing| && IsBandFile(listing[i]) ==> Stem(listing[i]) in BandStems(listing)
    decreases |listing|
  {
    if |listing| > 0 {
      var init := listing[..|listing| - 1];
      BandStemsExact(init);
      assert forall i :: 0 <= i < |init| ==> init[i] == listing[i];
    }
  }

  /**
   * What the raster library does with one image: it reads, merges and writes the bands; it raises
   * before `to_raster` has created the output file; or it raises while writing, once the file
   * exists, and leaves it cut short.
   */
  datatype WriteOutcome = Written | RaisedBeforeWrite | RaisedDuringWrite

  /** The file left at the processed path: the whole dataset, or a cut-short write. */
  datatype OutputFile = Whole(ds: Dataset) | Partial

  /**
   * Lines 64-72: convert the image and write it beside its directory, reporting the file and
   * success; any failure reports the image itself. `left` is the file the attempt leaves at the
   * processed path, if any.
   */
  method ProcessAndSaveImage(image: Path, listing: seq<string>, outcome: WriteOutcome)
    returns (out: Path, success: bool, left: Option<OutputFile>)
    ensures success <==> outcome == Written
    ensures success ==> out == ProcessedPath(image) && left == Some(Whole(Dataset(BandStems(listing), Stem(Name(image)))))
    ensures !success ==> out == image
    ensures left.None? <==> outcome == RaisedBeforeWrite
    ensures outcome == RaisedDuringWrite ==> left == Some(Partial)
  {
    var ds := BandsToMultibandTif(image, listing);
    match outcome
    case Written =>
      out, success, left := ProcessedPath(image), true, Some(Whole(ds));
    case RaisedBeforeWrite =>
      out, success, left := image, false, None;
    case RaisedDuringWrite =>
      out, success, left := image, false, Some(Partial);
  }

  /* ---------------------------------------------------------------------------------------- */
  /* The sequential driver                                                                     */
  /* ---------------------------------------------------------------------------------------- */

  /** The entries of the data directory the glob `HLS*` finds, in listing order. */
  function HlsEntries(entries: seq<string>): (r: seq<string>)
    ensures |r| <= |entries|
    ensures forall x :: multiset(r)[x] == if MatchesGlob(x, "HLS", "") then multiset(entries)[x] else 0
  {
    if |entries| == 0 then []
    else
      var init, last := entries[..|entries| - 1], entries[|entries| - 1];
      assert entries == init + [last];
      HlsEntries(init) + (if MatchesGlob(last, "HLS", "") then [last] else [])
  }

  /**
   * `sorted(list(DATA_DIR.glob("HLS*")))`: every entry of the data directory whose name starts
   * with `HLS`, and no other, as a path under it, in Python's order of the names (the paths share
   * their parent, so they compare by name).
   */
  function Images(dataDir: Path, entries: seq<string>): (r: seq<Path>)
    ensures |r| <= |entries|
    ensures forall p :: p in r ==> Parent(p) == dataDir && MatchesGlob(Name(p), "HLS", "") && Name(p) in entries
    ensures forall e :: e in entries && MatchesGlob(e, "HLS", "") ==> dataDir + [e] in r
    ensures forall a, b :: 0 <= a < b < |r| ==> LexLessEq(Name(r[a]), Name(r[b]))
  {
    var names := SortStrings(HlsEntries(entries));
    SortedNamesFound(entries, names);
    PathsUnder(dataDir, names)
  }

  /** Each name as a path under `dir`. */
  function PathsUnder(dir: Path, names: seq<string>): (r: seq<Path>)
    ensures |r| == |names|
    ensures forall i :: 0 <= i < |r| ==> r[i] == dir + [names[i]] && Parent(r[i]) == dir && Name(r[i]) == names[i]
  {
    seq(|names|, i requires 0 <= i < |names| => dir + [names[i]])
  }

  /** A list holding exactly the entries `HLS*` finds holds the matching entries and only those. */
  lemma SortedNamesFound(entries: seq<string>, names: seq<string>)
    requires multiset(names) == multiset(HlsEntries(entries))
    ensures |names| <= |entries|
    ensures forall x :: x in names ==> MatchesGlob(x, "HLS", "") && x in entries
    ensures forall e :: e in entries && MatchesGlob(e, "HLS", "") ==> e in names
  {
    assert |names| == |multiset(names)| == |multiset(HlsEntries(entries))| == |HlsEntries(entries)|;
    forall x | x in names
      ensures MatchesGlob(x, "HLS", "") && x in entries
    {
      assert x in multiset(names);
    }
    forall e | e in entries && MatchesGlob(e, "HLS", "")
      ensures e in names
    {
      assert e in multiset(entries);
      assert e in multiset(names);
    }
  }

  /** The images do not depend on the order the directory lists its entries in. */
  lemma ImagesIgnoreListingOrder(dataDir: Path, entries: seq<string>, relisted: seq<string>)
    requires multiset(entries) == multiset(relisted)
    ensures Images(dataDir, entries) == Images(dataDir, relisted)
  {
    var a, b := HlsEntries(entries), HlsEntries(relisted);
    assert multiset(a) == multiset(b) by {
      assert forall x :: multiset(a)[x] == multiset(b)[x];
    }
    SortedUnique(SortStrings(a), SortStrings(b));
  }

  /** `HLS*` finds nothing exactly when no entry's name starts with `HLS`. */
  lemma ImagesEmpty(dataDir: Path, entries: seq<string>)
    ensures |Images(dataDir, entries)| == 0 <==> forall i :: 0 <= i < |entries| ==> !MatchesGlob(entries[i], "HLS", "")
  {
    var r := Images(dataDir, entries);
    if |r| > 0 {
      assert r[0] in r;
      var i :| 0 <= i < |entries| && entries[i] == Name(r[0]);
      assert MatchesGlob(entries[i], "HLS", "");
    }
    if i :| 0 <= i < |entries| && MatchesGlob(entries[i], "HLS", "") {
      assert entries[i] in entries;
      assert dataDir + [entries[i]] in r;
    }
  }

  /** How many of the images convert. */
  function Completed(images: seq<Path>, outcome: Path -> WriteOutcome): nat
  {
    if |images| == 0 then 0
    else Completed(images[..|images| - 1], outcome) + (if outcome(images[|images| - 1]) == Written then 1 else 0)
  }

  /** At most every image completes, and all of them do exactly when every conversion succeeds. */
  lemma {:induction false} CompletedBounds(images: seq<Path>, outcome: Path -> WriteOutcome)
    ensures Completed(images, outcome) <= |images|
    ensures Completed(images, outcome) == |images| <==> forall i :: 0 <= i < |images| ==> outcome(images[i]) == Written
    decreases |images|
  {
    if |images| > 0 {
      var init := images[..|images| - 1];
      CompletedBounds(init, outcome);
      assert forall i :: 0 <= i < |init| ==> init[i] == images[i];
    }
  }

  datatype DriverError = NoImageFolders

  /**
   * What the conversion run reports, images processed successfully out of all, and the
   * processed file each image left beside its directory.
   */
  datatype Conversion = Conversion(outputs: seq<Path>, completed: nat, total: nat, files: seq<Option<Path>>)

  /** One more image adds one to the count exactly when it reports success. */
  lemma CompletedStep(images: seq<Path>, outcome: Path -> WriteOutcome, k: nat, completed: nat, success: bool)
    requires k < |images| && completed == Completed(images[..k], outcome)
    requires success <==> outcome(images[k]) == Written
    ensures success ==> completed + 1 == Completed(images[..k + 1], outcome)
    ensures !success ==> completed == Completed(images[..k + 1], outcome)
  {
    assert images[..k + 1][..k] == images[..k];
  }

  /** One turn of the conversion loop keeps the reported paths and the files left in step with the images. */
  lemma ConvertStep(images: seq<Path>, outcome: Path -> WriteOutcome, k: nat,
                    outputs: seq<Path>, files: seq<Option<Path>>, out: Path, file: Option<Path>)
    requires k < |images| && |outputs| == k && |files| == k
    requires forall i :: 0 <= i < k ==> outputs[i] == OutputOf(images[i], outcome(images[i]))
    requires forall i :: 0 <= i < k ==> files[i] == FileLeft(images[i], outcome(images[i]))
    requires out == OutputOf(images[k], outcome(images[k])) && file == FileLeft(images[k], outcome(images[k]))
    ensures forall i :: 0 <= i < k + 1 ==> (outputs + [out])[i] == OutputOf(images[i], outcome(images[i]))
    ensures forall i :: 0 <= i < k + 1 ==> (files + [file])[i] == FileLeft(images[i], outcome(images[i]))
  {
  }

  /** The path `process_and_save_image` reports for an image: its processed file on success, itself otherwise. */
  function OutputOf(image: Path, o: WriteOutcome): Path
  {
    if o == Written then ProcessedPath(image) else image
  }

  /** The processed file an attempt leaves beside the image directory, whole or cut short. */
  function FileLeft(image: Path, o: WriteOutcome): Option<Path>
  {
    if o == RaisedBeforeWrite then None else Some(ProcessedPath(image))
  }

  /**
   * Lines 125-129: convert the images one by one and count the conversions that report success.
   * `files[i]` is the processed file image `i` leaves beside its directory: every attempt that got
   * as far as creating it leaves one, whole or cut short.
   */
  method ConvertEach(images: seq<Path>, listing: Path -> seq<string>, outcome: Path -> WriteOutcome)
    returns (outputs: seq<Path>, completed: nat, files: seq<Option<Path>>)
    ensures completed == Completed(images, outcome) && completed <= |images|
    ensures |outputs| == |images| && |files| == |images|
    ensures forall i :: 0 <= i < |images| ==>
              outputs[i] == OutputOf(images[i], outcome(images[i]))
    ensures forall i :: 0 <= i < |images| ==>
              files[i] == FileLeft(images[i], outcome(images[i]))
  {
    completed := 0;
    outputs := [];
    files := [];
    var k := 0;
    while k < |images|
      invariant k <= |images|
      invariant completed == Completed(images[..k], outcome)
      invariant |outputs| == k && |files| == k
      invariant forall i :: 0 <= i < k ==>
                  outputs[i] == OutputOf(images[i], outcome(images[i]))
      invariant forall i :: 0 <= i < k ==>
                  files[i] == FileLeft(images[i], outcome(images[i]))
    {
      var img := images[k];
      var out, success, left := ProcessAndSaveImage(img, listing(img), outcome(img));
      CompletedStep(images, outcome, k, completed, success);
      if success {
        completed := completed + 1;
      }
      var file := if left.Some? then Some(ProcessedPath(img)) else None;
      assert out == OutputOf(img, outcome(img)) && file == FileLeft(img, outcome(img));
      ConvertStep(images, outcome, k, outputs, files, out, file);
      outputs := outputs + [out];
      files := files + [file];
      k := k + 1;
    }
    assert images[..k] == images;
    CompletedBounds(images, outcome);
  }

  /**
   * Lines 118-129, the sequential branch: raise when `HLS*` finds nothing, otherwise convert the
   * images one by one and count the conversions that report success.
   */
  method ConvertImages(dataDir: Path, entries: seq<string>, listing: Path -> seq<string>, outcome: Path -> WriteOutcome)
    returns (r: Result<Conversion, DriverError>)
    ensures r.Err? <==> forall i :: 0 <= i < |entries| ==> !MatchesGlob(entries[i], "HLS", "")
    ensures r.Ok? ==> var images := Images(dataDir, entries);
                      && r.value.total == |images|
                      && r.value.completed == Completed(images, outcome)
                      && r.value.completed <= r.value.total
                      && |r.value.outputs| == |images| && |r.value.files| == |images|
                      && (forall i :: 0 <= i < |images| ==>
                            r.value.outputs[i] == OutputOf(images[i], outcome(images[i])))
                      && (forall i :: 0 <= i < |images| ==>
                            r.value.files[i] == FileLeft(images[i], outcome(images[i])))
  {
    var images := Images(dataDir, entries);
    ImagesEmpty(dataDir, entries);
    if |images| == 0 {
      return Err(NoImageFolders);
    }
    var outputs, completed, files := ConvertEach(images, listing, outcome);
    r := Ok(Conversion(outputs, completed, |images|, files));
  }

  /** The `HLS*` glob of a later run also finds the processed files the conversion wrote beside the image directories. */
  lemma ProcessedFilesMatchImageGlob(image: Path)
    requires MatchesGlob(Name(image), "HLS", "")
    ensures MatchesGlob(Name(ProcessedPath(image)), "HLS", "")
    ensures MatchesGlob(Name(ProcessedPath(image)), "HLS", "_processed.tif")
  {
    var n := Name(image) + "_processed.tif";
    assert n[..3] == Name(image)[..3];
    assert n[|n| - 14..] == "_processed.tif";
  }

  /**
   * A conversion that raises while writing is not counted, yet the cut-short file it leaves is
   * found by the glob `HLS*_processed.tif` of line 156, and by the `HLS*` of a later run in the
   * same directory, which takes it for an image.
   */
  lemma PartialOutputFoundLater(dataDir: Path, entries: seq<string>, outcome: Path -> WriteOutcome, i: nat, later: seq<string>)
    requires i < |Images(dataDir, entries)| && outcome(Images(dataDir, entries)[i]) == RaisedDuringWrite
    requires Name(ProcessedPath(Images(dataDir, entries)[i])) in later
    ensures var images := Images(dataDir, entries);
            && Completed(images, outcome) < |images|
            && Parent(ProcessedPath(images[i])) == dataDir
            && MatchesGlob(Name(ProcessedPath(images[i])), "HLS", "_processed.tif")
            && ProcessedPath(images[i]) in Images(dataDir, later)
  {
    var images := Images(dataDir, entries);
    CompletedBounds(images, outcome);
    assert images[i] in images;
    ProcessedFilesMatchImageGlob(images[i]);
    assert ProcessedPath(images[i]) == dataDir + [Name(ProcessedPath(images[i]))];
  }
}
