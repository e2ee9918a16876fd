/**
 * `download_items` (helpers.py): fetch the requested bands of every catalogue item into
 * `<base>/<item id>/<band>.tif`, skipping files that already exist, and count what happened.
 *
 * The network and the disk are parameters: `fetch` tells what `requests.get` followed by
 * `raise_for_status` and the file write produce for a URL (a whole body, a file cut short by a
 * write that raised, or nothing), and the disk is a map from paths
 * to file contents that the run extends. `requests` records every URL actually fetched.
 */
module Download {
  import opened Wrappers
  import opened Strings
  import opened Paths
  import Config

  newtype byte = x: int | 0 <= x < 256

  /** One entry of `item.assets`: the band name it is keyed by and the URL it points to. */
  datatype Asset = Asset(key: string, href: string)

  /** A catalogue item: its id, its `collection_id` (None when absent) and its assets in dict order. */
  datatype Item = Item(id: string, collectionId: Option<string>, assets: seq<Asset>)

  /**
   * The outcome of fetching one URL and writing the body: the whole body written; an exception
   * once `open(filename, "wb")` had created the file, which keeps the bytes written before it;
   * or an exception before the file was opened.
   */
  datatype Response = Fetched(content: seq<byte>) | WriteFailed(written: seq<byte>) | FetchFailed

  type Disk = map<Path, seq<byte>>

  /** The statistics dictionary the function returns. */
  datatype Stats = Stats(totalItems: nat, downloaded: nat, failed: nat, skipped: nat, filesDownloaded: nat)

  /** What the run has changed so far: the counters, the disk and the URLs fetched, in order. */
  datatype Run = Run(stats: Stats, disk: Disk, requests: seq<string>)

  /** The arguments every item is processed with. */
  datatype Settings = Settings(
    collectionName: string,
    base: Path,
    bandNames: Option<map<string, seq<string>>>,
    fetch: string -> Response)

  /** Progress through the bands of one item: the run so far and `bands_downloaded`. */
  datatype Progress = Progress(run: Run, bandsDownloaded: seq<string>)

  /** How the band loop of one item ends: after its last band, or at a band the item has no asset for. */
  datatype BandsOutcome = Completed(p: Progress) | Missing(p: Progress, band: string)

  /** Python truthiness of an optional string: present and not empty. */
  predicate Truthy(s: Option<string>)
  {
    s.Some? && s.value != ""
  }

  /** Python truthiness of the optional band table: present and not empty. */
  predicate FilterGiven(bandNames: Option<map<string, seq<string>>>)
  {
    bandNames.Some? && |bandNames.value| > 0
  }

  /** No counter went down. */
  predicate Grows(a: Stats, b: Stats)
  {
    a.totalItems <= b.totalItems && a.downloaded <= b.downloaded && a.failed <= b.failed
    && a.skipped <= b.skipped && a.filesDownloaded <= b.filesDownloaded
  }

  /** Every file of `a` is still in `b` with the same contents: nothing is deleted or overwritten. */
  predicate DiskExtends(a: Disk, b: Disk)
  {
    forall p :: p in a ==> p in b && b[p] == a[p]
  }

  /** `Path(output_dir) / collection_name` when `output_dir` is truthy, else `Path(collection_name)`. */
  function BasePath(collectionName: string, outputDir: Option<string>): Path
  {
    if Truthy(outputDir) then [outputDir.value, collectionName] else [collectionName]
  }

  /** The file one band of one item is written to. */
  function BandFile(base: Path, item: Item, band: string): Path
  {
    base + [item.id, band + ".tif"]
  }

  /** `list(item.assets.keys())`. */
  function AssetKeys(assets: seq<Asset>): (keys: seq<string>)
    ensures |keys| == |assets|
    ensures forall i :: 0 <= i < |assets| ==> keys[i] == assets[i].key
  {
    if |assets| == 0 then [] else [assets[0].key] + AssetKeys(assets[1..])
  }

  /** `item.assets[key]`, None where Python raises KeyError. */
  function FindAsset(assets: seq<Asset>, key: string): (r: Option<Asset>)
    ensures r.Some? ==> r.value in assets && r.value.key == key
    ensures r.None? <==> key !in AssetKeys(assets)
  {
    if |assets| == 0 then None
    else if assets[0].key == key then Some(assets[0])
    else FindAsset(assets[1..], key)
  }

  /**
   * The collection id used to look up the bands (helpers.py:56-62): the item's own id when
   * truthy, otherwise a fallback chosen from the collection name, otherwise the falsy id itself.
   */
  function CollectionId(item: Item, collectionName: string): (r: Option<string>)
    ensures Truthy(item.collectionId) ==> r == item.collectionId
    ensures !Truthy(item.collectionId) ==>
              (Truthy(r) <==> Contains(collectionName, "s30") || Contains(collectionName, "l30"))
    ensures !Truthy(item.collectionId) && Truthy(r) ==> r.value in Config.Bands
    ensures !Truthy(item.collectionId) && Contains(collectionName, "s30") ==> r == Some(Config.SentinelCollection)
    ensures !Truthy(item.collectionId) && !Contains(collectionName, "s30") && Contains(collectionName, "l30") ==>
              r == Some(Config.LandsatCollection)
    ensures !Truthy(item.collectionId) && !Contains(collectionName, "s30") && !Contains(collectionName, "l30") ==>
              r == item.collectionId
  {
    var own := item.collectionId;
    if !Truthy(own) && Contains(collectionName, "s30") then Some(Config.SentinelCollection)
    else if !Truthy(own) && Contains(collectionName, "l30") then Some(Config.LandsatCollection)
    else own
  }

  /**
   * `bands_to_download` (helpers.py:68-71): the configured bands of the collection when a band
   * table is given, else every asset key. None stands for the KeyError of an unknown collection.
   */
  function BandsToDownload(item: Item, collectionId: Option<string>, bandNames: Option<map<string, seq<string>>>)
    : (r: Option<seq<string>>)
    ensures FilterGiven(bandNames) ==>
              (r.Some? <==> collectionId.Some? && collectionId.value in bandNames.value)
    ensures FilterGiven(bandNames) && r.Some? ==> r.value == bandNames.value[collectionId.value]
    ensures !FilterGiven(bandNames) ==> r == Some(AssetKeys(item.assets))
  {
    if FilterGiven(bandNames) then
      if collectionId.Some? && collectionId.value in bandNames.value
      then Some(bandNames.value[collectionId.value])
      else None
    else Some(AssetKeys(item.assets))
  }

  /** The bands `download_items` tries for an item, or None when looking them up raises. */
  function RequestedBands(s: Settings, item: Item): Option<seq<string>>
  {
    BandsToDownload(item, CollectionId(item, s.collectionName), s.bandNames)
  }

  /**
   * One band whose asset exists (helpers.py:93-112): an existing file is counted without a fetch;
   * otherwise the URL is fetched, and the body is written and counted, or the failure is counted
   * (leaving behind whatever part of the file was written).
   */
  function BandStep(p: Progress, s: Settings, item: Item, band: string, asset: Asset): Progress
  {
    var file := BandFile(s.base, item, band);
    var st := p.run.stats;
    if file in p.run.disk then
      Progress(p.run.(stats := st.(filesDownloaded := st.filesDownloaded + 1)), p.bandsDownloaded + [band])
    else
      match s.fetch(asset.href)
      case Fetched(body) =>
        Progress(Run(st.(filesDownloaded := st.filesDownloaded + 1), p.run.disk[file := body], p.run.requests + [asset.href]),
                 p.bandsDownloaded + [band])
      case WriteFailed(written) =>
        Progress(Run(st.(failed := st.failed + 1), p.run.disk[file := written], p.run.requests + [asset.href]), p.bandsDownloaded)
      case FetchFailed =>
        Progress(Run(st.(failed := st.failed + 1), p.run.disk, p.run.requests + [asset.href]), p.bandsDownloaded)
  }

  /**
   * The band loop of one item (helpers.py:85-112) over the bands still to do. A band without an
   * asset ends the loop with `Missing`: the KeyError of helpers.py:87 leaves the loop at once.
   */
  function BandsFrom(p: Progress, s: Settings, item: Item, bands: seq<string>): BandsOutcome
    decreases |bands|
  {
    if |bands| == 0 then Completed(p)
    else
      match FindAsset(item.assets, bands[0])
      case None => Missing(p, bands[0])
      case Some(asset) => BandsFrom(BandStep(p, s, item, bands[0], asset), s, item, bands[1..])
  }

  /** One item of the outer loop (helpers.py:47-119), including its item-level `except`. */
  function ItemStep(r: Run, s: Settings, item: Item): Run
  {
    match RequestedBands(s, item)
    case None => r.(stats := r.stats.(failed := r.stats.failed + 1))
    case Some(bands) =>
      if |bands| == 0 then r.(stats := r.stats.(skipped := r.stats.skipped + 1))
      else
        match BandsFrom(Progress(r, []), s, item, bands)
        case Completed(p) =>
          if |p.bandsDownloaded| > 0 then p.run.(stats := p.run.stats.(downloaded := p.run.stats.downloaded + 1))
          else p.run
        case Missing(p, _) => p.run.(stats := p.run.stats.(failed := p.run.stats.failed + 1))
  }

  /** The outer loop over the items still to do. */
  function ItemsFrom(r: Run, s: Settings, items: seq<Item>): Run
    decreases |items|
  {
    if |items| == 0 then r else ItemsFrom(ItemStep(r, s, items[0]), s, items[1..])
  }

  /**
   * What one band does to the counters, the disk and the requests: exactly one of
   * `files_downloaded` and `failed` goes up; the band counts as downloaded exactly when its file
   * was there or its fetch succeeded; a request is made exactly when the file was not there;
   * a new file holds the body fetched, or the part of it written before the write raised.
   */
  lemma BandStepFacts(p: Progress, s: Settings, item: Item, band: string, asset: Asset)
    ensures var q := BandStep(p, s, item, band, asset);
      && Grows(p.run.stats, q.run.stats)
      && q.run.stats == p.run.stats.(filesDownloaded := q.run.stats.filesDownloaded, failed := q.run.stats.failed)
      && q.run.stats.filesDownloaded + q.run.stats.failed == p.run.stats.filesDownloaded + p.run.stats.failed + 1
      && (q.bandsDownloaded == p.bandsDownloaded + [band] <==> q.run.stats.filesDownloaded == p.run.stats.filesDownloaded + 1)
      && (q.bandsDownloaded == p.bandsDownloaded || q.bandsDownloaded == p.bandsDownloaded + [band])
      && (q.bandsDownloaded == p.bandsDownloaded + [band] <==>
            BandFile(s.base, item, band) in p.run.disk || s.fetch(asset.href).Fetched?)
      && q.run.requests == (if BandFile(s.base, item, band) in p.run.disk then p.run.requests else p.run.requests + [asset.href])
      && DiskExtends(p.run.disk, q.run.disk)
      && (forall f :: f in q.run.disk && f !in p.run.disk ==> f == BandFile(s.base, item, band))
      && (BandFile(s.base, item, band) !in p.run.disk && s.fetch(asset.href).Fetched? ==>
            q.run.disk == p.run.disk[BandFile(s.base, item, band) := s.fetch(asset.href).content])
      && (BandFile(s.base, item, band) !in p.run.disk && s.fetch(asset.href).WriteFailed? ==>
            q.run.disk == p.run.disk[BandFile(s.base, item, band) := s.fetch(asset.href).written])
      && (BandFile(s.base, item, band) in p.run.disk || s.fetch(asset.href).FetchFailed? ==> q.run.disk == p.run.disk)
  {
  }

  /**
   * A write that raises part-way counts the band as failed but leaves the file it had begun:
   * the next pass over that band finds the file, counts it in `files_downloaded` and fetches
   * nothing, so the cut-short file is kept.
   */
  lemma PartialFileTrustedLater(p: Progress, s: Settings, item: Item, band: string, asset: Asset)
    requires BandFile(s.base, item, band) !in p.run.disk && s.fetch(asset.href).WriteFailed?
    ensures var q := BandStep(p, s, item, band, asset);
            var again := BandStep(q, s, item, band, asset);
            && q.run.stats.failed == p.run.stats.failed + 1 && q.bandsDownloaded == p.bandsDownloaded
            && q.run.disk[BandFile(s.base, item, band)] == s.fetch(asset.href).written
            && again.run.requests == q.run.requests && again.run.disk == q.run.disk
            && again.run.stats.filesDownloaded == q.run.stats.filesDownloaded + 1
            && again.bandsDownloaded == q.bandsDownloaded + [band]
  {
  }

  /**
   * The band loop only touches `files_downloaded` and `failed`; every band it gets through counts
   * once in one of them; `files_downloaded` grows by the number of bands downloaded; files only
   * appear, and only at the band files of this item.
   */
  lemma {:induction false} BandsFromFacts(p: Progress, s: Settings, item: Item, bands: seq<string>)
    ensures var o := BandsFrom(p, s, item, bands);
      && Grows(p.run.stats, o.p.run.stats)
      && o.p.run.stats.totalItems == p.run.stats.totalItems
      && o.p.run.stats.downloaded == p.run.stats.downloaded && o.p.run.stats.skipped == p.run.stats.skipped
      && |p.bandsDownloaded| <= |o.p.bandsDownloaded| && o.p.bandsDownloaded[..|p.bandsDownloaded|] == p.bandsDownloaded
      && o.p.run.stats.filesDownloaded - p.run.stats.filesDownloaded == |o.p.bandsDownloaded| - |p.bandsDownloaded|
      && (o.Completed? ==>
            o.p.run.stats.filesDownloaded + o.p.run.stats.failed == p.run.stats.filesDownloaded + p.run.stats.failed + |bands|)
      && DiskExtends(p.run.disk, o.p.run.disk)
      && (forall f :: f in o.p.run.disk && f !in p.run.disk ==> exists b :: b in bands && f == BandFile(s.base, item, b))
    decreases |bands|
  {
    if |bands| > 0 && FindAsset(item.assets, bands[0]).Some? {
      var asset := FindAsset(item.assets, bands[0]).value;
      var q := BandStep(p, s, item, bands[0], asset);
      BandStepFacts(p, s, item, bands[0], asset);
      BandsFromFacts(q, s, item, bands[1..]);
      var o := BandsFrom(q, s, item, bands[1..]);
      assert o.p.bandsDownloaded[..|q.bandsDownloaded|][..|p.bandsDownloaded|] == o.p.bandsDownloaded[..|p.bandsDownloaded|];
      forall f | f in o.p.run.disk && f !in p.run.disk
        ensures exists b :: b in bands && f == BandFile(s.base, item, b)
      {
        if f in q.run.disk {
          assert bands[0] in bands && f == BandFile(s.base, item, bands[0]);
        } else {
          var b :| b in bands[1..] && f == BandFile(s.base, item, b);
          assert b in bands;
        }
      }
    }
  }

  /**
   * One item raises `downloaded + skipped` by at most one, never lets `downloaded` overtake
   * `files_downloaded`, and only adds files under its own directory. It is skipped exactly when
   * its list of bands is empty, and then nothing else changes; when looking its bands up raises
   * (no band table entry for its collection id) it only counts one failure.
   */
  lemma ItemStepFacts(r: Run, s: Settings, item: Item)
    ensures var r' := ItemStep(r, s, item);
      && r'.stats.skipped == r.stats.skipped + (if RequestedBands(s, item) == Some([]) then 1 else 0)
      && (RequestedBands(s, item) == Some([]) ==> r' == r.(stats := r.stats.(skipped := r.stats.skipped + 1)))
      && (RequestedBands(s, item).None? ==> r' == r.(stats := r.stats.(failed := r.stats.failed + 1)))
      && (RequestedBands(s, item).None? <==>
            FilterGiven(s.bandNames)
            && !(CollectionId(item, s.collectionName).Some? && CollectionId(item, s.collectionName).value in s.bandNames.value))
      && Grows(r.stats, r'.stats)
      && r'.stats.totalItems == r.stats.totalItems
      && r'.stats.downloaded + r'.stats.skipped <= r.stats.downloaded + r.stats.skipped + 1
      && r'.stats.filesDownloaded - r'.stats.downloaded >= r.stats.filesDownloaded - r.stats.downloaded
      && DiskExtends(r.disk, r'.disk)
      && (forall f :: f in r'.disk && f !in r.disk ==> exists b :: f == BandFile(s.base, item, b))
  {
    if RequestedBands(s, item).Some? && |RequestedBands(s, item).value| > 0 {
      var bands := RequestedBands(s, item).value;
      BandsFromFacts(Progress(r, []), s, item, bands);
    }
  }

  /** The counting invariants of the whole item loop. */
  lemma {:induction false} ItemsFromFacts(r: Run, s: Settings, items: seq<Item>)
    ensures var r' := ItemsFrom(r, s, items);
      && Grows(r.stats, r'.stats)
      && r'.stats.totalItems == r.stats.totalItems
      && r'.stats.downloaded + r'.stats.skipped <= r.stats.downloaded + r.stats.skipped + |items|
      && r'.stats.filesDownloaded - r'.stats.downloaded >= r.stats.filesDownloaded - r.stats.downloaded
      && DiskExtends(r.disk, r'.disk)
      && (forall f :: f in r'.disk && f !in r.disk ==> exists it, b :: it in items && f == BandFile(s.base, it, b))
    decreases |items|
  {
    if |items| > 0 {
      var q := ItemStep(r, s, items[0]);
      ItemStepFacts(r, s, items[0]);
      ItemsFromFacts(q, s, items[1..]);
      var o := ItemsFrom(q, s, items[1..]);
      forall f | f in o.disk && f !in r.disk
        ensures exists it, b :: it in items && f == BandFile(s.base, it, b)
      {
        if f in q.disk {
          var b :| f == BandFile(s.base, items[0], b);
          assert items[0] in items;
        } else {
          var it, b :| it in items[1..] && f == BandFile(s.base, it, b);
          assert it in items;
        }
      }
    }
  }

  /** `items_dict.values()`, in dict order. */
  function Values(itemsDict: seq<(string, seq<Item>)>): (vs: seq<seq<Item>>)
    ensures |vs| == |itemsDict|
    ensures forall i :: 0 <= i < |vs| ==> vs[i] == itemsDict[i].1
  {
    if |itemsDict| == 0 then [] else [itemsDict[0].1] + Values(itemsDict[1..])
  }

  /** The lists concatenated in order, as the `extend` loop of helpers.py:43-45 builds them. */
  function Flatten(lists: seq<seq<Item>>): seq<Item>
  {
    if |lists| == 0 then [] else Flatten(lists[..|lists| - 1]) + lists[|lists| - 1]
  }

  /** `sum(len(items) for items in ...)`. */
  function SumLengths(lists: seq<seq<Item>>): nat
  {
    if |lists| == 0 then 0 else SumLengths(lists[..|lists| - 1]) + |lists[|lists| - 1]|
  }

  function SettingsOf(collectionName: string, outputDir: Option<string>,
                      bandNames: Option<map<string, seq<string>>>, fetch: string -> Response): Settings
  {
    Settings(collectionName, BasePath(collectionName, outputDir), bandNames, fetch)
  }

  /** What `download_items` computes, as a function of its arguments, the disk and the network. */
  function DownloadSpec(itemsDict: seq<(string, seq<Item>)>, collectionName: string, outputDir: Option<string>,
                        bandNames: Option<map<string, seq<string>>>, disk: Disk, fetch: string -> Response): Run
  {
    var values := Values(itemsDict);
    ItemsFrom(Run(Stats(SumLengths(values), 0, 0, 0, 0), disk, []),
              SettingsOf(collectionName, outputDir, bandNames, fetch), Flatten(values))
  }

  /** `total_items` is the number of items the loop visits. */
  lemma {:induction false} FlattenLength(lists: seq<seq<Item>>)
    ensures |Flatten(lists)| == SumLengths(lists)
    decreases |lists|
  {
    if |lists| > 0 {
      FlattenLength(lists[..|lists| - 1]);
    }
  }

  /**
   * At return `total_items` is the number of items and was never changed, `downloaded + skipped`
   * does not exceed it, and every downloaded item contributed at least one file.
   */
  lemma DownloadStatsBounds(itemsDict: seq<(string, seq<Item>)>, collectionName: string, outputDir: Option<string>,
                            bandNames: Option<map<string, seq<string>>>, disk: Disk, fetch: string -> Response)
    ensures var r := DownloadSpec(itemsDict, collectionName, outputDir, bandNames, disk, fetch);
      && r.stats.totalItems == SumLengths(Values(itemsDict)) == |Flatten(Values(itemsDict))|
      && r.stats.downloaded + r.stats.skipped <= r.stats.totalItems
      && r.stats.downloaded <= r.stats.filesDownloaded
  {
    var values := Values(itemsDict);
    FlattenLength(values);
    ItemsFromFacts(Run(Stats(SumLengths(values), 0, 0, 0, 0), disk, []),
                   SettingsOf(collectionName, outputDir, bandNames, fetch), Flatten(values));
  }

  /**
   * The run never deletes or overwrites a file that was there before, and every file it creates
   * is `<base>/<item id>/<band>.tif` for one of the items.
   */
  lemma DownloadDiskFacts(itemsDict: seq<(string, seq<Item>)>, collectionName: string, outputDir: Option<string>,
                          bandNames: Option<map<string, seq<string>>>, disk: Disk, fetch: string -> Response)
    ensures var r := DownloadSpec(itemsDict, collectionName, outputDir, bandNames, disk, fetch);
      && DiskExtends(disk, r.disk)
      && forall f :: f in r.disk && f !in disk ==>
           exists it, b :: it in Flatten(Values(itemsDict)) && f == BandFile(BasePath(collectionName, outputDir), it, b)
  {
    var values := Values(itemsDict);
    ItemsFromFacts(Run(Stats(SumLengths(values), 0, 0, 0, 0), disk, []),
                   SettingsOf(collectionName, outputDir, bandNames, fetch), Flatten(values));
  }

  lemma {:induction false} BandsFromStopsAtMissing(p: Progress, s: Settings, item: Item, bands: seq<string>, k: nat)
    requires k < |bands| && FindAsset(item.assets, bands[k]).None?
    requires forall j :: 0 <= j < k ==> FindAsset(item.assets, bands[j]).Some?
    ensures BandsFrom(p, s, item, bands[..k]).Completed?
    ensures BandsFrom(p, s, item, bands) == Missing(BandsFrom(p, s, item, bands[..k]).p, bands[k])
    decreases k
  {
    if k > 0 {
      var q := BandStep(p, s, item, bands[0], FindAsset(item.assets, bands[0]).value);
      BandsFromStopsAtMissing(q, s, item, bands[1..], k - 1);
      assert bands[..k][1..] == bands[1..][..k - 1];
    }
  }

  /**
   * A requested band without an asset turns the item into an item-level failure at that band:
   * the item ends exactly as if only the bands before it had been requested, plus one `failed`,
   * and `downloaded` does not go up even when earlier bands were written.
   */
  lemma ItemFailsAtMissingBand(r: Run, s: Settings, item: Item, k: nat)
    requires RequestedBands(s, item).Some?
    requires k < |RequestedBands(s, item).value|
    requires FindAsset(item.assets, RequestedBands(s, item).value[k]).None?
    requires forall j :: 0 <= j < k ==> FindAsset(item.assets, RequestedBands(s, item).value[j]).Some?
    ensures var before := BandsFrom(Progress(r, []), s, item, RequestedBands(s, item).value[..k]);
      && before.Completed?
      && ItemStep(r, s, item) == before.p.run.(stats := before.p.run.stats.(failed := before.p.run.stats.failed + 1))
    ensures ItemStep(r, s, item).stats.downloaded == r.stats.downloaded
    ensures ItemStep(r, s, item).stats.failed > r.stats.failed
  {
    var bands := RequestedBands(s, item).value;
    BandsFromStopsAtMissing(Progress(r, []), s, item, bands, k);
    BandsFromFacts(Progress(r, []), s, item, bands);
  }

  /**
   * Band `j` of `bands` is counted when its turn comes: its file is already there, its fetch
   * writes the whole body, or an earlier pass over the same band left a cut-short file.
   */
  predicate ObtainableAt(s: Settings, item: Item, disk: Disk, bands: seq<string>, j: nat)
    requires j < |bands|
  {
    BandFile(s.base, item, bands[j]) in disk
    || (FindAsset(item.assets, bands[j]).Some? &&
        (s.fetch(FindAsset(item.assets, bands[j]).value.href).Fetched?
         || (s.fetch(FindAsset(item.assets, bands[j]).value.href).WriteFailed? && exists i :: 0 <= i < j && bands[i] == bands[j])))
  }

  /** After a first band that is not counted, the later bands are counted from the new disk exactly as from the old one. */
  lemma ObtainableAfterFailure(p: Progress, s: Settings, item: Item, bands: seq<string>, j: nat)
    requires j + 1 < |bands|
    requires forall k :: 0 <= k < |bands| ==> FindAsset(item.assets, bands[k]).Some?
    requires !ObtainableAt(s, item, p.run.disk, bands, 0)
    ensures ObtainableAt(s, item, BandStep(p, s, item, bands[0], FindAsset(item.assets, bands[0]).value).run.disk, bands[1..], j)
            <==> ObtainableAt(s, item, p.run.disk, bands, j + 1)
  {
    var b0, b := bands[0], bands[j + 1];
    assert bands[1..][j] == b;
    if b != b0 {
      BandFilesDiffer(s.base, item, b0, b);
    }
    if i :| 0 <= i < j + 1 && bands[i] == b {
      if i > 0 {
        assert bands[1..][i - 1] == b;
      }
    }
    if i :| 0 <= i < j && bands[1..][i] == b {
      assert bands[i + 1] == b;
    }
  }

  lemma {:induction false} BandsFromDownloadsIff(p: Progress, s: Settings, item: Item, bands: seq<string>)
    requires forall j :: 0 <= j < |bands| ==> FindAsset(item.assets, bands[j]).Some?
    ensures BandsFrom(p, s, item, bands).Completed?
    ensures |BandsFrom(p, s, item, bands).p.bandsDownloaded| > |p.bandsDownloaded|
            <==> exists j :: 0 <= j < |bands| && ObtainableAt(s, item, p.run.disk, bands, j)
    decreases |bands|
  {
    if |bands| > 0 {
      var asset := FindAsset(item.assets, bands[0]).value;
      var q := BandStep(p, s, item, bands[0], asset);
      BandStepFacts(p, s, item, bands[0], asset);
      BandsFromDownloadsIff(q, s, item, bands[1..]);
      BandsFromFacts(q, s, item, bands[1..]);
      var o := BandsFrom(q, s, item, bands[1..]);
      if ObtainableAt(s, item, p.run.disk, bands, 0) {
        assert |o.p.bandsDownloaded| > |p.bandsDownloaded|;
      } else {
        assert q.bandsDownloaded == p.bandsDownloaded;
        forall j | 0 <= j < |bands| - 1
          ensures ObtainableAt(s, item, q.run.disk, bands[1..], j) <==> ObtainableAt(s, item, p.run.disk, bands, j + 1)
        {
          ObtainableAfterFailure(p, s, item, bands, j);
        }
        if |o.p.bandsDownloaded| > |p.bandsDownloaded| {
          var j :| 0 <= j < |bands[1..]| && ObtainableAt(s, item, q.run.disk, bands[1..], j);
          assert ObtainableAt(s, item, p.run.disk, bands, j + 1);
        }
        if j :| 0 <= j < |bands| && ObtainableAt(s, item, p.run.disk, bands, j) {
          assert j > 0 && ObtainableAt(s, item, q.run.disk, bands[1..], j - 1);
        }
      }
    }
  }

  /**
   * An item whose requested bands all have assets counts as downloaded exactly when at least one
   * of those bands is counted when its turn comes (`ObtainableAt`); every band counts once, in
   * `files_downloaded` or in `failed`.
   */
  lemma ItemDownloadedIff(r: Run, s: Settings, item: Item)
    requires RequestedBands(s, item).Some?
    requires forall j :: 0 <= j < |RequestedBands(s, item).value| ==>
               FindAsset(item.assets, RequestedBands(s, item).value[j]).Some?
    ensures var bands := RequestedBands(s, item).value;
      ItemStep(r, s, item).stats.downloaded ==
        if exists j :: 0 <= j < |bands| && ObtainableAt(s, item, r.disk, bands, j)
        then r.stats.downloaded + 1 else r.stats.downloaded
    ensures var bands := RequestedBands(s, item).value;
      |bands| > 0 ==>
        ItemStep(r, s, item).stats.filesDownloaded + ItemStep(r, s, item).stats.failed
        == r.stats.filesDownloaded + r.stats.failed + |bands|
  {
    var bands := RequestedBands(s, item).value;
    BandsFromDownloadsIff(Progress(r, []), s, item, bands);
    BandsFromFacts(Progress(r, []), s, item, bands);
  }

  /** Every requested band of every item with an asset list lookup that succeeds is already on disk. */
  predicate AllBandFilesPresent(s: Settings, items: seq<Item>, disk: Disk)
  {
    forall it, b :: it in items && RequestedBands(s, it).Some? && b in RequestedBands(s, it).value ==>
      BandFile(s.base, it, b) in disk
  }

  lemma {:induction false} BandsFromAllPresent(p: Progress, s: Settings, item: Item, bands: seq<string>)
    requires forall b :: b in bands ==> BandFile(s.base, item, b) in p.run.disk
    ensures BandsFrom(p, s, item, bands).p.run.disk == p.run.disk
    ensures BandsFrom(p, s, item, bands).p.run.requests == p.run.requests
    decreases |bands|
  {
    if |bands| > 0 && FindAsset(item.assets, bands[0]).Some? {
      var q := BandStep(p, s, item, bands[0], FindAsset(item.assets, bands[0]).value);
      BandsFromAllPresent(q, s, item, bands[1..]);
    }
  }

  lemma {:induction false} ItemsFromAllPresent(r: Run, s: Settings, items: seq<Item>)
    requires AllBandFilesPresent(s, items, r.disk)
    ensures ItemsFrom(r, s, items).disk == r.disk
    ensures ItemsFrom(r, s, items).requests == r.requests
    decreases |items|
  {
    if |items| > 0 {
      var item := items[0];
      if RequestedBands(s, item).Some? {
        BandsFromAllPresent(Progress(r, []), s, item, RequestedBands(s, item).value);
      }
      var q := ItemStep(r, s, item);
      assert q.disk == r.disk;
      ItemsFromAllPresent(q, s, items[1..]);
    }
  }

  /**
   * Resuming: when the file of every requested band is already there, the run fetches nothing
   * and writes nothing.
   */
  lemma RerunFetchesNothing(itemsDict: seq<(string, seq<Item>)>, collectionName: string, outputDir: Option<string>,
                            bandNames: Option<map<string, seq<string>>>, disk: Disk, fetch: string -> Response)
    requires AllBandFilesPresent(SettingsOf(collectionName, outputDir, bandNames, fetch), Flatten(Values(itemsDict)), disk)
    ensures DownloadSpec(itemsDict, collectionName, outputDir, bandNames, disk, fetch).requests == []
    ensures DownloadSpec(itemsDict, collectionName, outputDir, bandNames, disk, fetch).disk == disk
  {
    var values := Values(itemsDict);
    ItemsFromAllPresent(Run(Stats(SumLengths(values), 0, 0, 0, 0), disk, []),
                        SettingsOf(collectionName, outputDir, bandNames, fetch), Flatten(values));
  }

  /** Every requested band of every item whose bands can be looked up has an asset whose fetch writes the whole body. */
  predicate AllBandsFetchable(s: Settings, items: seq<Item>)
  {
    forall it, b :: it in items && RequestedBands(s, it).Some? && b in RequestedBands(s, it).value ==>
      FindAsset(it.assets, b).Some? && s.fetch(FindAsset(it.assets, b).value.href).Fetched?
  }

  lemma {:induction false} BandsFromWritesAll(p: Progress, s: Settings, item: Item, bands: seq<string>)
    requires forall b :: b in bands ==> FindAsset(item.assets, b).Some? && s.fetch(FindAsset(item.assets, b).value.href).Fetched?
    ensures forall b :: b in bands ==> BandFile(s.base, item, b) in BandsFrom(p, s, item, bands).p.run.disk
    decreases |bands|
  {
    if |bands| > 0 {
      var q := BandStep(p, s, item, bands[0], FindAsset(item.assets, bands[0]).value);
      BandsFromWritesAll(q, s, item, bands[1..]);
      BandsFromFacts(q, s, item, bands[1..]);
      forall b | b in bands
        ensures BandFile(s.base, item, b) in BandsFrom(p, s, item, bands).p.run.disk
      {
        var i :| 0 <= i < |bands| && bands[i] == b;
        if i > 0 {
          assert bands[1..][i - 1] == b;
        }
      }
    }
  }

  lemma {:induction false} ItemsFromFillsDisk(r: Run, s: Settings, items: seq<Item>)
    requires AllBandsFetchable(s, items)
    ensures AllBandFilesPresent(s, items, ItemsFrom(r, s, items).disk)
    decreases |items|
  {
    if |items| > 0 {
      var item := items[0];
      var q := ItemStep(r, s, item);
      assert AllBandsFetchable(s, items[1..]) by {
        forall it | it in items[1..]
          ensures it in items
        {
        }
      }
      ItemsFromFillsDisk(q, s, items[1..]);
      ItemsFromFacts(q, s, items[1..]);
      if RequestedBands(s, item).Some? {
        var bands := RequestedBands(s, item).value;
        assert item in items;
        BandsFromWritesAll(Progress(r, []), s, item, bands);
        BandsFromDownloadsIff(Progress(r, []), s, item, bands);
      }
      forall it, b | it in items && RequestedBands(s, it).Some? && b in RequestedBands(s, it).value
        ensures BandFile(s.base, it, b) in ItemsFrom(r, s, items).disk
      {
        var i :| 0 <= i < |items| && items[i] == it;
        if i > 0 {
          assert items[1..][i - 1] == it;
        }
      }
    }
  }

  /**
   * Resuming after a clean run: when every requested band has an asset and every fetch writes its
   * whole body, the first run leaves the file of every requested band on disk, so a second run
   * over the same items, on any network, fetches nothing and writes nothing.
   */
  lemma SecondRunFetchesNothing(itemsDict: seq<(string, seq<Item>)>, collectionName: string, outputDir: Option<string>,
                                bandNames: Option<map<string, seq<string>>>, disk: Disk,
                                fetch: string -> Response, fetchAgain: string -> Response)
    requires AllBandsFetchable(SettingsOf(collectionName, outputDir, bandNames, fetch), Flatten(Values(itemsDict)))
    ensures var first := DownloadSpec(itemsDict, collectionName, outputDir, bandNames, disk, fetch);
            var second := DownloadSpec(itemsDict, collectionName, outputDir, bandNames, first.disk, fetchAgain);
            second.requests == [] && second.disk == first.disk
  {
    var values := Values(itemsDict);
    var s := SettingsOf(collectionName, outputDir, bandNames, fetch);
    var s2 := SettingsOf(collectionName, outputDir, bandNames, fetchAgain);
    ItemsFromFillsDisk(Run(Stats(SumLengths(values), 0, 0, 0, 0), disk, []), s, Flatten(values));
    var first := DownloadSpec(itemsDict, collectionName, outputDir, bandNames, disk, fetch);
    assert forall it :: RequestedBands(s2, it) == RequestedBands(s, it);
    assert AllBandFilesPresent(s2, Flatten(values), first.disk);
    RerunFetchesNothing(itemsDict, collectionName, outputDir, bandNames, first.disk, fetchAgain);
  }

  /** A run over a single list holding a single item is that item's step from a total of one. */
  lemma OneItemRun(collectionName: string, outputDir: Option<string>, bandNames: Option<map<string, seq<string>>>,
                   disk: Disk, fetch: string -> Response, item: Item)
    ensures DownloadSpec([(collectionName, [item])], collectionName, outputDir, bandNames, disk, fetch)
            == ItemStep(Run(Stats(1, 0, 0, 0, 0), disk, []), SettingsOf(collectionName, outputDir, bandNames, fetch), item)
  {
    var values := Values([(collectionName, [item])]);
    assert values == [[item]];
    assert Flatten(values) == [item] by {
      assert Flatten(values[..0]) == [];
    }
    assert SumLengths(values) == 1 by {
      assert SumLengths(values[..0]) == 0;
    }
    var r := Run(Stats(1, 0, 0, 0, 0), disk, []);
    var st := SettingsOf(collectionName, outputDir, bandNames, fetch);
    assert [item][1..] == [];
    assert ItemsFrom(r, st, [item]) == ItemsFrom(ItemStep(r, st, item), st, []);
  }

  /** A network on which only the URL "u1" can be fetched. */
  function FirstUrlOnly(url: string): Response
  {
    if url == "u1" then Fetched([]) else FetchFailed
  }

  /** A network on which every fetch returns an empty body. */
  function AlwaysEmptyBody(url: string): Response
  {
    Fetched([])
  }

  /**
   * An item with two requested bands whose files are new, the first fetched and the second not:
   * the item counts as downloaded and its second band as failed, so one item adds to both.
   */
  lemma FetchFailureInDownloadedItem(r: Run, s: Settings, item: Item, b1: string, b2: string, a1: Asset, a2: Asset)
    requires RequestedBands(s, item) == Some([b1, b2]) && b1 != b2
    requires FindAsset(item.assets, b1) == Some(a1) && FindAsset(item.assets, b2) == Some(a2)
    requires BandFile(s.base, item, b1) !in r.disk && BandFile(s.base, item, b2) !in r.disk
    requires s.fetch(a1.href).Fetched? && s.fetch(a2.href) == FetchFailed
    ensures ItemStep(r, s, item).stats
            == r.stats.(downloaded := r.stats.downloaded + 1, failed := r.stats.failed + 1,
                        filesDownloaded := r.stats.filesDownloaded + 1)
  {
    FetchedThenFailed(Progress(r, []), s, item, b1, b2, a1, a2);
  }

  /** The band loop over a band that is fetched and then one whose fetch fails. */
  lemma FetchedThenFailed(p: Progress, s: Settings, item: Item, b1: string, b2: string, a1: Asset, a2: Asset)
    requires b1 != b2
    requires FindAsset(item.assets, b1) == Some(a1) && FindAsset(item.assets, b2) == Some(a2)
    requires BandFile(s.base, item, b1) !in p.run.disk && BandFile(s.base, item, b2) !in p.run.disk
    requires s.fetch(a1.href).Fetched? && s.fetch(a2.href) == FetchFailed
    ensures var o := BandsFrom(p, s, item, [b1, b2]);
            && o.Completed? && o.p.bandsDownloaded == p.bandsDownloaded + [b1]
            && o.p.run.stats == p.run.stats.(failed := p.run.stats.failed + 1, filesDownloaded := p.run.stats.filesDownloaded + 1)
  {
    BandFilesDiffer(s.base, item, b1, b2);
    var p1 := BandStep(p, s, item, b1, a1);
    assert p1.run.stats == p.run.stats.(filesDownloaded := p.run.stats.filesDownloaded + 1);
    assert p1.bandsDownloaded == p.bandsDownloaded + [b1];
    assert BandFile(s.base, item, b2) !in p1.run.disk;
    var p2 := BandStep(p1, s, item, b2, a2);
    assert p2.run.stats == p1.run.stats.(failed := p1.run.stats.failed + 1) && p2.bandsDownloaded == p1.bandsDownloaded;
    assert [b1, b2][1..] == [b2] && [b2][1..] == [];
    assert BandsFrom(p, s, item, [b1, b2]) == BandsFrom(p1, s, item, [b2]);
    assert BandsFrom(p1, s, item, [b2]) == Completed(p2);
  }

  lemma BandFilesDiffer(base: Path, item: Item, b1: string, b2: string)
    requires b1 != b2
    ensures BandFile(base, item, b1) != BandFile(base, item, b2)
  {
    var n1 := b1 + ".tif";
    assert n1[..|b1|] == b1;
    assert BandFile(base, item, b1)[|base| + 1] == n1;
  }

  /**
   * One item with two bands, the second of whose fetch fails: `failed` counts the band, so
   * `downloaded + failed + skipped` exceeds `total_items`.
   */
  lemma BandFailureCountedInFailed()
    ensures var item := Item("A", Some(Config.SentinelCollection), [Asset("B02", "u1"), Asset("B03", "u2")]);
            var r := DownloadSpec([(Config.SentinelCollection, [item])], Config.SentinelCollection, None,
                                  Some(map[Config.SentinelCollection := ["B02", "B03"]]), map[], FirstUrlOnly);
            && r.stats == Stats(1, 1, 1, 0, 1)
            && r.stats.downloaded + r.stats.failed + r.stats.skipped > r.stats.totalItems
  {
    var item := Item("A", Some(Config.SentinelCollection), [Asset("B02", "u1"), Asset("B03", "u2")]);
    var bandNames := Some(map[Config.SentinelCollection := ["B02", "B03"]]);
    var s := SettingsOf(Config.SentinelCollection, None, bandNames, FirstUrlOnly);
    OneItemRun(Config.SentinelCollection, None, bandNames, map[], FirstUrlOnly, item);
    assert RequestedBands(s, item) == Some(["B02", "B03"]);
    assert FindAsset(item.assets, "B02") == Some(Asset("B02", "u1"));
    assert FindAsset(item.assets, "B03") == Some(Asset("B03", "u2"));
    assert "u2"[1] != "u1"[1];
    FetchFailureInDownloadedItem(Run(Stats(1, 0, 0, 0, 0), map[], []), s, item, "B02", "B03", Asset("B02", "u1"), Asset("B03", "u2"));
  }

  /**
   * One item whose second requested band has no asset: the first band is written, yet the item
   * is not counted as downloaded but as failed.
   */
  lemma MissingBandFailsItem()
    ensures var item := Item("A", Some(Config.SentinelCollection), [Asset("B02", "u1")]);
            var fetch := AlwaysEmptyBody;
            var r := DownloadSpec([(Config.SentinelCollection, [item])], Config.SentinelCollection, None,
                                  Some(map[Config.SentinelCollection := ["B02", "B03"]]), map[], fetch);
            && r.stats == Stats(1, 0, 1, 0, 1)
            && r.disk == map[[Config.SentinelCollection, "A", "B02.tif"] := []]
  {
    var item := Item("A", Some(Config.SentinelCollection), [Asset("B02", "u1")]);
    var fetch := AlwaysEmptyBody;
    var s := SettingsOf(Config.SentinelCollection, None, Some(map[Config.SentinelCollection := ["B02", "B03"]]), fetch);
    var bands := ["B02", "B03"];
    OneItemRun(Config.SentinelCollection, None, Some(map[Config.SentinelCollection := ["B02", "B03"]]), map[], fetch, item);
    assert RequestedBands(s, item) == Some(bands);
    assert FindAsset(item.assets, "B02") == Some(Asset("B02", "u1"));
    assert FindAsset(item.assets, "B03") == None;
    var start := Run(Stats(1, 0, 0, 0, 0), map[], []);
    var p0 := Progress(start, []);
    var p1 := BandStep(p0, s, item, "B02", Asset("B02", "u1"));
    var f1 := BandFile(s.base, item, "B02");
    assert s.base == [Config.SentinelCollection];
    assert "B02" + ".tif" == "B02.tif";
    assert f1 == [Config.SentinelCollection, "A", "B02.tif"];
    assert p1.run.stats == Stats(1, 0, 0, 0, 1) && p1.run.disk == map[f1 := []];
    ItemFailsAtMissingBand(start, s, item, 1);
    assert bands[..1] == ["B02"] && ["B02"][1..] == [];
    assert BandsFrom(p0, s, item, ["B02"]) == Completed(p1);
  }

  /** `download_items` itself: the flattening loop, then each item in turn. */
  method DownloadItems(itemsDict: seq<(string, seq<Item>)>, collectionName: string, outputDir: Option<string>,
                       bandNames: Option<map<string, seq<string>>>, disk0: Disk, fetch: string -> Response)
    returns (stats: Stats, disk: Disk, requests: seq<string>)
    ensures Run(stats, disk, requests) == DownloadSpec(itemsDict, collectionName, outputDir, bandNames, disk0, fetch)
  {
    var values := Values(itemsDict);
    stats := Stats(SumLengths(values), 0, 0, 0, 0);
    disk, requests := disk0, [];
    var s := SettingsOf(collectionName, outputDir, bandNames, fetch);
    ghost var start := Run(stats, disk, requests);

    var items: seq<Item> := [];
    var v := 0;
    while v < |values|
      invariant 0 <= v <= |values|
      invariant items == Flatten(values[..v])
    {
      assert values[..v + 1][..v] == values[..v];
      items := items + values[v];
      v := v + 1;
    }
    assert values[..|values|] == values;

    var k := 0;
    while k < |items|
      invariant 0 <= k <= |items|
      invariant ItemsFrom(Run(stats, disk, requests), s, items[k..]) == ItemsFrom(start, s, items)
    {
      assert items[k..][1..] == items[k + 1..];
      stats, disk, requests := DownloadItem(stats, disk, requests, s, items[k]);
      k := k + 1;
    }
    assert items[|items|..] == [];
  }

  /** The body of the item loop (helpers.py:48-119). */
  method DownloadItem(stats0: Stats, disk0: Disk, requests0: seq<string>, s: Settings, item: Item)
    returns (stats: Stats, disk: Disk, requests: seq<string>)
    ensures Run(stats, disk, requests) == ItemStep(Run(stats0, disk0, requests0), s, item)
  {
    stats, disk, requests := stats0, disk0, requests0;
    var collectionId := CollectionId(item, s.collectionName);
    var bands := BandsToDownload(item, collectionId, s.bandNames);
    if bands.None? {
      // the KeyError of band_names[collection_id]
      stats := stats.(failed := stats.failed + 1);
    } else if |bands.value| == 0 {
      stats := stats.(skipped := stats.skipped + 1);
    } else {
      var bandsDownloaded, missing;
      stats, disk, requests, bandsDownloaded, missing := DownloadBands(stats, disk, requests, s, item, bands.value);
      if missing {
        stats := stats.(failed := stats.failed + 1);
      } else if |bandsDownloaded| > 0 {
        stats := stats.(downloaded := stats.downloaded + 1);
      }
    }
  }

  /** The band loop (helpers.py:84-112); `missing` tells that it stopped at a band without an asset. */
  method DownloadBands(stats0: Stats, disk0: Disk, requests0: seq<string>, s: Settings, item: Item, todo: seq<string>)
    returns (stats: Stats, disk: Disk, requests: seq<string>, bandsDownloaded: seq<string>, missing: bool)
    ensures var o := BandsFrom(Progress(Run(stats0, disk0, requests0), []), s, item, todo);
            missing == o.Missing? && o.p == Progress(Run(stats, disk, requests), bandsDownloaded)
  {
    stats, disk, requests := stats0, disk0, requests0;
    bandsDownloaded := [];
    missing := false;
    ghost var start := Progress(Run(stats0, disk0, requests0), []);
    var j := 0;
    while j < |todo| && !missing
      invariant 0 <= j <= |todo|
      invariant !missing ==>
                  BandsFrom(Progress(Run(stats, disk, requests), bandsDownloaded), s, item, todo[j..])
                  == BandsFrom(start, s, item, todo)
      invariant missing ==> j < |todo|
      invariant missing ==>
                  BandsFrom(start, s, item, todo) == Missing(Progress(Run(stats, disk, requests), bandsDownloaded), todo[j])
      decreases |todo| - j, !missing
    {
      var band := todo[j];
      var asset := FindAsset(item.assets, band);
      if asset.None? {
        missing := true;
      } else {
        ghost var here := Progress(Run(stats, disk, requests), bandsDownloaded);
        assert BandsFrom(here, s, item, todo[j..])
               == BandsFrom(BandStep(here, s, item, band, asset.value), s, item, todo[j..][1..]);
        stats, disk, requests, bandsDownloaded := DownloadBand(stats, disk, requests, bandsDownloaded, s, item, band, asset.value);
        assert todo[j..][1..] == todo[j + 1..];
        j := j + 1;
      }
    }
    if !missing {
      assert todo[j..] == [];
    }
  }

  /** One band whose asset exists (helpers.py:93-112). */
  method DownloadBand(stats0: Stats, disk0: Disk, requests0: seq<string>, bandsDownloaded0: seq<string>,
                      s: Settings, item: Item, band: string, asset: Asset)
    returns (stats: Stats, disk: Disk, requests: seq<string>, bandsDownloaded: seq<string>)
    ensures Progress(Run(stats, disk, requests), bandsDownloaded)
            == BandStep(Progress(Run(stats0, disk0, requests0), bandsDownloaded0), s, item, band, asset)
  {
    stats, disk, requests, bandsDownloaded := stats0, disk0, requests0, bandsDownloaded0;
    var file := s.base + [item.id, band + ".tif"];
    if file in disk {
      stats := stats.(filesDownloaded := stats.filesDownloaded + 1);
      bandsDownloaded := bandsDownloaded + [band];
    } else {
      var response := s.fetch(asset.href);
      requests := requests + [asset.href];
      match response {
        case Fetched(body) =>
          disk := disk[file := body];
          stats := stats.(filesDownloaded := stats.filesDownloaded + 1);
          bandsDownloaded := bandsDownloaded + [band];
        case WriteFailed(written) =>
          disk := disk[file := written];
          stats := stats.(failed := stats.failed + 1);
        case FetchFailed =>
          stats := stats.(failed := stats.failed + 1);
      }
    }
  }
}
