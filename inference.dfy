/**
 * Post-processing of a crop-type prediction: the CDL colour map and its per-pixel substitution,
 * the no-data mask, the output raster built from the prediction, the masking and clamping of
 * the preview images, and the adaptation of the test pipeline's records.
 */
module Inference {
  import opened Wrappers
  import opened Strings

  /* ---------------------------------------------------------------------------------------- */
  /* The colour map                                                                            */
  /* ---------------------------------------------------------------------------------------- */

  datatype Rgb = Rgb(r: int, g: int, b: int)

  /** Channel `c` of a triple, as `triple[c]` reads it. */
  function Channel(p: Rgb, c: nat): int
    requires c < 3
  {
    if c == 0 then p.r else if c == 1 then p.g else p.b
  }

  /** One entry of a colour map: the class value, its label and the colour it is drawn in. */
  datatype ColorEntry = ColorEntry(value: int, name: string, color: Rgb)

  /** Lines 35-47: the thirteen crop classes of the Cropland Data Layer. */
  const CdlColorMap: seq<ColorEntry> := [
    ColorEntry(1, "Natural vegetation", Rgb(233, 255, 190)),
    ColorEntry(2, "Forest", Rgb(149, 206, 147)),
    ColorEntry(3, "Corn", Rgb(255, 212, 0)),
    ColorEntry(4, "Soybeans", Rgb(38, 115, 0)),
    ColorEntry(5, "Wetlands", Rgb(128, 179, 179)),
    ColorEntry(6, "Developed/Barren", Rgb(156, 156, 156)),
    ColorEntry(7, "Open Water", Rgb(77, 112, 163)),
    ColorEntry(8, "Winter Wheat", Rgb(168, 112, 0)),
    ColorEntry(9, "Alfalfa", Rgb(255, 168, 227)),
    ColorEntry(10, "Fallow/Idle cropland", Rgb(191, 191, 122)),
    ColorEntry(11, "Cotton", Rgb(255, 38, 38)),
    ColorEntry(12, "Sorghum", Rgb(255, 158, 15)),
    ColorEntry(13, "Other", Rgb(0, 175, 77))
  ]

  /** A pixel matches an entry when all three of its channels equal the entry's value. */
  predicate Matches(p: Rgb, e: ColorEntry)
  {
    p.r == e.value && p.g == e.value && p.b == e.value
  }

  /**
   * What the colour map makes of one pixel: the entries are applied in order, each test reading
   * the original pixel, so the last matching entry decides, and a pixel no entry matches keeps
   * its channels.
   */
  function MapPixel(cmap: seq<ColorEntry>, p: Rgb): Rgb
  {
    if |cmap| == 0 then p
    else if Matches(p, cmap[|cmap| - 1]) then cmap[|cmap| - 1].color
    else MapPixel(cmap[..|cmap| - 1], p)
  }

  /** The last entry that matches a pixel gives its colour. */
  lemma {:induction false} MapPixelLastMatch(cmap: seq<ColorEntry>, p: Rgb, i: nat)
    requires i < |cmap| && Matches(p, cmap[i])
    requires forall j :: i < j < |cmap| ==> !Matches(p, cmap[j])
    ensures MapPixel(cmap, p) == cmap[i].color
    decreases |cmap|
  {
    if i < |cmap| - 1 {
      var init := cmap[..|cmap| - 1];
      assert forall j :: i < j < |init| ==> init[j] == cmap[j];
      MapPixelLastMatch(init, p, i);
    }
  }

  /** A pixel no entry matches is left as it is. */
  lemma {:induction false} MapPixelUnmatched(cmap: seq<ColorEntry>, p: Rgb)
    requires forall j :: 0 <= j < |cmap| ==> !Matches(p, cmap[j])
    ensures MapPixel(cmap, p) == p
    decreases |cmap|
  {
    if |cmap| > 0 {
      var init := cmap[..|cmap| - 1];
      assert forall j :: 0 <= j < |init| ==> init[j] == cmap[j];
      MapPixelUnmatched(init, p);
    }
  }

  predicate DistinctValues(cmap: seq<ColorEntry>)
  {
    forall i, j :: 0 <= i < j < |cmap| ==> cmap[i].value != cmap[j].value
  }

  /** With distinct values, a pixel matches at most one entry, and that entry gives its colour. */
  lemma MapPixelMatched(cmap: seq<ColorEntry>, p: Rgb, i: nat)
    requires DistinctValues(cmap)
    requires i < |cmap| && Matches(p, cmap[i])
    ensures forall j :: 0 <= j < |cmap| && j != i ==> !Matches(p, cmap[j])
    ensures MapPixel(cmap, p) == cmap[i].color
  {
    MapPixelLastMatch(cmap, p, i);
  }

  /** With distinct values, the order of the entries does not matter: two maps holding the same entries colour alike. */
  lemma MapPixelOrderIndependent(a: seq<ColorEntry>, b: seq<ColorEntry>, p: Rgb)
    requires DistinctValues(a) && DistinctValues(b)
    requires forall e :: e in a <==> e in b
    ensures MapPixel(a, p) == MapPixel(b, p)
  {
    if i :| 0 <= i < |a| && Matches(p, a[i]) {
      assert a[i] in b;
      var j :| 0 <= j < |b| && b[j] == a[i];
      MapPixelMatched(a, p, i);
      MapPixelMatched(b, p, j);
    } else {
      assert forall j :: 0 <= j < |b| ==> !Matches(p, b[j]) by {
        forall j | 0 <= j < |b|
          ensures !Matches(p, b[j])
        {
          assert b[j] in a;
          var i :| 0 <= i < |a| && a[i] == b[j];
        }
      }
      MapPixelUnmatched(a, p);
      MapPixelUnmatched(b, p);
    }
  }

  /** The CDL classes are the values 1 to 13, in order, so no two entries share a value. */
  lemma CdlValues()
    ensures |CdlColorMap| == 13
    ensures forall i :: 0 <= i < 13 ==> CdlColorMap[i].value == i + 1
    ensures DistinctValues(CdlColorMap)
  {
  }

  /** A grey pixel of class 1 to 13 is drawn in that class's colour; every other pixel keeps its channels. */
  lemma CdlColors(p: Rgb)
    ensures p.r == p.g == p.b && 1 <= p.r <= 13 ==> MapPixel(CdlColorMap, p) == CdlColorMap[p.r - 1].color
    ensures !(p.r == p.g == p.b && 1 <= p.r <= 13) ==> MapPixel(CdlColorMap, p) == p
  {
    CdlValues();
    if p.r == p.g == p.b && 1 <= p.r <= 13 {
      MapPixelMatched(CdlColorMap, p, p.r - 1);
    } else {
      MapPixelUnmatched(CdlColorMap, p);
    }
  }

  /* ---------------------------------------------------------------------------------------- */
  /* apply_color_map                                                                           */
  /* ---------------------------------------------------------------------------------------- */

  /** The pixel at row `y`, column `x` of a channels-first image. */
  function PixelAt(a: array3<int>, y: int, x: int): Rgb
    reads a
    requires a.Length0 >= 3 && 0 <= y < a.Length1 && 0 <= x < a.Length2
  {
    Rgb(a[0, y, x], a[1, y, x], a[2, y, x])
  }

  /**
   * Line 57 for one entry and one channel: where the original pixel matches the entry, channel
   * `c` of the copy takes the entry's colour; everything else stays.
   */
  method ApplyEntry(rgb: array3<int>, mapped: array3<int>, e: ColorEntry, c: nat)
    requires rgb != mapped && rgb.Length0 >= 3 && c < 3
    requires mapped.Length0 == rgb.Length0 && mapped.Length1 == rgb.Length1 && mapped.Length2 == rgb.Length2
    modifies mapped
    ensures forall i, y, x :: 0 <= i < mapped.Length0 && 0 <= y < mapped.Length1 && 0 <= x < mapped.Length2 ==>
              mapped[i, y, x] == if i == c && Matches(PixelAt(rgb, y, x), e) then Channel(e.color, c) else old(mapped[i, y, x])
  {
    var y := 0;
    while y < mapped.Length1
      invariant 0 <= y <= mapped.Length1
      invariant forall i, y', x :: 0 <= i < mapped.Length0 && 0 <= y' < mapped.Length1 && 0 <= x < mapped.Length2 ==>
                  mapped[i, y', x] == if i == c && y' < y && Matches(PixelAt(rgb, y', x), e) then Channel(e.color, c) else old(mapped[i, y', x])
    {
      var x := 0;
      while x < mapped.Length2
        invariant 0 <= x <= mapped.Length2
        invariant forall i, y', x' :: 0 <= i < mapped.Length0 && 0 <= y' < mapped.Length1 && 0 <= x' < mapped.Length2 ==>
                    mapped[i, y', x'] == if i == c && (y' < y || (y' == y && x' < x)) && Matches(PixelAt(rgb, y', x'), e)
                                         then Channel(e.color, c) else old(mapped[i, y', x'])
      {
        if rgb[0, y, x] == e.value && rgb[1, y, x] == e.value && rgb[2, y, x] == e.value {
          mapped[c, y, x] := Channel(e.color, c);
        }
        x := x + 1;
      }
      y := y + 1;
    }
  }

  /**
   * Lines 50-59: copy the image, then for every entry and every channel substitute the entry's
   * colour where the original pixel matches. The input is not changed; channels past the third
   * are copied as they are.
   */
  method ApplyColorMap(rgb: array3<int>, cmap: seq<ColorEntry>) returns (mapped: array3<int>)
    requires rgb.Length0 >= 3
    ensures fresh(mapped)
    ensures mapped.Length0 == rgb.Length0 && mapped.Length1 == rgb.Length1 && mapped.Length2 == rgb.Length2
    ensures forall c, y, x :: 0 <= c < 3 && 0 <= y < mapped.Length1 && 0 <= x < mapped.Length2 ==>
              mapped[c, y, x] == Channel(MapPixel(cmap, PixelAt(rgb, y, x)), c)
    ensures forall c, y, x :: 3 <= c < mapped.Length0 && 0 <= y < mapped.Length1 && 0 <= x < mapped.Length2 ==>
              mapped[c, y, x] == rgb[c, y, x]
  {
    mapped := new int[rgb.Length0, rgb.Length1, rgb.Length2]((c, y, x) reads rgb =>
      if 0 <= c < rgb.Length0 && 0 <= y < rgb.Length1 && 0 <= x < rgb.Length2 then rgb[c, y, x] else 0);
    var k := 0;
    while k < |cmap|
      invariant 0 <= k <= |cmap|
      invariant forall c, y, x :: 0 <= c < 3 && 0 <= y < mapped.Length1 && 0 <= x < mapped.Length2 ==>
                  mapped[c, y, x] == Channel(MapPixel(cmap[..k], PixelAt(rgb, y, x)), c)
      invariant forall c, y, x :: 3 <= c < mapped.Length0 && 0 <= y < mapped.Length1 && 0 <= x < mapped.Length2 ==>
                  mapped[c, y, x] == rgb[c, y, x]
    {
      assert cmap[..k + 1][..k] == cmap[..k];
      var c := 0;
      while c < 3
        invariant 0 <= c <= 3
        invariant forall i, y, x :: 0 <= i < 3 && 0 <= y < mapped.Length1 && 0 <= x < mapped.Length2 ==>
                    mapped[i, y, x] == Channel(MapPixel(if i < c then cmap[..k + 1] else cmap[..k], PixelAt(rgb, y, x)), i)
        invariant forall i, y, x :: 3 <= i < mapped.Length0 && 0 <= y < mapped.Length1 && 0 <= x < mapped.Length2 ==>
                    mapped[i, y, x] == rgb[i, y, x]
      {
        ApplyEntry(rgb, mapped, cmap[k], c);
        c := c + 1;
      }
      k := k + 1;
    }
    assert cmap[..k] == cmap;
  }

  /* ---------------------------------------------------------------------------------------- */
  /* The no-data mask and the output raster                                                    */
  /* ---------------------------------------------------------------------------------------- */

  /** A grid of `h` rows of `w` values. */
  predicate IsGrid(g: seq<seq<int>>, h: nat, w: nat)
  {
    |g| == h && forall y :: 0 <= y < h ==> |g[y]| == w
  }

  /** A stack of bands of one shape, `h` by `w`. */
  predicate IsStack(s: seq<seq<seq<int>>>, h: nat, w: nat)
  {
    forall b :: 0 <= b < |s| ==> IsGrid(s[b], h, w)
  }

  /** `np.max` over the first `k` bands of `np.where(input == nodata, 1, 0)` at one pixel; comparing with a missing no-data value is never true. */
  function BandMax(input: seq<seq<seq<int>>>, nodata: Option<int>, y: nat, x: nat, k: nat): (r: int)
    requires 1 <= k <= |input| && |input[0]| > y && |input[0][y]| > x && IsStack(input, |input[0]|, |input[0][y]|)
    ensures r == 0 || r == 1
    ensures r == 1 <==> exists b :: 0 <= b < k && nodata == Some(input[b][y][x])
  {
    var hit := if nodata == Some(input[k - 1][y][x]) then 1 else 0;
    if k == 1 then hit
    else
      var before := BandMax(input, nodata, y, x, k - 1);
      if before >= hit then before else hit
  }

  /**
   * Lines 180-181: the mask is 1 at a pixel exactly when some band there holds the no-data
   * value, and 0 elsewhere. The model keeps the mask's single band; the raster has at least one band.
   */
  function NoDataMask(input: seq<seq<seq<int>>>, nodata: Option<int>): (mask: seq<seq<int>>)
    requires |input| >= 1 && |input[0]| >= 1 && IsStack(input, |input[0]|, |input[0][0]|)
    ensures IsGrid(mask, |input[0]|, |input[0][0]|)
    ensures forall y, x :: 0 <= y < |mask| && 0 <= x < |mask[y]| ==>
              (mask[y][x] == 1 <==> exists b :: 0 <= b < |input| && nodata == Some(input[b][y][x]))
    ensures forall y, x :: 0 <= y < |mask| && 0 <= x < |mask[y]| ==> mask[y][x] == 0 || mask[y][x] == 1
  {
    var h, w := |input[0]|, |input[0][0]|;
    seq(h, y requires 0 <= y < h => seq(w, x requires 0 <= x < w => BandMax(input, nodata, y, x, |input|)))
  }

  /** No no-data value, no masked pixel. */
  lemma NoDataMissingMasksNothing(input: seq<seq<seq<int>>>)
    requires |input| >= 1 && |input[0]| >= 1 && IsStack(input, |input[0]|, |input[0][0]|)
    ensures forall y, x :: 0 <= y < |input[0]| && 0 <= x < |input[0][0]| ==> NoDataMask(input, None)[y][x] == 0
  {
  }

  /** Line 187: masked predictions become class 0; the others stay. */
  function MaskPrediction(prediction: seq<seq<int>>, mask: seq<seq<int>>): (r: seq<seq<int>>)
    requires |prediction| >= 1 && IsGrid(prediction, |prediction|, |prediction[0]|)
    requires IsGrid(mask, |prediction|, |prediction[0]|)
    ensures IsGrid(r, |prediction|, |prediction[0]|)
    ensures forall y, x :: 0 <= y < |r| && 0 <= x < |r[y]| ==> r[y][x] == (if mask[y][x] == 1 then 0 else prediction[y][x])
  {
    var h, w := |prediction|, |prediction[0]|;
    seq(h, y requires 0 <= y < h => seq(w, x requires 0 <= x < w => if mask[y][x] == 1 then 0 else prediction[y][x]))
  }

  /** `astype(np.uint8)`: the value modulo 256. */
  function Uint8(v: int): (r: int)
    ensures 0 <= r < 256
    ensures 0 <= v < 256 ==> r == v
    ensures (v - r) % 256 == 0
  {
    v % 256
  }

  /**
   * Lines 193-194: add 1 to every class and stack three copies as bytes, one per channel.
   */
  function StackedOutput(classes: seq<seq<int>>): (r: seq<seq<seq<int>>>)
    requires |classes| >= 1 && IsGrid(classes, |classes|, |classes[0]|)
    ensures |r| == 3 && IsStack(r, |classes|, |classes[0]|)
    ensures forall y, x :: 0 <= y < |classes| && 0 <= x < |classes[0]| ==>
              r[0][y][x] == r[1][y][x] == r[2][y][x] && r[0][y][x] == Uint8(classes[y][x] + 1)
  {
    var h, w := |classes|, |classes[0]|;
    var band := seq(h, y requires 0 <= y < h => seq(w, x requires 0 <= x < w => Uint8(classes[y][x] + 1)));
    [band, band, band]
  }

  /** A masked pixel comes out as class 1 in all three channels; an unmasked one as its byte-sized class plus one. */
  lemma MaskedPixelIsClassOne(prediction: seq<seq<int>>, mask: seq<seq<int>>, y: nat, x: nat)
    requires |prediction| >= 1 && IsGrid(prediction, |prediction|, |prediction[0]|)
    requires IsGrid(mask, |prediction|, |prediction[0]|)
    requires y < |prediction| && x < |prediction[0]|
    ensures var out := StackedOutput(MaskPrediction(prediction, mask));
            forall c :: 0 <= c < 3 ==>
              out[c][y][x] == if mask[y][x] == 1 then 1 else Uint8(prediction[y][x] + 1)
  {
    var masked := MaskPrediction(prediction, mask);
    var out := StackedOutput(masked);
    assert out[0][y][x] == out[1][y][x] == out[2][y][x] == Uint8(masked[y][x] + 1);
  }

  /**
   * Lines 193-195: the output raster, channels last. Pixel (y, x) is the colour the CDL map gives
   * the grey pixel of its class plus one.
   */
  method OutputRaster(prediction: seq<seq<int>>, mask: seq<seq<int>>) returns (out: array3<int>)
    requires |prediction| >= 1 && IsGrid(prediction, |prediction|, |prediction[0]|)
    requires IsGrid(mask, |prediction|, |prediction[0]|)
    ensures fresh(out)
    ensures out.Length0 == |prediction| && out.Length1 == |prediction[0]| && out.Length2 == 3
    ensures forall y, x, c :: 0 <= y < out.Length0 && 0 <= x < out.Length1 && 0 <= c < 3 ==>
              var v := if mask[y][x] == 1 then 1 else Uint8(prediction[y][x] + 1);
              out[y, x, c] == Channel(MapPixel(CdlColorMap, Rgb(v, v, v)), c)
  {
    var h, w := |prediction|, |prediction[0]|;
    var stacked := StackedOutput(MaskPrediction(prediction, mask));
    var channels := new int[3, h, w]((c, y, x) => if 0 <= c < 3 && 0 <= y < h && 0 <= x < w then stacked[c][y][x] else 0);
    var mapped := ApplyColorMap(channels, CdlColorMap);
    out := new int[h, w, 3]((y, x, c) reads mapped =>
      if 0 <= y < h && 0 <= x < w && 0 <= c < 3 then mapped[c, y, x] else 0);
    forall y, x | 0 <= y < h && 0 <= x < w
      ensures var v := if mask[y][x] == 1 then 1 else Uint8(prediction[y][x] + 1);
              PixelAt(channels, y, x) == Rgb(v, v, v)
    {
      MaskedPixelIsClassOne(prediction, mask, y, x);
    }
  }

  /** A no-data pixel is drawn in the colour of class 1, "Natural vegetation". */
  lemma MaskedPixelDrawnAsNaturalVegetation()
    ensures MapPixel(CdlColorMap, Rgb(1, 1, 1)) == Rgb(233, 255, 190)
    ensures CdlColorMap[0].name == "Natural vegetation"
  {
    CdlColors(Rgb(1, 1, 1));
  }

  /* ---------------------------------------------------------------------------------------- */
  /* process_rgb                                                                               */
  /* ---------------------------------------------------------------------------------------- */

  /**
   * Lines 162-164 on the stretched image, channels last: masked pixels become 0, then values
   * below 0 are raised to 0 and values above 255 lowered to 255.
   */
  function MaskAndClamp(rgb: seq<seq<seq<int>>>, mask: seq<seq<int>>): (r: seq<seq<seq<int>>>)
    requires |rgb| >= 1 && |rgb[0]| >= 1 && IsStack(rgb, |rgb[0]|, |rgb[0][0]|)
    requires IsGrid(mask, |rgb|, |rgb[0]|)
    ensures |r| == |rgb| && IsStack(r, |rgb[0]|, |rgb[0][0]|)
    ensures forall y, x, c :: 0 <= y < |r| && 0 <= x < |r[y]| && 0 <= c < |r[y][x]| ==>
              && 0 <= r[y][x][c] <= 255
              && (mask[y][x] == 1 ==> r[y][x][c] == 0)
              && (mask[y][x] != 1 && 0 <= rgb[y][x][c] <= 255 ==> r[y][x][c] == rgb[y][x][c])
              && (mask[y][x] != 1 && rgb[y][x][c] < 0 ==> r[y][x][c] == 0)
              && (mask[y][x] != 1 && rgb[y][x][c] > 255 ==> r[y][x][c] == 255)
  {
    var h, w, d := |rgb|, |rgb[0]|, |rgb[0][0]|;
    seq(h, y requires 0 <= y < h => seq(w, x requires 0 <= x < w => seq(d, c requires 0 <= c < d =>
      var v := if mask[y][x] == 1 then 0 else rgb[y][x][c];
      var v1 := if v < 0 then 0 else v;
      if v1 > 255 then 255 else v1)))
  }

  /* ---------------------------------------------------------------------------------------- */
  /* process_test_pipeline                                                                     */
  /* ---------------------------------------------------------------------------------------- */

  /** A value held by a pipeline record: a list of numbers, a list of names, or anything else. */
  datatype Value = Numbers(numbers: seq<int>) | Names(names: seq<string>) | Other

  /** One record of the test pipeline: its `type`, and its other keys. */
  class Stage {
    const kind: string
    var options: map<string, Value>

    constructor(kind: string, options: map<string, Value>)
      ensures this.kind == kind && this.options == options
    {
      this.kind := kind;
      this.options := options;
    }
  }

  /** The two records the adaptation looks for. */
  datatype Target = BandsExtract | Collect

  predicate Selects(t: Target, kind: string)
  {
    match t
    case BandsExtract => kind == "BandsExtract"
    case Collect => Contains(kind, "Collect")
  }

  function Kinds(pipeline: seq<Stage>): (r: seq<string>)
    ensures |r| == |pipeline| && forall i :: 0 <= i < |pipeline| ==> r[i] == pipeline[i].kind
  {
    seq(|pipeline|, i requires 0 <= i < |pipeline| => pipeline[i].kind)
  }

  /** Where the first record of the target's kind sits, if any. */
  function FirstOf(t: Target, kinds: seq<string>): (r: Option<nat>)
    ensures r.Some? ==> r.value < |kinds| && Selects(t, kinds[r.value])
    ensures r.Some? ==> forall j :: 0 <= j < r.value ==> !Selects(t, kinds[j])
    ensures r.None? <==> forall j :: 0 <= j < |kinds| ==> !Selects(t, kinds[j])
  {
    if |kinds| == 0 then None
    else if Selects(t, kinds[0]) then Some(0)
    else match FirstOf(t, kinds[1..])
      case None => None
      case Some(i) => Some(i + 1)
  }

  /** The keys the collecting record is told to keep. */
  const MetaKeys: seq<string> := ["img_info", "filename", "ori_filename", "img", "img_shape", "ori_shape", "pad_shape", "scale_factor", "img_norm_cfg"]

  /** The comprehensions of lines 204 and 210, stopped at their first element. */
  method FindFirst(pipeline: seq<Stage>, t: Target) returns (r: Option<nat>)
    ensures r == FirstOf(t, Kinds(pipeline))
  {
    var k := 0;
    while k < |pipeline|
      invariant k <= |pipeline|
      invariant forall j :: 0 <= j < k ==> !Selects(t, pipeline[j].kind)
    {
      if Selects(t, pipeline[k].kind) {
        return Some(k);
      }
      k := k + 1;
    }
    return None;
  }

  /**
   * Lines 202-218: given parsed bands, the first `BandsExtract` record gets them; the first
   * record whose type contains `Collect` gets the nine meta keys. Every other record, and every
   * other key, is unchanged, and the same list comes back.
   */
  method ProcessTestPipeline(pipeline: seq<Stage>, bands: Option<seq<int>>) returns (r: seq<Stage>)
    modifies set i | 0 <= i < |pipeline| :: pipeline[i]
    ensures r == pipeline
    ensures var bi, ci := FirstOf(BandsExtract, Kinds(pipeline)), FirstOf(Collect, Kinds(pipeline));
            forall s :: s in pipeline ==>
              s.options == (
                var o := old(s.options);
                var o1 := if bands.Some? && bi.Some? && s == pipeline[bi.value] then o["bands" := Numbers(bands.value)] else o;
                if ci.Some? && s == pipeline[ci.value] then o1["meta_keys" := Names(MetaKeys)] else o1)
  {
    if bands.Some? {
      var bi := FindFirst(pipeline, BandsExtract);
      if bi.Some? {
        var s := pipeline[bi.value];
        s.options := s.options["bands" := Numbers(bands.value)];
      }
    }
    var ci := FindFirst(pipeline, Collect);
    if ci.Some? {
      var s := pipeline[ci.value];
      s.options := s.options["meta_keys" := Names(MetaKeys)];
    }
    r := pipeline;
  }

  /** No record is both a `BandsExtract` and a collecting record, so the two updates never meet. */
  lemma TargetsDiffer(kinds: seq<string>)
    ensures var bi, ci := FirstOf(BandsExtract, kinds), FirstOf(Collect, kinds);
            bi.Some? && ci.Some? ==> bi.value != ci.value
  {
    var bi := FirstOf(BandsExtract, kinds);
    if bi.Some? {
      var k := kinds[bi.value];
      assert k == "BandsExtract";
      assert !Contains(k, "Collect") by {
        NotContainsCollect();
      }
    }
  }

  lemma NotContainsCollect()
    ensures !Contains("BandsExtract", "Collect")
  {
    var s := "BandsExtract";
    assert 'C' !in s;
    if Contains(s, "Collect") {
      ContainsFirst(s, "Collect");
    }
  }
}
