/**
 * `merge_adjacent_tiles` up to the merge itself: the frame of date keys and paths filled from
 * the processed files, and the selection of the tiles whose date repeats.
 */
module TileFrame {
  import opened Wrappers
  import opened Strings
  import opened Paths
  import opened OrdinalDates
  import opened TileNames

  /* ---------------------------------------------------------------------------------------- */
  /* Filling the frame of dates and paths                                                      */
  /* ---------------------------------------------------------------------------------------- */

  function StemOf(p: Path): string
  {
    Stem(Name(p))
  }

  /** The stems of the inputs: the labels of the frame's rows, `[idir.stem for idir in processed_tifs]`. */
  function Stems(inputs: seq<Path>): (r: seq<string>)
    ensures |r| == |inputs|
  {
    seq(|inputs|, i requires 0 <= i < |inputs| => StemOf(inputs[i]))
  }

  /** The date key of every input, read or failed. */
  function Keys(inputs: seq<Path>): (r: seq<Result<Stamp, TileError>>)
    ensures |r| == |inputs|
  {
    if |inputs| == 0 then [] else Keys(inputs[..|inputs| - 1]) + [DateKey(StemOf(inputs[|inputs| - 1]))]
  }

  lemma {:induction false} KeysAt(inputs: seq<Path>, i: nat)
    requires i < |inputs|
    ensures Keys(inputs)[i] == DateKey(StemOf(inputs[i]))
    decreases |inputs|
  {
    if i < |inputs| - 1 {
      KeysAt(inputs[..|inputs| - 1], i);
    }
  }

  /** A row of the frame while it is filled: its stem and, once assigned, its date and path. */
  datatype Row = Row(stem: string, date: Option<Stamp>, path: Option<Path>)

  /** A row of the filled frame. */
  datatype Tile = Tile(stem: string, date: Stamp, path: Path)

  /** The first key that could not be read, as the error it raises. */
  function FirstError(keys: seq<Result<Stamp, TileError>>): Option<TileError>
  {
    if |keys| == 0 then None
    else if keys[0].Err? then Some(keys[0].error)
    else FirstError(keys[1..])
  }

  /** There is no error exactly when every key reads. */
  lemma {:induction false} FirstErrorNone(keys: seq<Result<Stamp, TileError>>)
    ensures FirstError(keys).None? <==> forall i :: 0 <= i < |keys| ==> keys[i].Ok?
    decreases |keys|
  {
    if |keys| > 0 {
      FirstErrorNone(keys[1..]);
      assert forall i :: 1 <= i < |keys| ==> keys[i] == keys[1..][i - 1];
    }
  }

  /** The error reported is that of the first key that fails. */
  lemma {:induction false} FirstErrorAt(keys: seq<Result<Stamp, TileError>>, k: nat)
    requires k < |keys| && keys[k].Err?
    requires forall i :: 0 <= i < k ==> keys[i].Ok?
    ensures FirstError(keys) == Some(keys[k].error)
    decreases k
  {
    if k > 0 {
      var rest := keys[1..];
      assert forall i :: 0 <= i < k - 1 ==> rest[i] == keys[i + 1];
      FirstErrorAt(rest, k - 1);
    }
  }

  /** The first error of two runs of keys is that of the first run, or else that of the second. */
  lemma {:induction false} FirstErrorAppend(a: seq<Result<Stamp, TileError>>, b: seq<Result<Stamp, TileError>>)
    ensures FirstError(a + b) == if FirstError(a).Some? then FirstError(a) else FirstError(b)
    decreases |a|
  {
    if |a| > 0 {
      assert (a + b)[1..] == a[1..] + b;
      FirstErrorAppend(a[1..], b);
    } else {
      assert a + b == b;
    }
  }

  lemma TakeDrop<T>(s: seq<T>, k: nat)
    requires k <= |s|
    ensures s[..k] + s[k..] == s
    ensures k < |s| ==> s[..k] + [s[k]] == s[..k + 1]
    ensures k == |s| ==> s[..k] == s
  {
  }

  /** Where the stem `stem` last occurs. */
  function LastIndexOf(stems: seq<string>, stem: string): Option<nat>
  {
    if |stems| == 0 then None
    else if stems[|stems| - 1] == stem then Some(|stems| - 1)
    else LastIndexOf(stems[..|stems| - 1], stem)
  }

  /** The place found holds the stem, no later place does, and there is one whenever some place holds it. */
  lemma {:induction false} LastIndexOfFacts(stems: seq<string>, stem: string)
    ensures LastIndexOf(stems, stem).Some? ==>
              && LastIndexOf(stems, stem).value < |stems| && stems[LastIndexOf(stems, stem).value] == stem
              && forall j :: LastIndexOf(stems, stem).value < j < |stems| ==> stems[j] != stem
    ensures forall j :: 0 <= j < |stems| && stems[j] == stem ==> LastIndexOf(stems, stem).Some?
    decreases |stems|
  {
    if |stems| > 0 {
      var init := stems[..|stems| - 1];
      LastIndexOfFacts(init, stem);
      assert forall j :: 0 <= j < |init| ==> init[j] == stems[j];
    }
  }

  lemma LastIndexOfStep(stems: seq<string>, k: nat, stem: string)
    requires k < |stems|
    ensures LastIndexOf(stems[..k + 1], stem) == if stems[k] == stem then Some(k) else LastIndexOf(stems[..k], stem)
  {
    assert stems[..k + 1][..k] == stems[..k];
  }

  /**
   * The frame the loop leaves: one row per input, labelled with its stem, holding the date key
   * of that stem and the last input with that stem (rows share a label when stems repeat, and
   * `df.loc` assigns all of them); or the error of the first date key that cannot be read.
   */
  function FrameOf(inputs: seq<Path>): (r: Result<seq<Tile>, TileError>)
    ensures r.Ok? ==> |r.value| == |inputs|
  {
    FrameFrom(inputs, Stems(inputs), Keys(inputs))
  }

  /** The frame built from given stems and keys of the inputs. */
  function FrameFrom(inputs: seq<Path>, stems: seq<string>, keys: seq<Result<Stamp, TileError>>): (r: Result<seq<Tile>, TileError>)
    requires |stems| == |keys| == |inputs|
    ensures r.Ok? ==> |r.value| == |inputs|
  {
    match FirstError(keys)
    case Some(e) => Err(e)
    case None =>
      FirstErrorNone(keys);
      Ok(seq(|inputs|, i requires 0 <= i < |inputs| =>
        LastIndexOfFacts(stems, stems[i]);
        Tile(stems[i], keys[i].value, inputs[LastIndexOf(stems, stems[i]).value])))
  }

  /** The rows once the first `k` inputs have been assigned. */
  function RowsAfter(inputs: seq<Path>, stems: seq<string>, keys: seq<Result<Stamp, TileError>>, k: nat): seq<Row>
    requires |stems| == |keys| == |inputs| && k <= |inputs|
  {
    seq(|inputs|, i requires 0 <= i < |inputs| =>
      var last := LastIndexOf(stems[..k], stems[i]);
      LastIndexOfFacts(stems[..k], stems[i]);
      Row(stems[i],
          if last.Some? && keys[i].Ok? then Some(keys[i].value) else None,
          if last.Some? then Some(inputs[last.value]) else None))
  }

  /**
   * Lines 82-89: start from a frame with an empty row per stem, then for every input in turn
   * read its date key (raising at the first that fails) and assign date and path to every row
   * carrying its stem.
   */
  method FillFrame(inputs: seq<Path>) returns (r: Result<seq<Tile>, TileError>)
    ensures r == FrameOf(inputs)
  {
    ghost var stems, keys := Stems(inputs), Keys(inputs);
    var rows := seq(|inputs|, i requires 0 <= i < |inputs| => Row(StemOf(inputs[i]), None, None));
    assert rows == RowsAfter(inputs, stems, keys, 0);
    var k := 0;
    while k < |inputs|
      invariant k <= |inputs|
      invariant FirstError(keys[..k]).None?
      invariant rows == RowsAfter(inputs, stems, keys, k)
    {
      var stem := StemOf(inputs[k]);
      var parsed := DateKey(stem);
      FillStep(inputs, k);
      if parsed.Err? {
        return Err(parsed.error);
      }
      rows := Assign(rows, stem, parsed.value, inputs[k]);
      k := k + 1;
    }
    TakeDrop(keys, k);
    RowsComplete(inputs, stems, keys);
    r := Ok(ToTiles(rows));
  }

  /**
   * One turn of the loop of `FillFrame`: a key that fails is the first error of the frame, and a
   * key that reads moves the rows from `k` inputs assigned to `k + 1`.
   */
  lemma FillStep(inputs: seq<Path>, k: nat)
    requires k < |inputs| && FirstError(Keys(inputs)[..k]).None?
    ensures var stems, keys := Stems(inputs), Keys(inputs);
            && keys[k] == DateKey(StemOf(inputs[k])) && stems[k] == StemOf(inputs[k])
            && (keys[k].Err? ==> FrameOf(inputs) == Err(keys[k].error))
            && (keys[k].Ok? ==>
                  && FirstError(keys[..k + 1]).None?
                  && Assign(RowsAfter(inputs, stems, keys, k), stems[k], keys[k].value, inputs[k]) == RowsAfter(inputs, stems, keys, k + 1))
  {
    var stems, keys := Stems(inputs), Keys(inputs);
    KeysAt(inputs, k);
    TakeDrop(keys, k);
    if keys[k].Err? {
      FirstErrorAppend(keys[..k], keys[k..]);
    } else {
      FirstErrorAppend(keys[..k], [keys[k]]);
      StemsKeyed(inputs);
      AssignStep(inputs, stems, keys, k);
    }
  }

  /** `df.loc[stem, ["date", "path"]] = date, path`: every row labelled `stem` takes the date and the path. */
  function Assign(rows: seq<Row>, stem: string, date: Stamp, path: Path): (r: seq<Row>)
  {
    seq(|rows|, i requires 0 <= i < |rows| => if rows[i].stem == stem then Row(stem, Some(date), Some(path)) else rows[i])
  }

  /** Inputs with the same stem have the same date key. */
  predicate KeyedByStem(stems: seq<string>, keys: seq<Result<Stamp, TileError>>)
    requires |stems| == |keys|
  {
    forall i, j :: 0 <= i < |stems| && 0 <= j < |stems| && stems[i] == stems[j] ==> keys[i] == keys[j]
  }

  lemma StemsKeyed(inputs: seq<Path>)
    ensures KeyedByStem(Stems(inputs), Keys(inputs))
  {
    forall i, j | 0 <= i < |inputs| && 0 <= j < |inputs|
      ensures Keys(inputs)[i] == DateKey(StemOf(inputs[i])) && Keys(inputs)[j] == DateKey(StemOf(inputs[j]))
    {
      KeysAt(inputs, i);
      KeysAt(inputs, j);
    }
  }

  /** Assigning the `k`-th input moves the rows from `k` inputs assigned to `k + 1`. */
  lemma AssignStep(inputs: seq<Path>, stems: seq<string>, keys: seq<Result<Stamp, TileError>>, k: nat)
    requires |stems| == |keys| == |inputs| && KeyedByStem(stems, keys)
    requires k < |inputs| && keys[k].Ok?
    ensures Assign(RowsAfter(inputs, stems, keys, k), stems[k], keys[k].value, inputs[k]) == RowsAfter(inputs, stems, keys, k + 1)
  {
    var before, after := RowsAfter(inputs, stems, keys, k), RowsAfter(inputs, stems, keys, k + 1);
    forall i | 0 <= i < |inputs|
      ensures Assign(before, stems[k], keys[k].value, inputs[k])[i] == after[i]
    {
      LastIndexOfStep(stems, k, stems[i]);
    }
  }

  /** The frame of rows that all hold a date and a path. */
  function ToTiles(rows: seq<Row>): seq<Tile>
    requires forall i :: 0 <= i < |rows| ==> rows[i].date.Some? && rows[i].path.Some?
  {
    seq(|rows|, i requires 0 <= i < |rows| => Tile(rows[i].stem, rows[i].date.value, rows[i].path.value))
  }

  /** Once every input has been assigned, every row holds a date and a path, and the rows are the frame. */
  lemma RowsComplete(inputs: seq<Path>, stems: seq<string>, keys: seq<Result<Stamp, TileError>>)
    requires |stems| == |keys| == |inputs|
    requires FirstError(keys).None?
    ensures forall i :: 0 <= i < |inputs| ==>
              RowsAfter(inputs, stems, keys, |inputs|)[i].date.Some? && RowsAfter(inputs, stems, keys, |inputs|)[i].path.Some?
    ensures FrameFrom(inputs, stems, keys) == Ok(ToTiles(RowsAfter(inputs, stems, keys, |inputs|)))
  {
    FirstErrorNone(keys);
    var rows := RowsAfter(inputs, stems, keys, |inputs|);
    assert stems[..|inputs|] == stems;
    forall i | 0 <= i < |inputs|
      ensures LastIndexOf(stems, stems[i]).Some?
    {
      LastIndexOfFacts(stems, stems[i]);
    }
    var tiles := ToTiles(rows);
    var frame := FrameFrom(inputs, stems, keys).value;
    forall i | 0 <= i < |inputs|
      ensures tiles[i] == frame[i]
    {
      LastIndexOfFacts(stems, stems[i]);
      assert rows[i] == Row(stems[i], Some(keys[i].value), Some(inputs[LastIndexOf(stems, stems[i]).value]));
    }
    assert tiles == frame;
  }

  /** Every day in the frame is a valid date pandas can hold. */
  lemma FrameDatesValid(inputs: seq<Path>)
    requires FrameOf(inputs).Ok?
    ensures DatesValid(FrameOf(inputs).value)
  {
    var keys := Keys(inputs);
    FirstErrorNone(keys);
    forall i | 0 <= i < |inputs|
      ensures keys[i].value.Day? ==> ValidDate(keys[i].value.date) && InTimestampRange(keys[i].value.date)
    {
      KeysAt(inputs, i);
      DateKeyFacts(StemOf(inputs[i]));
    }
  }

  /**
   * Row by row in terms of the inputs: the frame is there exactly when every date key reads,
   * and row `i` is labelled with the stem of input `i`, holds that stem's date key and the last
   * input carrying that stem.
   */
  lemma FrameOfRows(inputs: seq<Path>)
    ensures FrameOf(inputs).Ok? <==> forall i :: 0 <= i < |inputs| ==> DateKey(StemOf(inputs[i])).Ok?
    ensures FrameOf(inputs).Ok? ==>
              forall i :: 0 <= i < |inputs| ==>
                && FrameOf(inputs).value[i].stem == StemOf(inputs[i])
                && FrameOf(inputs).value[i].date == DateKey(StemOf(inputs[i])).value
                && LastIndexOf(Stems(inputs), StemOf(inputs[i])).Some?
                && LastIndexOf(Stems(inputs), StemOf(inputs[i])).value < |inputs|
                && FrameOf(inputs).value[i].path == inputs[LastIndexOf(Stems(inputs), StemOf(inputs[i])).value]
  {
    var keys := Keys(inputs);
    FirstErrorNone(keys);
    forall i | 0 <= i < |inputs|
      ensures keys[i] == DateKey(StemOf(inputs[i]))
      ensures LastIndexOf(Stems(inputs), StemOf(inputs[i])).Some? && LastIndexOf(Stems(inputs), StemOf(inputs[i])).value < |inputs|
    {
      KeysAt(inputs, i);
      LastIndexOfFacts(Stems(inputs), Stems(inputs)[i]);
    }
  }

  /** When no two inputs share a stem, each row holds its own input. */
  lemma FrameOfDistinctStems(inputs: seq<Path>, i: nat)
    requires FrameOf(inputs).Ok? && i < |inputs|
    requires forall a, b :: 0 <= a < b < |inputs| ==> StemOf(inputs[a]) != StemOf(inputs[b])
    ensures FrameOf(inputs).value[i].stem == StemOf(inputs[i]) && FrameOf(inputs).value[i].path == inputs[i]
  {
    var stems := Stems(inputs);
    LastIndexOfFacts(stems, stems[i]);
    var j := LastIndexOf(stems, stems[i]).value;
    assert stems[j] == StemOf(inputs[j]) && stems[i] == StemOf(inputs[i]);
    assert j == i;
  }

  /** An error reported is the error of one of the keys. */
  lemma {:induction false} FirstErrorIsOneOf(keys: seq<Result<Stamp, TileError>>)
    ensures FirstError(keys).Some? ==> exists m :: 0 <= m < |keys| && keys[m] == Err(FirstError(keys).value)
    decreases |keys|
  {
    if |keys| > 0 && keys[0].Ok? {
      var rest := keys[1..];
      FirstErrorIsOneOf(rest);
      if FirstError(rest).Some? {
        var m :| 0 <= m < |rest| && rest[m] == Err(FirstError(rest).value);
        assert keys[m + 1] == rest[m];
      }
    }
  }

  /** Reading date keys never reports that no date repeats, nor that a date cannot be formatted. */
  lemma FirstErrorIsKeyError(inputs: seq<Path>)
    ensures FirstError(Keys(inputs)) != Some(NoRepeatedDate) && FirstError(Keys(inputs)) != Some(NoDateToFormat)
  {
    var keys := Keys(inputs);
    FirstErrorIsOneOf(keys);
    if FirstError(keys).Some? {
      var m :| 0 <= m < |keys| && keys[m] == Err(FirstError(keys).value);
      KeysAt(inputs, m);
      DateKeyFacts(StemOf(inputs[m]));
    }
  }

  /* ---------------------------------------------------------------------------------------- */
  /* Selecting the tiles whose date repeats                                                    */
  /* ---------------------------------------------------------------------------------------- */

  /** `duplicated(keep=False)` at row `i`: some other row has the same date. */
  predicate IsRepeated(dates: seq<Stamp>, i: nat)
    requires i < |dates|
  {
    exists j :: 0 <= j < |dates| && j != i && dates[j] == dates[i]
  }

  /** The rows from `k` on whose date repeats, in row order. */
  function RepeatedFrom(dates: seq<Stamp>, k: nat): seq<nat>
    requires k <= |dates|
    decreases |dates| - k
  {
    if k == |dates| then []
    else (if IsRepeated(dates, k) then [k] else []) + RepeatedFrom(dates, k + 1)
  }

  lemma {:induction false} RepeatedFromBound(dates: seq<Stamp>, k: nat)
    requires k <= |dates|
    ensures forall i :: 0 <= i < |RepeatedFrom(dates, k)| ==> k <= RepeatedFrom(dates, k)[i] < |dates|
    decreases |dates| - k
  {
    if k < |dates| {
      RepeatedFromBound(dates, k + 1);
    }
  }

  /** The selection holds exactly the rows from `k` on whose date repeats, each once and in increasing order. */
  lemma {:induction false} RepeatedFromExact(dates: seq<Stamp>, k: nat)
    requires k <= |dates|
    ensures forall i :: i in RepeatedFrom(dates, k) <==> k <= i < |dates| && IsRepeated(dates, i)
    ensures forall a, b :: 0 <= a < b < |RepeatedFrom(dates, k)| ==> RepeatedFrom(dates, k)[a] < RepeatedFrom(dates, k)[b]
    decreases |dates| - k
  {
    if k < |dates| {
      RepeatedFromExact(dates, k + 1);
      RepeatedFromBound(dates, k + 1);
    }
  }

  /** The first row selected from `k` on is the first from `k` on whose date repeats. */
  lemma {:induction false} RepeatedFromFirst(dates: seq<Stamp>, k: nat)
    requires k <= |dates|
    ensures |RepeatedFrom(dates, k)| > 0 ==>
              && RepeatedFrom(dates, k)[0] < |dates|
              && (forall j :: k <= j < RepeatedFrom(dates, k)[0] ==> !IsRepeated(dates, j))
              && (forall x :: x in RepeatedFrom(dates, k) ==> RepeatedFrom(dates, k)[0] <= x)
    decreases |dates| - k
  {
    if k < |dates| {
      RepeatedFromFirst(dates, k + 1);
      RepeatedFromBound(dates, k + 1);
    }
  }

  function DatesOf(tiles: seq<Tile>): (r: seq<Stamp>)
    ensures |r| == |tiles| && forall i :: 0 <= i < |tiles| ==> r[i] == tiles[i].date
  {
    seq(|tiles|, i requires 0 <= i < |tiles| => tiles[i].date)
  }

  /** What `merge_adjacent_tiles` would merge: the files, the date they share, and the file it writes. */
  datatype MergePlan = MergePlan(sources: seq<Path>, date: Date, target: Path)

  /** The files of the selected rows, in row order. */
  function PathsAt(tiles: seq<Tile>, picked: seq<nat>): (r: seq<Path>)
    requires forall i :: 0 <= i < |picked| ==> picked[i] < |tiles|
    ensures |r| == |picked| && forall i :: 0 <= i < |picked| ==> r[i] == tiles[picked[i]].path
  {
    seq(|picked|, i requires 0 <= i < |picked| => tiles[picked[i]].path)
  }

  /** Every day of the frame is one the merged name can be formatted from. */
  predicate DatesValid(tiles: seq<Tile>)
  {
    forall i :: 0 <= i < |tiles| && tiles[i].date.Day? ==> ValidDate(tiles[i].date.date) && InTimestampRange(tiles[i].date.date)
  }

  /**
   * Lines 90-111 on a filled frame: take every tile whose date occurs at least twice (all
   * repeated dates together, `NaT` repeating like any other), fail when there is none, and name
   * the output after the first of them and its date; `strftime` raises when that date is `NaT`.
   */
  function PlanFrom(tiles: seq<Tile>, output: Path): (r: Result<MergePlan, TileError>)
    requires DatesValid(tiles)
  {
    var picked := RepeatedFrom(DatesOf(tiles), 0);
    RepeatedFromBound(DatesOf(tiles), 0);
    if |picked| == 0 then Err(NoRepeatedDate)
    else
      var first := tiles[picked[0]];
      if first.date.NaT? then Err(NoDateToFormat)
      else Ok(MergePlan(PathsAt(tiles, picked), first.date.date, output + [MergedName(Name(first.path), first.date.date)]))
  }

  /** Lines 82-111: fail on the first unreadable date key, then select and name on the frame. */
  function PlanMerge(inputs: seq<Path>, output: Path): (r: Result<MergePlan, TileError>)
  {
    match FrameOf(inputs)
    case Err(e) => Err(e)
    case Ok(tiles) =>
      FrameDatesValid(inputs);
      PlanFrom(tiles, output)
  }

  /** On any frame, the plan takes exactly the repeated dates, in order, at least two of them, under the first one's date. */
  lemma PlanFromSelects(tiles: seq<Tile>, output: Path)
    requires DatesValid(tiles) && PlanFrom(tiles, output).Ok?
    ensures var plan := PlanFrom(tiles, output).value;
            var picked := RepeatedFrom(DatesOf(tiles), 0);
            && (forall i :: i in picked <==> 0 <= i < |tiles| && IsRepeated(DatesOf(tiles), i))
            && (forall a, b :: 0 <= a < b < |picked| ==> picked[a] < picked[b])
            && |plan.sources| == |picked| >= 2
            && (forall i :: 0 <= i < |picked| ==> picked[i] < |tiles| && plan.sources[i] == tiles[picked[i]].path)
            && Day(plan.date) == tiles[picked[0]].date
  {
    var dates := DatesOf(tiles);
    var picked := RepeatedFrom(dates, 0);
    RepeatedFromExact(dates, 0);
    RepeatedFromBound(dates, 0);
    var i0 := picked[0];
    assert IsRepeated(dates, i0);
    var j :| 0 <= j < |dates| && j != i0 && dates[j] == dates[i0];
    assert IsRepeated(dates, j);
    assert j in picked;
  }

  /**
   * The plan merges exactly the tiles whose date repeats, in input order, under the date of the
   * first of them; there are always at least two.
   */
  lemma PlanMergeSelects(inputs: seq<Path>, output: Path)
    requires PlanMerge(inputs, output).Ok?
    ensures FrameOf(inputs).Ok?
    ensures var tiles := FrameOf(inputs).value;
            var plan := PlanMerge(inputs, output).value;
            var picked := RepeatedFrom(DatesOf(tiles), 0);
            && (forall i :: i in picked <==> 0 <= i < |tiles| && IsRepeated(DatesOf(tiles), i))
            && (forall a, b :: 0 <= a < b < |picked| ==> picked[a] < picked[b])
            && |plan.sources| == |picked| >= 2
            && (forall i :: 0 <= i < |picked| ==> picked[i] < |tiles| && plan.sources[i] == tiles[picked[i]].path)
            && Day(plan.date) == tiles[picked[0]].date
  {
    FrameDatesValid(inputs);
    PlanFromSelects(FrameOf(inputs).value, output);
  }

  /** The first row whose date repeats is `NaT`. */
  predicate FirstRepeatIsNat(dates: seq<Stamp>)
  {
    exists i :: 0 <= i < |dates| && IsRepeated(dates, i) && dates[i] == NaT && forall j :: 0 <= j < i ==> !IsRepeated(dates, j)
  }

  /**
   * On any frame, the selection is empty exactly when no date repeats; the name cannot be
   * formatted exactly when the first repeated date is `NaT`; and there is no other failure.
   */
  lemma PlanFromEmpty(tiles: seq<Tile>, output: Path)
    requires DatesValid(tiles)
    ensures PlanFrom(tiles, output) == Err(NoRepeatedDate) <==> forall i :: 0 <= i < |tiles| ==> !IsRepeated(DatesOf(tiles), i)
    ensures PlanFrom(tiles, output) == Err(NoDateToFormat) <==> FirstRepeatIsNat(DatesOf(tiles))
    ensures PlanFrom(tiles, output).Err? ==> PlanFrom(tiles, output) in {Err(NoRepeatedDate), Err(NoDateToFormat)}
  {
    var dates := DatesOf(tiles);
    var picked := RepeatedFrom(dates, 0);
    RepeatedFromExact(dates, 0);
    if |picked| > 0 {
      assert picked[0] in picked;
    }
    FirstRepeatIsNatAt(dates);
  }

  /** The first row selected is `NaT` exactly when the first row whose date repeats is. */
  lemma FirstRepeatIsNatAt(dates: seq<Stamp>)
    ensures FirstRepeatIsNat(dates) <==>
              |RepeatedFrom(dates, 0)| > 0 && RepeatedFrom(dates, 0)[0] < |dates| && dates[RepeatedFrom(dates, 0)[0]] == NaT
  {
    var picked := RepeatedFrom(dates, 0);
    RepeatedFromExact(dates, 0);
    RepeatedFromBound(dates, 0);
    RepeatedFromFirst(dates, 0);
    if |picked| > 0 {
      assert picked[0] in picked;
    }
    if FirstRepeatIsNat(dates) {
      var i :| 0 <= i < |dates| && IsRepeated(dates, i) && dates[i] == NaT && forall j :: 0 <= j < i ==> !IsRepeated(dates, j);
      assert i in picked;
    }
  }

  /**
   * Merging raises because the first repeated date is `NaT` exactly when every date key reads
   * and the first row whose date repeats has no date.
   */
  lemma PlanMergeFailsOnNat(inputs: seq<Path>, output: Path)
    ensures PlanMerge(inputs, output) == Err(NoDateToFormat)
            <==> FrameOf(inputs).Ok? && FirstRepeatIsNat(DatesOf(FrameOf(inputs).value))
  {
    if FrameOf(inputs).Ok? {
      FrameDatesValid(inputs);
      PlanFromEmpty(FrameOf(inputs).value, output);
    } else {
      FirstErrorIsKeyError(inputs);
    }
  }

  /** Merging fails with an empty selection exactly when every date key reads and no date repeats. */
  lemma PlanMergeFailsWithoutRepeats(inputs: seq<Path>, output: Path)
    ensures PlanMerge(inputs, output) == Err(NoRepeatedDate)
            <==> FrameOf(inputs).Ok? && forall i :: 0 <= i < |inputs| ==> !IsRepeated(DatesOf(FrameOf(inputs).value), i)
  {
    if FrameOf(inputs).Ok? {
      FrameDatesValid(inputs);
      PlanFromEmpty(FrameOf(inputs).value, output);
    } else {
      FirstErrorIsKeyError(inputs);
    }
  }

  lemma PlanFromKeepsDate(tiles: seq<Tile>, output: Path)
    requires DatesValid(tiles) && PlanFrom(tiles, output).Ok?
    requires |Split(Name(PlanFrom(tiles, output).value.sources[0]), '.')| == 7
    ensures var plan := PlanFrom(tiles, output).value;
            Parent(plan.target) == output && DateKey(Stem(Name(plan.target))) == Ok(Day(plan.date))
  {
    PlanFromSelects(tiles, output);
    var first := tiles[RepeatedFrom(DatesOf(tiles), 0)[0]];
    MergedNameKeepsDate(Name(first.path), first.date.date);
  }

  /**
   * When the first merged file has a seven-field name, the merged file lands in the output
   * directory and its stem carries the date its tiles share.
   */
  lemma PlanMergeKeepsDate(inputs: seq<Path>, output: Path)
    requires PlanMerge(inputs, output).Ok?
    requires |Split(Name(PlanMerge(inputs, output).value.sources[0]), '.')| == 7
    ensures var plan := PlanMerge(inputs, output).value;
            Parent(plan.target) == output && DateKey(Stem(Name(plan.target))) == Ok(Day(plan.date))
  {
    FrameDatesValid(inputs);
    PlanFromKeepsDate(FrameOf(inputs).value, output);
  }

  /** Lines 82-111 as the program runs them: fill the frame, then select and name. */
  method MergeAdjacentTiles(inputs: seq<Path>, output: Path) returns (r: Result<MergePlan, TileError>)
    ensures r == PlanMerge(inputs, output)
  {
    var frame := FillFrame(inputs);
    if frame.Err? {
      return Err(frame.error);
    }
    var tiles := frame.value;
    FrameDatesValid(inputs);
    var picked := RepeatedFrom(DatesOf(tiles), 0);
    RepeatedFromBound(DatesOf(tiles), 0);
    if |picked| == 0 {
      return Err(NoRepeatedDate);
    }
    var first := tiles[picked[0]];
    if first.date.NaT? {
      return Err(NoDateToFormat);
    }
    r := Ok(MergePlan(PathsAt(tiles, picked), first.date.date, output + [MergedName(Name(first.path), first.date.date)]));
  }
}
