/**
 * The names of HLS tiles and of the files made from them: the date key read from a tile's
 * stem, the processed file written beside an image directory, and the merged file.
 */
module TileNames {
  import opened Wrappers
  import opened Strings
  import opened Paths
  import opened OrdinalDates

  /**
   * Why `merge_adjacent_tiles` raises: a stem with fewer than four fields, a date that does not
   * parse, no repeated date, or a repeated date that is `NaT`, which `strftime` cannot format.
   */
  datatype TileError = TooFewFields | BadDate(reason: DateError) | NoRepeatedDate | NoDateToFormat

  /* ---------------------------------------------------------------------------------------- */
  /* Date key of a tile                                                                        */
  /* ---------------------------------------------------------------------------------------- */

  /** The text of the date: the fourth `.` field of the stem up to its first 'T', absent when there is no fourth field. */
  function DateField(stem: string): (r: Option<string>)
    ensures r.Some? <==> |Split(stem, '.')| >= 4
    ensures r.Some? ==> 'T' !in r.value && '.' !in r.value
  {
    var fields := Split(stem, '.');
    if |fields| < 4 then None else Some(Split(fields[3], 'T')[0])
  }

  /** The date a tile was taken on, read from its stem with `%Y%j`: a day, or `NaT`. */
  function DateKey(stem: string): Result<Stamp, TileError>
  {
    match DateField(stem)
    case None => Err(TooFewFields)
    case Some(text) =>
      match ToDate(text)
      case Ok(d) => Ok(d)
      case Err(e) => Err(BadDate(e))
  }

  /**
   * A date key that is a day is a valid date pandas can hold; the key is missing exactly when
   * the stem has fewer than four fields, is `NaT` exactly when the date text is one of the `NaT`
   * texts, and is otherwise what `%Y%j` makes of the date text.
   */
  lemma DateKeyFacts(stem: string)
    ensures DateKey(stem).Ok? && DateKey(stem).value.Day? ==>
              ValidDate(DateKey(stem).value.date) && InTimestampRange(DateKey(stem).value.date)
    ensures DateKey(stem) == Err(TooFewFields) <==> |Split(stem, '.')| < 4
    ensures DateKey(stem) != Err(NoRepeatedDate) && DateKey(stem) != Err(NoDateToFormat)
    ensures DateField(stem).Some? ==> (DateKey(stem) == Ok(NaT) <==> IsNatText(DateField(stem).value))
    ensures DateField(stem).Some? && !IsNatText(DateField(stem).value) ==>
              (DateKey(stem).Ok? <==> ParseYearDay(DateField(stem).value).Ok?)
  {
  }

  /** Whatever sits around it, a fourth field `<date>T<time>` yields `<date>`. */
  lemma DateFieldOfFields(fields: seq<string>, date: string, time: string)
    requires |fields| >= 4 && forall i :: 0 <= i < |fields| ==> '.' !in fields[i]
    requires fields[3] == date + "T" + time && 'T' !in date
    ensures DateField(Join(fields, '.')) == Some(date)
  {
    SplitJoin(fields, '.');
    SplitAppend(date, time, 'T');
    SplitNoSeparator(date, 'T');
  }

  lemma ExampleText()
    ensures "HLS.L30.T15TVL.2021249T165852.v2.0" == "HLS" + "." + "L30" + "." + "T15TVL" + "." + "2021249T165852" + "." + "v2" + "." + "0"
    ensures "2021249T165852" == "2021249" + "T" + "165852"
  {
  }

  lemma ExampleFields()
    ensures Join(["HLS", "L30", "T15TVL", "2021249T165852", "v2", "0"], '.') == "HLS.L30.T15TVL.2021249T165852.v2.0"
  {
    var fields := ["HLS", "L30", "T15TVL", "2021249T165852", "v2", "0"];
    JoinSix(fields[0], fields[1], fields[2], fields[3], fields[4], fields[5]);
    assert fields == [fields[0], fields[1], fields[2], fields[3], fields[4], fields[5]];
    ExampleText();
  }

  /** The stem `HLS.L30.T15TVL.2021249T165852.v2.0` has the date key 6 September 2021. */
  lemma DateKeyExample()
    ensures DateKey("HLS.L30.T15TVL.2021249T165852.v2.0") == Ok(Day(Date(2021, 9, 6)))
  {
    ExampleFields();
    ExampleText();
    DateFieldOfFields(["HLS", "L30", "T15TVL", "2021249T165852", "v2", "0"], "2021249", "165852");
    ParseExample();
    DigitsAreNotNat("2021249");
  }

  /**
   * A fourth field that starts with its 'T' has the empty date text, which pandas reads as
   * `NaT`: such a stem does not stop the merge, it gets the date key `NaT`.
   */
  lemma DateKeyWithoutDate(fields: seq<string>, time: string)
    requires |fields| >= 4 && forall i :: 0 <= i < |fields| ==> '.' !in fields[i]
    requires fields[3] == "T" + time
    ensures DateKey(Join(fields, '.')) == Ok(NaT)
  {
    assert fields[3] == "" + "T" + time;
    DateFieldOfFields(fields, "", time);
  }

  /* ---------------------------------------------------------------------------------------- */
  /* Names of processed and merged files                                                       */
  /* ---------------------------------------------------------------------------------------- */

  /** Where `process_and_save_image` writes: `<parent>/<name>_processed.tif`, beside the image directory. */
  function ProcessedPath(image: Path): (r: Path)
    ensures Parent(r) == Parent(image)
    ensures Name(r) == Name(image) + "_processed.tif"
  {
    Parent(image) + [Name(image) + "_processed.tif"]
  }

  lemma ProcessedSuffix(dirName: string)
    ensures dirName + "_processed.tif" == (dirName + "_processed") + "." + "tif"
    ensures '.' !in "_processed" && '.' !in "tif"
  {
  }

  /** Two stems whose fourth `.` fields agree have the same date key. */
  lemma DateKeyOfFourthField(a: string, b: string)
    requires |Split(a, '.')| >= 4 && |Split(b, '.')| >= 4
    requires Split(a, '.')[3] == Split(b, '.')[3]
    ensures DateKey(a) == DateKey(b)
  {
    assert DateField(a) == DateField(b);
  }

  /**
   * The processed file of a directory whose name has at least five `.` fields keeps the
   * directory's date key: the suffix lengthens only the last field.
   */
  lemma ProcessedKeepsDateKey(dirName: string)
    requires |Split(dirName, '.')| >= 5
    ensures DateKey(Stem(dirName + "_processed.tif")) == DateKey(dirName)
  {
    var n := dirName + "_processed";
    ProcessedSuffix(dirName);
    StemOfExtension(n, "tif");
    SplitExtendLast(dirName, "_processed", '.');
    var f := Split(dirName, '.');
    assert Split(n, '.')[3] == f[3];
    DateKeyOfFourthField(n, dirName);
  }

  /** What the merged name carries after the date: the time `T000000`, then `.v2.0_merged_processed.tif`. */
  const MergedTail: string := "T000000.v2.0_merged_processed.tif"

  /** `name.rsplit(".", 4)[0] + "." + date.strftime("%Y%jT000000") + ".v2.0_merged_processed.tif"`. */
  function MergedName(name: string, date: Date): string
    requires ValidDate(date) && InTimestampRange(date)
  {
    RSplit(name, '.', 4)[0] + "." + FormatYearDay(date) + MergedTail
  }

  /** The merged name keeps every `.` field of the name but the last four, then the date. */
  lemma MergedNameHead(name: string, date: Date)
    requires ValidDate(date) && InTimestampRange(date)
    ensures var fields := Split(name, '.');
            MergedName(name, date) == Join(fields[..KeptFields(|fields|, 4)], '.') + "." + FormatYearDay(date) + MergedTail
  {
    RSplitHead(name, '.', 4);
  }

  lemma MergedTailParts()
    ensures MergedTail == "T000000" + "." + "v2" + "." + "0_merged_processed" + "." + "tif"
    ensures "T000000" == "T" + "000000"
  {
  }

  /** The fields of the tail of a merged name. */
  lemma MergedTailFields(text: string)
    ensures Join([text + "T000000", "v2", "0_merged_processed", "tif"], '.') == text + MergedTail
    ensures text + "T000000" == text + "T" + "000000"
  {
    MergedTailParts();
    JoinFour(text + "T000000", "v2", "0_merged_processed", "tif");
  }

  /** The fields of a merged name made from a name of seven `.` fields: its first three, the date and time, `v2`, the rest of the suffix. */
  function MergedFields(name: string, date: Date): (r: seq<string>)
    requires ValidDate(date) && InTimestampRange(date)
    requires |Split(name, '.')| == 7
    ensures |r| == 7 && forall i :: 0 <= i < |r| ==> '.' !in r[i]
  {
    var text := FormatYearDay(date);
    assert '.' !in text by {
      assert forall c :: c in text ==> IsDigit(c);
    }
    Split(name, '.')[..3] + [text + "T000000", "v2", "0_merged_processed", "tif"]
  }

  lemma ConcatFour(a: string, b: string, c: string, d: string)
    ensures a + b + c + d == a + (b + (c + d))
  {
  }

  lemma MergedNameJoin(name: string, date: Date)
    requires ValidDate(date) && InTimestampRange(date)
    requires |Split(name, '.')| == 7
    ensures MergedName(name, date) == Join(MergedFields(name, date), '.')
  {
    var fields := Split(name, '.');
    var text := FormatYearDay(date);
    var all := MergedFields(name, date);
    MergedNameHead(name, date);
    MergedTailFields(text);
    JoinPrefix(all, 3, '.');
    assert all[..3] == fields[..3] && all[3..] == [text + "T000000", "v2", "0_merged_processed", "tif"];
    ConcatFour(Join(fields[..3], '.'), ".", text, MergedTail);
  }

  /** A stem whose fourth field is `<text>T000000` has the date key `text` spells. */
  lemma DateKeyOfFields(fields: seq<string>, text: string, date: Date)
    requires |fields| >= 4 && forall i :: 0 <= i < |fields| ==> '.' !in fields[i]
    requires fields[3] == text + "T000000" && 'T' !in text
    requires ToDate(text) == Ok(Day(date))
    ensures DateKey(Join(fields, '.')) == Ok(Day(date))
  {
    MergedTailParts();
    DateFieldOfFields(fields, text, "000000");
  }

  /**
   * For a name of seven `.` fields, `<platform>.<sensor>.<tile>.<date>T<time>.v2.0_processed.tif`,
   * the date key read back from the merged name is the date it was built from.
   */
  lemma MergedNameKeepsDate(name: string, date: Date)
    requires ValidDate(date) && InTimestampRange(date)
    requires |Split(name, '.')| == 7
    ensures DateKey(Stem(MergedName(name, date))) == Ok(Day(date))
  {
    var all := MergedFields(name, date);
    var text := FormatYearDay(date);
    MergedNameJoin(name, date);
    assert |Join(all[..6], '.')| > 0;
    StemOfJoin(all);
    assert 'T' !in text by {
      assert forall c :: c in text ==> IsDigit(c);
    }
    ToDateFormatted(date);
    DateKeyOfFields(all[..6], text, date);
  }
}
