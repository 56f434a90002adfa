/** The numbering and bookkeeping parts of blendgen/utils.py: the clamp on the number
    of segmentation classes, the choice of the next renderNNN output folder, and the
    fill arithmetic of the text progress bar. */
module Utils {
  import opened Results
  import opened Text

  // ---------------------------------------------------------------------------
  // createSegmentationMaterial: at most 31 classes on the colour ramp
  // ---------------------------------------------------------------------------

  /** The largest number of classes the segmentation colour ramp is built for. */
  const MaxSegmentationClasses: int := 31

  /** n_instances as createSegmentationMaterial uses it: 32 or more is replaced by 31. */
  function ClampInstances(nInstances: int): (r: int)
    ensures r <= MaxSegmentationClasses
    ensures r == nInstances || (nInstances > MaxSegmentationClasses && r == MaxSegmentationClasses)
  {
    if nInstances >= 32 then 31 else nInstances
  }

  // ---------------------------------------------------------------------------
  // createRenderDirectory: the next renderNNN number
  // ---------------------------------------------------------------------------

  /** What the scan makes of one subfolder name. */
  datatype Reading =
    | NotRender      // folder[0:6] is not "render": skipped
    | Number(n: int) // the value of int(folder[6:9].lstrip('0'))
    | Unreadable     // int() raises ValueError

  predicate IsRenderFolder(folder: string) {
    Slice(folder, 0, 6) == "render"
  }

  /** folder[6:9]: the three characters after "render". */
  function NumberWindow(folder: string): string {
    Slice(folder, 6, 9)
  }

  /** The scan's int() call sees only strings without the forms the model leaves out. */
  predicate ScanPlain(folders: seq<string>) {
    forall k :: 0 <= k < |folders| ==> (IsRenderFolder(folders[k]) ==> Plain(NumberWindow(folders[k])))
  }

  function ReadFolder(folder: string): Reading
  {
    if !IsRenderFolder(folder) then NotRender
    else
      match ParseInt(LStrip(NumberWindow(folder), '0'))
      case Ok(v) => Number(v)
      case Err(_) => Unreadable
  }

  /** Only names beginning with "render" are read, and the three characters read
      give a number between -99 and 999. */
  lemma ReadFolderRange(folder: string)
    ensures ReadFolder(folder).NotRender? <==> !IsRenderFolder(folder)
    ensures ReadFolder(folder).Number? ==> -99 <= ReadFolder(folder).n <= 999
  {
    if IsRenderFolder(folder) {
      var digits := LStrip(NumberWindow(folder), '0');
      if ParseInt(digits).Ok? {
        ParseIntThreeChars(digits);
      }
    }
  }

  lemma ReadingsAtMost(folders: seq<string>)
    ensures forall k :: 0 <= k < |Readings(folders)| && Readings(folders)[k].Number? ==> Readings(folders)[k].n <= 999
  {
    forall k | 0 <= k < |folders| ensures Readings(folders)[k] == ReadFolder(folders[k]) {
    }
    forall k | 0 <= k < |folders| ensures ReadFolder(folders[k]).Number? ==> ReadFolder(folders[k]).n <= 999 {
      ReadFolderRange(folders[k]);
    }
  }

  /** What the scan reads from each folder, in listing order. */
  function Readings(folders: seq<string>): (rs: seq<Reading>)
    ensures |rs| == |folders|
  {
    seq(|folders|, k requires 0 <= k < |folders| => ReadFolder(folders[k]))
  }

  /** max_num after the loop has seen the given readings, in order; ValueError once
      some "render" folder is unreadable. */
  function MaxRead(readings: seq<Reading>): Result<nat> {
    if readings == [] then Ok(0)
    else Step(MaxRead(readings[..|readings| - 1]), readings[|readings| - 1])
  }

  /** One iteration of the scan: max_num before, what the folder reads as, max_num after. */
  function Step(prev: Result<nat>, reading: Reading): Result<nat> {
    match reading
    case NotRender => prev
    case Unreadable => Err(ValueError)
    case Number(v) => if prev.Err? then prev else Ok(if v > prev.value then v else prev.value)
  }

  /** render_num: one more than the largest number read, or the scan's error. */
  function RenderNumber(folders: seq<string>): Result<nat>
  {
    NumberAfter(MaxRead(Readings(folders)))
  }

  /** Whatever the listing, the scan proposes a number from 1 to 1000, or fails with
      ValueError. */
  lemma RenderNumberRange(folders: seq<string>)
    ensures RenderNumber(folders).Ok? ==> 1 <= RenderNumber(folders).value <= 1000
    ensures RenderNumber(folders).Err? ==> RenderNumber(folders) == Err(ValueError)
  {
    var readings := Readings(folders);
    MaxReadError(readings);
    ReadingsAtMost(folders);
    MaxReadAtMost(readings);
  }

  /** No number read is above 999, so neither is max_num. */
  lemma {:induction false} MaxReadAtMost(readings: seq<Reading>)
    requires forall k :: 0 <= k < |readings| && readings[k].Number? ==> readings[k].n <= 999
    ensures MaxRead(readings).Ok? ==> MaxRead(readings).value <= 999
  {
    if readings != [] {
      MaxReadAtMost(readings[..|readings| - 1]);
    }
  }

  /** The number proposed after a scan that ended with the given max_num. */
  function NumberAfter(maxNum: Result<nat>): Result<nat> {
    match maxNum
    case Ok(m) => Ok(m + 1)
    case Err(e) => Err(e)
  }

  /** The loop of createRenderDirectory over the subfolder names. */
  method NextRenderNumber(subfolders: seq<string>) returns (r: Result<nat>)
    requires ScanPlain(subfolders)
    ensures r == RenderNumber(subfolders)
  {
    var maxNum: nat := 0;
    for i := 0 to |subfolders|
      invariant MaxRead(Readings(subfolders[..i])) == Ok(maxNum)
    {
      var folder := subfolders[i];
      ScanStep(subfolders, i);
      if Slice(folder, 0, 6) == "render" {
        var numString := LStrip(Slice(folder, 6, 9), '0');
        var parsed := ParseInt(numString);
        if parsed.Err? {
          assert ReadFolder(folder) == Unreadable;
          ScanErrorSticks(subfolders, i + 1);
          return Err(ValueError);
        }
        var num := parsed.value;
        assert ReadFolder(folder) == Number(num);
        if num > maxNum {
          maxNum := num;
        }
      } else {
        assert ReadFolder(folder) == NotRender;
      }
    }
    assert subfolders[..|subfolders|] == subfolders;
    ScanDone(subfolders, maxNum);
    return Ok(maxNum + 1);
  }

  lemma ScanDone(folders: seq<string>, maxNum: nat)
    requires MaxRead(Readings(folders)) == Ok(maxNum)
    ensures RenderNumber(folders) == Ok(maxNum + 1)
  {
  }

  /** The scan of the first i + 1 folders is one step on from the scan of the first i. */
  lemma ScanStep(folders: seq<string>, i: nat)
    requires i < |folders|
    ensures MaxRead(Readings(folders[..i + 1])) == Step(MaxRead(Readings(folders[..i])), ReadFolder(folders[i]))
  {
    assert folders[..i + 1] == folders[..i] + [folders[i]];
    ReadingsConcat(folders[..i], [folders[i]]);
    ReadingsSingle(folders[i]);
    MaxReadAppend(Readings(folders[..i]), ReadFolder(folders[i]));
  }

  /** Once the scan of a prefix has failed, the scan of the whole listing fails. */
  lemma ScanErrorSticks(folders: seq<string>, i: nat)
    requires i <= |folders| && MaxRead(Readings(folders[..i])).Err?
    ensures RenderNumber(folders) == Err(ValueError)
  {
    var readings := Readings(folders);
    assert Readings(folders[..i]) == readings[..i];
    PrefixErrorSticks(readings, i);
  }

  /** The folder name built for number n: "render" + f"{n:03d}" + "_" + prop + "_" + date. */
  function RenderFolderName(n: nat, propName: string, currentDate: string): string {
    "render" + ZeroPad3(n) + "_" + propName + "_" + currentDate
  }

  /** The folder name begins with "render" and ends with "_" + prop + "_" + date. */
  lemma RenderFolderNameShape(n: nat, propName: string, currentDate: string)
    ensures var name := RenderFolderName(n, propName, currentDate);
            StartsWith(name, "render") && EndsWith(name, "_" + propName + "_" + currentDate)
  {
    var rest := "_" + propName + "_" + currentDate;
    var name := RenderFolderName(n, propName, currentDate);
    assert name == "render" + ZeroPad3(n) + rest;
    assert name[..6] == "render" && name[|name| - |rest|..] == rest;
  }

  /** createRenderDirectory without the file system: with a non-empty folder_name
      the directory is the base path followed by it; otherwise the scan decides the
      number. The overwrite prompt and mkdir are not part of this model. */
  method CreateRenderDirectory(renderBasePath: string, propName: string, folderName: Option<string>,
                               subfolders: seq<string>, currentDate: string)
    returns (r: Result<string>)
    requires (folderName.None? || folderName.value == "") ==> ScanPlain(subfolders)
    ensures folderName.Some? && folderName.value != "" ==> r == Ok(renderBasePath + folderName.value)
    ensures folderName.None? || folderName.value == "" ==>
              match RenderNumber(subfolders)
              case Ok(n) => n >= 1 && r == Ok(renderBasePath + RenderFolderName(n, propName, currentDate))
              case Err(e) => r == Err(e)
  {
    if folderName.Some? && folderName.value != "" {
      return Ok(renderBasePath + folderName.value);
    }
    var renderNum := NextRenderNumber(subfolders);
    if renderNum.Err? {
      return Err(renderNum.error);
    }
    return Ok(renderBasePath + RenderFolderName(renderNum.value, propName, currentDate));
  }

  // ---------------------------------------------------------------------------
  // Properties of the scan
  // ---------------------------------------------------------------------------

  lemma {:induction false} PrefixErrorSticks(readings: seq<Reading>, i: nat)
    requires i <= |readings| && MaxRead(readings[..i]).Err?
    ensures MaxRead(readings) == Err(ValueError)
    decreases |readings| - i
  {
    if i < |readings| {
      assert readings[..i + 1][..i] == readings[..i];
      MaxReadError(readings[..i]);
      PrefixErrorSticks(readings, i + 1);
    } else {
      assert readings[..i] == readings;
      MaxReadError(readings);
    }
  }

  lemma {:induction false} MaxReadError(readings: seq<Reading>)
    ensures MaxRead(readings).Err? ==> MaxRead(readings).error == ValueError
  {
    if readings != [] {
      MaxReadError(readings[..|readings| - 1]);
    }
  }

  /** The scan fails exactly when some "render" folder is unreadable; otherwise the
      number is one more than every number read, and one more than the largest of
      them (or 1 when there is none). */
  lemma RenderNumberIsNextFree(folders: seq<string>)
    ensures RenderNumber(folders).Ok? <==> forall k :: 0 <= k < |folders| ==> ReadFolder(folders[k]) != Unreadable
    ensures RenderNumber(folders).Ok? ==>
              var r := RenderNumber(folders).value;
              r >= 1 &&
              (forall k :: 0 <= k < |folders| && ReadFolder(folders[k]).Number? ==> ReadFolder(folders[k]).n < r) &&
              (r == 1 || exists k :: 0 <= k < |folders| && ReadFolder(folders[k]) == Number(r - 1))
  {
    ScanOkUnlessUnreadable(folders);
    if RenderNumber(folders).Ok? {
      ScanAboveEveryNumber(folders);
      ScanOneAboveMaximum(folders);
    }
  }

  lemma ScanOkUnlessUnreadable(folders: seq<string>)
    ensures RenderNumber(folders).Ok? <==> forall k :: 0 <= k < |folders| ==> ReadFolder(folders[k]) != Unreadable
  {
    var rs := Readings(folders);
    assert forall k :: 0 <= k < |folders| ==> rs[k] == ReadFolder(folders[k]);
    ScanFailsOnUnreadable(rs);
  }

  lemma ScanAboveEveryNumber(folders: seq<string>)
    requires RenderNumber(folders).Ok?
    ensures var r := RenderNumber(folders).value;
            r >= 1 &&
            forall k :: 0 <= k < |folders| && ReadFolder(folders[k]).Number? ==> ReadFolder(folders[k]).n < r
  {
    var rs := Readings(folders);
    assert forall k :: 0 <= k < |folders| ==> rs[k] == ReadFolder(folders[k]);
    ScanFindsMaximum(rs);
  }

  lemma ScanOneAboveMaximum(folders: seq<string>)
    requires RenderNumber(folders).Ok?
    ensures var r := RenderNumber(folders).value;
            r == 1 || exists k :: 0 <= k < |folders| && ReadFolder(folders[k]) == Number(r - 1)
  {
    var rs := Readings(folders);
    ScanFindsMaximum(rs);
    var r := RenderNumber(folders).value;
    if r != 1 {
      var k :| 0 <= k < |rs| && rs[k] == Number(r - 1);
      assert ReadFolder(folders[k]) == Number(r - 1);
    }
  }

  lemma {:induction false} ScanFailsOnUnreadable(readings: seq<Reading>)
    ensures MaxRead(readings).Ok? <==> forall k :: 0 <= k < |readings| ==> readings[k] != Unreadable
  {
    if readings != [] {
      var init := readings[..|readings| - 1];
      ScanFailsOnUnreadable(init);
      assert forall k :: 0 <= k < |init| ==> init[k] == readings[k];
    }
  }

  lemma {:induction false} ScanFindsMaximum(readings: seq<Reading>)
    requires MaxRead(readings).Ok?
    ensures var m := MaxRead(readings).value;
            (forall k :: 0 <= k < |readings| && readings[k].Number? ==> readings[k].n <= m) &&
            (m == 0 || exists k :: 0 <= k < |readings| && readings[k] == Number(m))
  {
    if readings != [] {
      var init := readings[..|readings| - 1];
      assert MaxRead(init).Ok?;
      ScanFindsMaximum(init);
      assert forall k :: 0 <= k < |init| ==> init[k] == readings[k];
      var m0, m := MaxRead(init).value, MaxRead(readings).value;
      if m != 0 && m == m0 {
        var k :| 0 <= k < |init| && init[k] == Number(m0);
        assert readings[k] == Number(m);
      }
    }
  }

  /** A folder whose name does not begin with "render" never changes the number,
      wherever it stands in the listing. */
  lemma NonRenderFolderIgnored(before: seq<string>, folder: string, after: seq<string>)
    requires !IsRenderFolder(folder)
    ensures RenderNumber(before + [folder] + after) == RenderNumber(before + after)
  {
    ReadingsSkip(before, folder, after);
    SameMaxSameNumber(before + [folder] + after, before + after);
  }

  lemma SameMaxSameNumber(a: seq<string>, b: seq<string>)
    requires MaxRead(Readings(a)) == MaxRead(Readings(b))
    ensures RenderNumber(a) == RenderNumber(b)
  {
  }

  lemma ReadingsSkip(before: seq<string>, folder: string, after: seq<string>)
    requires !IsRenderFolder(folder)
    ensures MaxRead(Readings(before + [folder] + after)) == MaxRead(Readings(before + after))
  {
    ReadingsConcat(before + [folder], after);
    ReadingsConcat(before, [folder]);
    SkippedReading(folder);
    ReadingsConcat(before, after);
    NotRenderIgnored(Readings(before), Readings(after));
  }

  lemma SkippedReading(folder: string)
    requires !IsRenderFolder(folder)
    ensures Readings([folder]) == [NotRender]
  {
  }

  /** Reading a listing in two parts reads each part. */
  lemma ReadingsConcat(a: seq<string>, b: seq<string>)
    ensures Readings(a + b) == Readings(a) + Readings(b)
  {
    assert forall k :: 0 <= k < |a| ==> (a + b)[k] == a[k];
    assert forall k :: 0 <= k < |b| ==> (a + b)[|a| + k] == b[k];
  }

  lemma {:induction false} NotRenderIgnored(before: seq<Reading>, after: seq<Reading>)
    ensures MaxRead(before + [NotRender] + after) == MaxRead(before + after)
    decreases |after|
  {
    var all := before + [NotRender] + after;
    if after == [] {
      assert all[..|all| - 1] == before;
      assert before + after == before;
    } else {
      var init := after[..|after| - 1];
      assert all[..|all| - 1] == before + [NotRender] + init;
      assert (before + after)[..|before + after| - 1] == before + init;
      NotRenderIgnored(before, init);
    }
  }

  /** The folder created for number n reads back as n, for 1 <= n <= 999. */
  lemma RenderFolderNameReadsBack(n: nat, propName: string, currentDate: string)
    requires 1 <= n <= 999
    ensures var name := RenderFolderName(n, propName, currentDate);
            IsRenderFolder(name) && Plain(NumberWindow(name)) && ReadFolder(name) == Number(n)
  {
    var rest := "_" + propName + "_" + currentDate;
    assert RenderFolderName(n, propName, currentDate) == "render" + ZeroPad3(n) + rest;
    NumberedNameReadsBack(n, rest);
  }

  /** Any name "render" + f"{n:03d}" + rest reads back as n, for 1 <= n <= 999. */
  lemma NumberedNameReadsBack(n: nat, rest: string)
    requires 1 <= n <= 999
    ensures var name := "render" + ZeroPad3(n) + rest;
            IsRenderFolder(name) && Plain(NumberWindow(name)) && ReadFolder(name) == Number(n)
  {
    var pad := ZeroPad3(n);
    assert |pad| == 3 by {
      DigitsLength3(n);
    }
    var name := "render" + pad + rest;
    assert IsRenderFolder(name) by {
      assert name[..6] == "render";
    }
    assert NumberWindow(name) == pad by {
      assert name[6..9] == pad;
    }
    assert Plain(pad) by {
      ZeroPad3Small(n);
    }
    assert LStrip(pad, '0') == Digits(n) by {
      ZeroPad3Strip(n);
    }
    assert ParseInt(Digits(n)) == Ok(n) by {
      ParseIntDigits(n);
    }
  }

  /** Creating the folder a scan proposes makes the next scan propose the number after it. */
  lemma NextScanAdvances(folders: seq<string>, n: nat, propName: string, currentDate: string)
    requires RenderNumber(folders) == Ok(n) && n <= 999
    ensures RenderNumber(folders + [RenderFolderName(n, propName, currentDate)]) == Ok(n + 1)
  {
    NumberAfterPositive(MaxRead(Readings(folders)));
    RenderFolderNameReadsBack(n, propName, currentDate);
    ScanAfterAppend(folders, RenderFolderName(n, propName, currentDate), n);
  }

  lemma NumberAfterPositive(maxNum: Result<nat>)
    ensures NumberAfter(maxNum).Ok? ==> NumberAfter(maxNum).value >= 1
  {
  }

  lemma ScanAfterAppend(folders: seq<string>, name: string, n: nat)
    requires RenderNumber(folders) == Ok(n) && ReadFolder(name) == Number(n)
    ensures RenderNumber(folders + [name]) == Ok(n + 1)
  {
    ReadingsConcat(folders, [name]);
    ReadingsSingle(name);
    MaxReadAppend(Readings(folders), Number(n));
  }

  lemma ReadingsSingle(folder: string)
    ensures Readings([folder]) == [ReadFolder(folder)]
  {
  }

  lemma MaxReadAppend(readings: seq<Reading>, reading: Reading)
    ensures MaxRead(readings + [reading]) == Step(MaxRead(readings), reading)
  {
    assert (readings + [reading])[..|readings|] == readings;
  }

  /** The scan reads nothing of a name but whether it begins with "render" and its
      characters 6 to 8: two names that agree on those read the same. */
  lemma OnlyWindowRead(a: string, b: string)
    requires IsRenderFolder(a) <==> IsRenderFolder(b)
    requires NumberWindow(a) == NumberWindow(b)
    ensures ReadFolder(a) == ReadFolder(b)
  {
  }

  /** An instance: "render1234_x" is folder number 123, the 4 is never read. */
  lemma OnlyThreeDigitsRead()
    ensures ReadFolder("render1234_x") == Number(123)
  {
    var name := "render1234_x";
    assert IsRenderFolder(name) by {
      assert name[..6] == "render";
    }
    assert NumberWindow(name) == "123" by {
      assert name[6..9] == "123";
    }
    assert LStrip("123", '0') == "123";
    ParseOneTwoThree();
    ReadsAs(name, 123);
  }

  lemma ParseOneTwoThree()
    ensures ParseInt("123") == Ok(123)
  {
    assert ValueOf("123") == 123 by {
      assert "123"[..2] == "12";
      assert "12"[..1] == "1";
    }
  }

  /** Past 999 the number stops advancing: the folder made for 1000 reads back as 100,
      so after render999 and render1000 the scan proposes 1000 a second time. */
  lemma ScanStallsPast999(propName: string, currentDate: string)
    ensures var first := [RenderFolderName(999, propName, currentDate)];
            RenderNumber(first) == Ok(1000) &&
            RenderNumber(first + [RenderFolderName(1000, propName, currentDate)]) == Ok(1000)
  {
    var a, b := RenderFolderName(999, propName, currentDate), RenderFolderName(1000, propName, currentDate);
    RenderFolderNameReadsBack(999, propName, currentDate);
    ThousandNameReadsAsHundred(propName, currentDate);
    assert [] + [a] == [a];
    ScanAppendNumber([], a, 0, 999);
    ScanDone([a], 999);
    ScanAppendNumber([a], b, 999, 100);
    ScanDone([a] + [b], 999);
  }

  /** One more folder that reads as v: max_num becomes the larger of the two. */
  lemma ScanAppendNumber(folders: seq<string>, name: string, m: nat, v: int)
    requires MaxRead(Readings(folders)) == Ok(m) && ReadFolder(name) == Number(v)
    ensures MaxRead(Readings(folders + [name])) == Ok(if v > m then v else m)
  {
    ReadingsConcat(folders, [name]);
    ReadingsSingle(name);
    MaxReadAppend(Readings(folders), Number(v));
  }

  lemma ThousandNameReadsAsHundred(propName: string, currentDate: string)
    ensures ReadFolder(RenderFolderName(1000, propName, currentDate)) == Number(100)
  {
    var rest := "_" + propName + "_" + currentDate;
    assert RenderFolderName(1000, propName, currentDate) == "render" + ZeroPad3(1000) + rest;
    ThousandReadsAsHundred(rest);
  }

  lemma ThousandReadsAsHundred(rest: string)
    ensures ReadFolder("render" + ZeroPad3(1000) + rest) == Number(100)
  {
    ZeroPadThousand();
    var name := "render1000" + rest;
    assert "render" + ZeroPad3(1000) + rest == name;
    assert IsRenderFolder(name) by {
      assert name[..6] == "render";
    }
    assert NumberWindow(name) == "100" by {
      assert name[6..9] == "100";
    }
    assert LStrip("100", '0') == "100";
    ParseOneHundred();
    ReadsAs(name, 100);
  }

  lemma ParseOneHundred()
    ensures ParseInt("100") == Ok(100)
  {
    assert ValueOf("100") == 100 by {
      assert "100"[..2] == "10";
      assert "10"[..1] == "1";
    }
  }

  /** A "render" folder whose stripped window int() reads as v is folder number v. */
  lemma ReadsAs(folder: string, v: int)
    requires IsRenderFolder(folder) && ParseInt(LStrip(NumberWindow(folder), '0')) == Ok(v)
    ensures ReadFolder(folder) == Number(v)
  {
  }

  lemma ZeroPadThousand()
    ensures ZeroPad3(1000) == "1000"
  {
    assert Digits(1000) == "1000" by {
      assert Digits(1) == "1";
      assert Digits(10) == "10";
      assert Digits(100) == "100";
    }
    assert Repeat("0", -1) == [];
  }

  /** A "render" folder with no digits, or only zeros, after the prefix makes int() fail. */
  lemma ZeroWindowUnreadable(folder: string)
    requires IsRenderFolder(folder)
    requires forall k :: 0 <= k < |NumberWindow(folder)| ==> NumberWindow(folder)[k] == '0'
    ensures ReadFolder(folder) == Unreadable
  {
    assert LStrip(NumberWindow(folder), '0') == [];
  }

  // ---------------------------------------------------------------------------
  // printProgressBar: the bar itself
  // ---------------------------------------------------------------------------

  /** Python's floor division a // b. */
  function FloorDiv(a: int, b: int): (q: int)
    requires b != 0
    ensures b > 0 ==> q * b <= a < q * b + b
    ensures b < 0 ==> q * b >= a > q * b + b
  {
    if b > 0 then a / b else (-a) / (-b)
  }

  /** filledLength = int(length * iteration // total). */
  function FilledLength(length: int, iteration: int, total: int): int
    requires total != 0
  {
    FloorDiv(length * iteration, total)
  }

  /** The bar string: fill repeated filledLength times, then '-' up to length.
      total == 0 raises ZeroDivisionError (in the percentage, computed first). */
  function ProgressBar(iteration: int, total: int, length: int, fill: string): (r: Result<string>)
    ensures r.Err? <==> total == 0
    ensures r.Err? ==> r.error == ZeroDivisionError
    ensures r.Ok? && |fill| == 1 && 0 <= iteration <= total && length >= 0 ==> |r.value| == length
  {
    if total == 0 then Err(ZeroDivisionError)
    else
      var filled := FilledLength(length, iteration, total);
      assert 0 <= iteration <= total && length >= 0 ==> 0 <= filled <= length by {
        if 0 <= iteration <= total && length >= 0 {
          FilledBounds(length, iteration, total);
        }
      }
      Ok(Repeat(fill, filled) + Repeat("-", length - filled))
  }

  /** For 0 <= iteration <= total and a one-character fill, the bar is exactly
      length characters: floor(length * iteration / total) fill characters, then '-'. */
  lemma ProgressBarShape(iteration: int, total: int, length: int, fill: char)
    requires 0 <= iteration <= total && total > 0 && length >= 0
    ensures var filled := FilledLength(length, iteration, total);
            var bar := ProgressBar(iteration, total, length, [fill]);
            0 <= filled <= length &&
            filled * total <= length * iteration < (filled + 1) * total &&
            bar.Ok? && |bar.value| == length &&
            (forall k :: 0 <= k < filled ==> bar.value[k] == fill) &&
            (forall k :: filled <= k < length ==> bar.value[k] == '-')
  {
    var filled := FilledLength(length, iteration, total);
    FilledBounds(length, iteration, total);
    var bar := Repeat([fill], filled) + Repeat("-", length - filled);
    forall k | 0 <= k < filled ensures bar[k] == fill {
      RepeatCharAt(fill, filled, k);
    }
    forall k | filled <= k < length ensures bar[k] == '-' {
      RepeatCharAt('-', length - filled, k - filled);
    }
  }

  lemma FilledBounds(length: int, iteration: int, total: int)
    requires 0 <= iteration <= total && total > 0 && length >= 0
    ensures 0 <= FilledLength(length, iteration, total) <= length
  {
    FilledMonotone(length, 0, iteration, total);
    FilledMonotone(length, iteration, total, total);
    assert length * 0 == 0;
    DivCancel(length, total);
  }

  lemma DivCancel(a: int, t: int)
    requires t > 0
    ensures (a * t) / t == a
  {
    var q := (a * t) / t;
    assert q * t <= a * t < q * t + t;
    if q > a {
      MulLe(a + 1, q, t);
    } else if q < a {
      MulLe(q + 1, a, t);
    }
  }

  lemma DivMonotone(x: int, y: int, t: int)
    requires x <= y && t > 0
    ensures x / t <= y / t
  {
    var a, b := x / t, y / t;
    assert a * t <= x && y < b * t + t;
    if a > b {
      MulLe(b + 1, a, t);
    }
  }

  lemma MulLe(a: int, b: int, n: int)
    requires a <= b && n >= 0
    ensures a * n <= b * n
  {
    assert b * n - a * n == (b - a) * n;
  }

  /** The bar never shrinks as the iteration advances. */
  lemma FilledMonotone(length: int, i: int, j: int, total: int)
    requires i <= j && total > 0 && length >= 0
    ensures FilledLength(length, i, total) <= FilledLength(length, j, total)
  {
    assert length * i <= length * j by {
      assert length * j - length * i == length * (j - i);
    }
    DivMonotone(length * i, length * j, total);
  }
}
