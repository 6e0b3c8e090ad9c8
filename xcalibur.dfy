/** XCaliburReader.readRawDump: the parser of the RAWdump stream. Lines set the per-scan fields, each
    DATA POINTS block builds one scan from them and adds it to the raw container, and the fields are
    reset for the next scan. */
module XCalibur {
  import opened Wrappers
  import opened Constants
  import Ranges
  import opened Points
  import opened Strings
  import opened Scans
  import opened ScanUtils
  import opened RawContainers

  /** The dump stream as the reader consumes it: text lines, and the (mass, intensity) doubles that
      follow a DATA POINTS line. */
  datatype Item = TextLine(text: string) | Peak(mass: real, intensity: real)

  /** The library parsers the reader calls: Integer.parseInt and Double.parseDouble (None where they
      throw NumberFormatException), and the OleDate conversion of a creation date to its text. */
  datatype Parsers = Parsers(parseInt: string -> Option<int>, parseDouble: string -> Option<real>, dateText: real -> string)

  /** The per-scan fields of the reader; an ion mode of None stands for the unset (null) field. */
  datatype Fields = Fields(
    scanNumber: int, msn: MSN, retentionTime: real, basePeak: real, basePeakIntensity: real,
    totalIonCurrent: real, ionMode: Option<IonMode>, parentCharge: int, parentScan: int,
    parentScanIndex: int, parentMz: real)

  const InitialFields := Fields(0, MS1, 0.0, 0.0, 0.0, 0.0, None, 0, -1, -1, 0.0)

  /** The clean-up after a scan: everything but the ion mode and the last MS1 scan number. */
  function Reset(f: Fields): (r: Fields)
    ensures r.ionMode == f.ionMode && r.parentScanIndex == f.parentScanIndex
    ensures r.parentScan == -1 && r.scanNumber == 0 && r.msn == MS1
  {
    f.(scanNumber := 0, msn := MS1, retentionTime := 0.0, parentMz := 0.0, parentCharge := 0,
       parentScan := -1, basePeak := 0.0, basePeakIntensity := 0.0, totalIonCurrent := 0.0)
  }

  /** The ion mode of a filter line. */
  function IonModeOf(line: string): IonMode
  {
    if Contains(line, " + ") then Positive else if Contains(line, " - ") then Negative else InSilico
  }

  // ------------------------------------------- the pattern ms(\d).* (\d+\.\d+)@

  /** The first index at or after p that does not hold a digit. */
  function DigitsEnd(s: string, p: nat): (r: nat)
    requires p <= |s|
    ensures p <= r <= |s|
    decreases |s| - p
  {
    if p == |s| || !IsDigit(s[p]) then p else DigitsEnd(s, p + 1)
  }

  /** DigitsEnd stops at the end of the run of digits that starts at p. */
  lemma {:induction false} DigitsEndIsRunEnd(s: string, p: nat)
    requires p <= |s|
    ensures forall k :: p <= k < DigitsEnd(s, p) ==> IsDigit(s[k])
    ensures DigitsEnd(s, p) < |s| ==> !IsDigit(s[DigitsEnd(s, p)])
    decreases |s| - p
  {
    if p < |s| && IsDigit(s[p]) {
      DigitsEndIsRunEnd(s, p + 1);
    }
  }

  /** The text of a decimal such as 587.03: digits, one dot, digits. */
  predicate DecimalText(t: string)
  {
    exists d :: 0 < d < |t| - 1 && t[d] == '.' && (forall k :: 0 <= k < |t| && k != d ==> IsDigit(t[k]))
  }

  /** Whether " (\d+\.\d+)@" matches at j, and then the index of the '@'. */
  function DecimalEnd(s: string, j: nat): (r: Option<nat>)
    requires j < |s|
    ensures r.Some? ==> j + 1 < r.value < |s|
  {
    if s[j] != ' ' then None
    else
      var b := DigitsEnd(s, j + 1);
      if b == j + 1 || b >= |s| || s[b] != '.' then None
      else
        var c := DigitsEnd(s, b + 1);
        if c == b + 1 || c >= |s| || s[c] != '@' then None
        else Some(c)
  }

  /** A match of the decimal part is a space, a decimal and an '@'. */
  lemma DecimalEndMatches(s: string, j: nat)
    requires j < |s| && DecimalEnd(s, j).Some?
    ensures s[j] == ' ' && s[DecimalEnd(s, j).value] == '@' && DecimalText(s[j + 1..DecimalEnd(s, j).value])
  {
    var b := DigitsEnd(s, j + 1);
    var c := DigitsEnd(s, b + 1);
    DigitsEndIsRunEnd(s, j + 1);
    DigitsEndIsRunEnd(s, b + 1);
    var t := s[j + 1..c];
    assert t[b - (j + 1)] == '.';
    assert forall k :: 0 <= k < |t| && k != b - (j + 1) ==> IsDigit(t[k]) by {
      forall k | 0 <= k < |t| && k != b - (j + 1) ensures IsDigit(t[k]) {
        assert t[k] == s[j + 1 + k];
      }
    }
  }

  /** The last j below bound at which the decimal part matches. */
  function LastDecimal(s: string, bound: nat): (r: Option<(nat, nat)>)
    requires bound <= |s|
    ensures r.Some? ==> r.value.0 < bound && DecimalEnd(s, r.value.0) == Some(r.value.1)
  {
    if bound == 0 then None
    else if DecimalEnd(s, bound - 1).Some? then Some((bound - 1, DecimalEnd(s, bound - 1).value))
    else LastDecimal(s, bound - 1)
  }

  /** LastDecimal finds the last match below the bound, and none when there is none. */
  lemma {:induction false} LastDecimalIsLast(s: string, bound: nat)
    requires bound <= |s|
    ensures LastDecimal(s, bound).Some? ==> forall j :: LastDecimal(s, bound).value.0 < j < bound ==> DecimalEnd(s, j).None?
    ensures LastDecimal(s, bound).None? ==> forall j :: 0 <= j < bound ==> DecimalEnd(s, j).None?
  {
    if bound > 0 && DecimalEnd(s, bound - 1).None? {
      LastDecimalIsLast(s, bound - 1);
    }
  }

  /** Whether "ms" and a digit start at i. */
  predicate MsDigitAt(s: string, i: int)
  {
    OccursAt(s, "ms", i) && i + 2 < |s| && IsDigit(s[i + 2])
  }

  /** The first i at or after from with "ms" and a digit at i and room for the rest before bound. */
  function FirstMsDigit(s: string, from: nat, bound: nat): (r: Option<nat>)
    ensures r.Some? ==> from <= r.value && r.value + 3 <= bound && MsDigitAt(s, r.value)
    decreases bound - from
  {
    if from + 3 > bound then None
    else if MsDigitAt(s, from) then Some(from)
    else FirstMsDigit(s, from + 1, bound)
  }

  /** FirstMsDigit finds the first "ms" and digit with room before the bound, and none when there is none. */
  lemma {:induction false} FirstMsDigitIsFirst(s: string, from: nat, bound: nat)
    ensures FirstMsDigit(s, from, bound).Some? ==> forall i :: from <= i < FirstMsDigit(s, from, bound).value ==> !MsDigitAt(s, i)
    ensures FirstMsDigit(s, from, bound).None? ==> forall i :: from <= i && i + 3 <= bound ==> !MsDigitAt(s, i)
    decreases bound - from
  {
    if from + 3 <= bound && !MsDigitAt(s, from) {
      FirstMsDigitIsFirst(s, from + 1, bound);
    }
  }

  /** Matcher.find of ms(\d).* (\d+\.\d+)@ and its two groups. The leftmost match starts at the first
      "ms" and digit that has the decimal part somewhere after it, and the greedy .* makes group 2 the
      last decimal part. */
  function FilterMatch(line: string): Option<(char, string)>
  {
    match LastDecimal(line, |line|)
    case None => None
    case Some((j, k)) =>
      match FirstMsDigit(line, 0, j)
      case None => None
      case Some(i) => Some((line[i + 2], line[j + 1..k]))
  }

  /** The pattern matches exactly when an "ms" and a digit is followed, at least one character later, by
      the decimal part; group 1 is then such a digit and group 2 a decimal. */
  lemma FilterMatchSpec(line: string)
    ensures FilterMatch(line).Some? ==>
              exists i :: 0 <= i < |line| && MsDigitAt(line, i) && line[i + 2] == FilterMatch(line).value.0
    ensures FilterMatch(line).Some? ==> DecimalText(FilterMatch(line).value.1)
    ensures FilterMatch(line).None? <==>
              forall i, j :: 0 <= i && i + 3 <= j < |line| && MsDigitAt(line, i) ==> DecimalEnd(line, j).None?
  {
    LastDecimalIsLast(line, |line|);
    match LastDecimal(line, |line|)
    case None =>
    case Some((j, k)) =>
      DecimalEndMatches(line, j);
      FirstMsDigitIsFirst(line, 0, j);
  }

  // ---------------------------------------------------------------- line steps

  /** The SCAN FILTER line: the ion mode always; MS1 for a full scan, otherwise the level and the parent
      m/z from the pattern, an IOException when it does not match. */
  function FilterStep(f: Fields, line: string, p: Parsers): Result<Fields>
  {
    var f1 := f.(ionMode := Some(IonModeOf(line)));
    if Contains(line, "ms ") then Success(f1.(msn := MS1))
    else match FilterMatch(line)
      case None => Failure("Unexpected CmlSpectrumFactory: " + line)
      case Some((level, mz)) =>
        match GetByText([level])
        case None => Failure("IllegalArgumentException")
        case Some(m) =>
          match p.parseDouble(mz)
          case None => Failure("NumberFormatException")
          case Some(v) => Success(f1.(msn := m, parentMz := v))
  }

  /** One line other than DATA POINTS: the new fields and creation date, or the exception it raises. */
  function LineStep(f: Fields, date: string, line: string, p: Parsers): (r: Result<(Fields, string)>)
    ensures StartsWith(line, "SAMPLE ID: ") || StartsWith(line, "NUMBER OF SCANS: ") ==> r == Success((f, date))
    ensures r.Success? && !StartsWith(line, "CREATION DATE: ") ==> r.value.1 == date
  {
    if StartsWith(line, "ERROR: ") then
      assert line[..|"ERROR: "|][0] == line[0] == 'E';
      Failure(line[|"ERROR: "|..])
    else if StartsWith(line, "SAMPLE ID: ") || StartsWith(line, "NUMBER OF SCANS: ") then Success((f, date))
    else if StartsWith(line, "SCAN NUMBER: ") then
      match p.parseInt(line[|"SCAN NUMBER: "|..])
      case None => Failure("NumberFormatException")
      case Some(n) => Success((f.(scanNumber := n), date))
    else if StartsWith(line, "CREATION DATE: ") then
      match p.parseDouble(line[|"CREATION DATE: "|..])
      case None => Failure("NumberFormatException")
      case Some(v) => Success((f, p.dateText(v)))
    else ScanLineStep(f, date, line, p)
  }

  /** The lines of the chain from BASE PEAK MZ on, which describe the current scan. */
  function ScanLineStep(f: Fields, date: string, line: string, p: Parsers): Result<(Fields, string)>
  {
    if StartsWith(line, "BASE PEAK MZ: ") then
      match p.parseDouble(line[|"BASE PEAK MZ: "|..])
      case None => Failure("NumberFormatException")
      case Some(v) => Success((f.(basePeak := v), date))
    else if StartsWith(line, "BASE PEAK INT: ") then
      match p.parseDouble(line[|"BASE PEAK INT: "|..])
      case None => Failure("NumberFormatException")
      case Some(v) => Success((f.(basePeakIntensity := v), date))
    else if StartsWith(line, "TOTAL ION CURRENT: ") then
      match p.parseDouble(line[|"TOTAL ION CURRENT: "|..])
      case None => Failure("NumberFormatException")
      case Some(v) => Success((f.(totalIonCurrent := v), date))
    else if StartsWith(line, "SCAN FILTER: ") then
      match FilterStep(f, line, p)
      case Failure(e) => Failure(e)
      case Success(f') => Success((f', date))
    else if StartsWith(line, "RETENTION TIME: ") then
      match p.parseDouble(line[|"RETENTION TIME: "|..])
      case None => Failure("NumberFormatException")
      case Some(v) => Success((f.(retentionTime := v * 60.0), date))
    else if StartsWith(line, "PRECURSOR: ") then PrecursorStep(f, date, line, p)
    else Success((f, date))
  }

  /** The PRECURSOR line: both tokens are parsed, and they override the parent m/z and charge only
      when the m/z is positive. */
  function PrecursorStep(f: Fields, date: string, line: string, p: Parsers): Result<(Fields, string)>
  {
    var tokens := SplitOnSpace(line);
    if |tokens| < 3 then Failure("ArrayIndexOutOfBoundsException")
    else match p.parseDouble(tokens[1])
      case None => Failure("NumberFormatException")
      case Some(mz) =>
        match p.parseInt(tokens[2])
        case None => Failure("NumberFormatException")
        case Some(charge) =>
          if mz > 0.0 then Success((f.(parentMz := mz, parentCharge := charge), date)) else Success((f, date))
  }

  /** The (mass, intensity) pairs of n points read from position pos, or EOFException when the stream
      does not hold them. */
  function ReadPeaks(items: seq<Item>, pos: nat, n: int): (r: Result<seq<XYPoint>>)
    requires pos <= |items|
    ensures r.Success? ==> |r.value| == (if n > 0 then n else 0) && pos + |r.value| <= |items|
    ensures r.Success? ==> forall k :: 0 <= k < |r.value| ==>
              items[pos + k] == Peak(r.value[k].x, r.value[k].y)
    decreases if n > 0 then n else 0
  {
    if n <= 0 then Success([])
    else if pos == |items| || !items[pos].Peak? then Failure("EOFException")
    else match ReadPeaks(items, pos + 1, n - 1)
      case Failure(e) => Failure(e)
      case Success(rest) => Success([XYPoint(items[pos].mass, items[pos].intensity)] + rest)
  }

  /** The fields as the scan of a DATA POINTS block receives them: an MSn scan takes the last MS1 scan
      number as its parent, an MS1 scan records its own number as that. */
  function WithParent(f: Fields): Fields
  {
    if Lvl(f.msn) > 1 then f.(parentScan := f.parentScanIndex) else f.(parentScanIndex := f.scanNumber)
  }

  /** The scan a DATA POINTS block builds from the cleaned points. */
  function BuildScan(f: Fields, points: seq<XYPoint>): (r: Scan)
    requires |points| > 0
    ensures r.points == points && r.basePeak == [XYPoint(f.basePeak, f.basePeakIntensity)]
    ensures r.mzRange == Ranges.Interval(points[0].x, points[|points| - 1].x)
    ensures r.index == f.scanNumber && r.msn == f.msn && r.parentScan == f.parentScan
  {
    Scan(f.scanNumber, f.msn, f.ionMode, points, Ranges.Interval(points[0].x, points[|points| - 1].x),
         [XYPoint(f.basePeak, f.basePeakIntensity)], f.retentionTime, f.totalIonCurrent,
         f.parentScan, f.parentCharge, f.parentMz)
  }

  /** The points that reach the scan: cleaned in the mode the centroid test picks. */
  function Optimized(points: seq<XYPoint>): seq<XYPoint>
  {
    Cleaned(points, if Centroided(points) then Centroid else Profile)
  }

  /** The points of a DATA POINTS block, cleaned, and the position after the points read. An empty
      cleaned list has no first point (IndexOutOfBoundsException). */
  function BlockPoints(items: seq<Item>, pos: nat, line: string, p: Parsers): (r: Result<(seq<XYPoint>, nat)>)
    requires pos <= |items| && StartsWith(line, "DATA POINTS: ")
    ensures r.Success? ==> |r.value.0| > 0 && pos <= r.value.1 <= |items|
  {
    match p.parseInt(line[|"DATA POINTS: "|..])
    case None => Failure("NumberFormatException")
    case Some(n) =>
      match ReadPeaks(items, pos, n)
      case Failure(e) => Failure(e)
      case Success(points) =>
        var optimized := Optimized(points);
        if |optimized| == 0 then Failure("IndexOutOfBoundsException") else Success((optimized, pos + |points|))
  }

  /** A DATA POINTS block: the scan it adds and the position after its points. */
  function DataBlock(items: seq<Item>, pos: nat, f: Fields, line: string, p: Parsers): (r: Result<(Scan, nat)>)
    requires pos <= |items| && StartsWith(line, "DATA POINTS: ")
    ensures r.Success? ==> pos <= r.value.1 <= |items|
    ensures r.Success? ==> |r.value.0.points| > 0 && r.value.0 == BuildScan(WithParent(f), r.value.0.points)
  {
    match BlockPoints(items, pos, line, p)
    case Failure(e) => Failure(e)
    case Success((points, next)) => Success((BuildScan(WithParent(f), points), next))
  }

  /** A run at its end or at an empty line finishes there; at binary data it fails. */
  lemma RunStops(items: seq<Item>, pos: nat, f: Fields, date: string, p: Parsers)
    requires pos <= |items|
    ensures pos == |items| || items[pos] == TextLine("") ==> Run(items, pos, f, date, p) == ([], Finished(f, date))
    ensures pos < |items| && items[pos].Peak? ==> Run(items, pos, f, date, p).0 == [] && Run(items, pos, f, date, p).1.Failed?
  {
  }

  /** A run at a DATA POINTS line: the block's scan, then the run after its points with the fields reset. */
  lemma RunAtData(items: seq<Item>, pos: nat, f: Fields, date: string, p: Parsers)
    requires pos < |items| && items[pos].TextLine? && items[pos].text != ""
    requires StartsWith(items[pos].text, "DATA POINTS: ")
    ensures var b := BlockPoints(items, pos + 1, items[pos].text, p);
            var run := Run(items, pos, f, date, p);
            (b.Failure? ==> run == ([], Failed(b.error))) &&
            (b.Success? ==>
               var rest := Run(items, b.value.1, Reset(WithParent(f)), date, p);
               run == ([BuildScan(WithParent(f), b.value.0)] + rest.0, rest.1))
  {
  }

  /** A run at any other non-empty line: the line's step, then the run from the next line. */
  lemma RunAtLine(items: seq<Item>, pos: nat, f: Fields, date: string, p: Parsers)
    requires pos < |items| && items[pos].TextLine? && items[pos].text != ""
    requires !StartsWith(items[pos].text, "DATA POINTS: ")
    ensures var r := LineStep(f, date, items[pos].text, p);
            var run := Run(items, pos, f, date, p);
            (r.Failure? ==> run == ([], Failed(r.error))) &&
            (r.Success? ==> run == Run(items, pos + 1, r.value.0, r.value.1, p))
  {
  }

  /** Whether one list of scans is an initial part of another. */
  predicate IsPrefix(a: seq<Scan>, b: seq<Scan>)
  {
    |a| <= |b| && a == b[..|a|]
  }

  /** Scans added in front of the rest of a run: adding the next ones keeps both facts. */
  lemma PrefixGrows(run: seq<Scan>, added: seq<Scan>, rest: seq<Scan>, stored: seq<Scan>)
    requires added + rest == run && IsPrefix(stored, rest)
    ensures IsPrefix(added + stored, run)
    ensures forall tail :: rest == stored + tail ==> (added + stored) + tail == run
  {
    assert run[..|added| + |stored|] == added + rest[..|stored|];
  }

  /** How a run ends: at a null line with the fields and creation date reached, or with an exception. */
  datatype End = Finished(fields: Fields, date: string) | Failed(message: string)

  /** The reading loop from position pos: the scans handed to addScan, in order, and how it ends. */
  function Run(items: seq<Item>, pos: nat, f: Fields, date: string, p: Parsers): (r: (seq<Scan>, End))
    requires pos <= |items|
    ensures |r.0| <= |items| - pos
    decreases |items| - pos
  {
    if pos == |items| then ([], Finished(f, date))
    else match items[pos]
      case Peak(_, _) => ([], Failed("binary data where a line was expected"))
      case TextLine(line) =>
        if line == "" then ([], Finished(f, date))
        else if StartsWith(line, "DATA POINTS: ") then
          match DataBlock(items, pos + 1, f, line, p)
          case Failure(e) => ([], Failed(e))
          case Success((scan, next)) =>
            var rest := Run(items, next, Reset(WithParent(f)), date, p);
            ([scan] + rest.0, rest.1)
        else
          match LineStep(f, date, line, p)
          case Failure(e) => ([], Failed(e))
          case Success((f', date')) => Run(items, pos + 1, f', date', p)
  }

  // ---------------------------------------------------------------- properties

  /** The scan number of the last MS1 scan in a list, or the given one when there is none. */
  function LastMs1(scans: seq<Scan>, otherwise: int): int
  {
    if |scans| == 0 then otherwise
    else if scans[|scans| - 1].msn == MS1 then scans[|scans| - 1].index
    else LastMs1(scans[..|scans| - 1], otherwise)
  }

  /** Each MS1 scan has parent -1 and each MSn scan the number of the last MS1 scan before it. */
  predicate ParentsAreLastMs1(scans: seq<Scan>, otherwise: int)
  {
    forall j :: 0 <= j < |scans| ==>
      scans[j].parentScan == (if scans[j].msn == MS1 then -1 else LastMs1(scans[..j], otherwise))
  }

  /** Only a DATA POINTS block touches the parent scan fields. */
  lemma LineStepKeepsParentScan(f: Fields, date: string, line: string, p: Parsers)
    ensures LineStep(f, date, line, p).Success? ==>
              LineStep(f, date, line, p).value.0.parentScan == f.parentScan &&
              LineStep(f, date, line, p).value.0.parentScanIndex == f.parentScanIndex
  {
    ScanLineStepKeepsParentScan(f, date, line, p);
  }

  lemma ScanLineStepKeepsParentScan(f: Fields, date: string, line: string, p: Parsers)
    ensures ScanLineStep(f, date, line, p).Success? ==>
              ScanLineStep(f, date, line, p).value.0.parentScan == f.parentScan &&
              ScanLineStep(f, date, line, p).value.0.parentScanIndex == f.parentScanIndex
  {
  }

  /** Every MS1 scan has parent scan -1, and every MSn scan has the number of the last MS1 scan before it
      as its parent. */
  lemma {:induction false} ParentScanIsLastMs1(items: seq<Item>, pos: nat, f: Fields, date: string, p: Parsers)
    requires pos <= |items| && f.parentScan == -1
    ensures ParentsAreLastMs1(Run(items, pos, f, date, p).0, f.parentScanIndex)
    decreases |items| - pos
  {
    if pos < |items| && items[pos].TextLine? && items[pos].text != "" {
      var line := items[pos].text;
      if StartsWith(line, "DATA POINTS: ") {
        var block := DataBlock(items, pos + 1, f, line, p);
        if block.Success? {
          var scan := block.value.0;
          var next := block.value.1;
          var f' := Reset(WithParent(f));
          ParentScanIsLastMs1(items, next, f', date, p);
          var rest := Run(items, next, f', date, p).0;
          var scans := [scan] + rest;
          assert Run(items, pos, f, date, p).0 == scans;
          assert scan.msn == f.msn && scan.index == f.scanNumber;
          assert scan.parentScan == (if scan.msn == MS1 then -1 else f.parentScanIndex);
          assert f'.parentScanIndex == (if scan.msn == MS1 then scan.index else f.parentScanIndex);
          forall j | 0 < j < |scans|
            ensures scans[j].parentScan == (if scans[j].msn == MS1 then -1 else LastMs1(scans[..j], f.parentScanIndex))
          {
            assert scans[j] == rest[j - 1];
            LastMs1Cons(scan, rest[..j - 1], f.parentScanIndex);
            assert scans[..j] == [scan] + rest[..j - 1];
          }
          assert scans[..0] == [];
        }
      } else {
        LineStepKeepsParentScan(f, date, line, p);
        var step := LineStep(f, date, line, p);
        if step.Success? {
          ParentScanIsLastMs1(items, pos + 1, step.value.0, step.value.1, p);
        }
      }
    }
  }

  /** The last MS1 scan of a list with one more scan in front. */
  lemma {:induction false} LastMs1Cons(first: Scan, rest: seq<Scan>, otherwise: int)
    ensures LastMs1([first] + rest, otherwise) ==
            LastMs1(rest, if first.msn == MS1 then first.index else otherwise)
    decreases |rest|
  {
    if |rest| > 0 {
      assert ([first] + rest)[..|rest|] == [first] + rest[..|rest| - 1];
      LastMs1Cons(first, rest[..|rest| - 1], otherwise);
    } else {
      assert ([first] + rest)[..0] == [];
    }
  }

  /** A scan as a DATA POINTS block builds it: points, an m/z range spanning them and one base peak. */
  predicate WellBuilt(s: Scan)
  {
    |s.points| > 0 && |s.basePeak| == 1 &&
    s.mzRange == Ranges.Interval(s.points[0].x, s.points[|s.points| - 1].x)
  }

  predicate AllWellBuilt(scans: seq<Scan>)
  {
    forall j :: 0 <= j < |scans| ==> WellBuilt(scans[j])
  }

  /** Every scan a run adds has points, a base peak and an m/z range from its first to its last point. */
  lemma {:induction false} ScansAreBuiltFromBlocks(items: seq<Item>, pos: nat, f: Fields, date: string, p: Parsers)
    requires pos <= |items|
    ensures AllWellBuilt(Run(items, pos, f, date, p).0)
    decreases |items| - pos
  {
    if pos < |items| && items[pos].TextLine? && items[pos].text != "" {
      var line := items[pos].text;
      if StartsWith(line, "DATA POINTS: ") {
        var block := DataBlock(items, pos + 1, f, line, p);
        if block.Success? {
          ScansAreBuiltFromBlocks(items, block.value.1, Reset(WithParent(f)), date, p);
          var rest := Run(items, block.value.1, Reset(WithParent(f)), date, p).0;
          var scans := [block.value.0] + rest;
          assert Run(items, pos, f, date, p).0 == scans;
          assert forall j :: 0 < j < |scans| ==> scans[j] == rest[j - 1];
        }
      } else {
        var step := LineStep(f, date, line, p);
        if step.Success? {
          ScansAreBuiltFromBlocks(items, pos + 1, step.value.0, step.value.1, p);
          assert Run(items, pos, f, date, p) == Run(items, pos + 1, step.value.0, step.value.1, p);
        }
      }
    }
  }

  /** A filter line holding "ms " gives MS1 and keeps the parent m/z; any other filter line needs the
      pattern, and then its level and parent m/z come from the two groups. */
  lemma FilterLevels(f: Fields, line: string, p: Parsers)
    ensures Contains(line, "ms ") ==>
              FilterStep(f, line, p) == Success(f.(ionMode := Some(IonModeOf(line)), msn := MS1))
    ensures !Contains(line, "ms ") && FilterMatch(line).None? ==> FilterStep(f, line, p).Failure?
    ensures !Contains(line, "ms ") && FilterStep(f, line, p).Success? ==>
              FilterMatch(line).Some? &&
              Lvl(FilterStep(f, line, p).value.msn) == (FilterMatch(line).value.0 as int) - ('0' as int) &&
              Some(FilterStep(f, line, p).value.parentMz) == p.parseDouble(FilterMatch(line).value.1)
  {
    if !Contains(line, "ms ") && FilterStep(f, line, p).Success? {
      var m := FilterMatch(line).value;
      var d := (m.0 as int) - ('0' as int);
      assert [m.0] == IntToString(d);
      GetLevels(d);
    }
  }

  /** An ERROR line ends the run with its remainder as the message. */
  lemma ErrorLineFails(f: Fields, date: string, line: string, p: Parsers)
    requires StartsWith(line, "ERROR: ")
    ensures LineStep(f, date, line, p) == Failure(line[7..])
  {
  }

  /** A line whose first character differs from a prefix's does not start with it. */
  lemma NotPrefix(line: string, prefix: string)
    requires |line| > 0 && |prefix| > 0 && line[0] != prefix[0]
    ensures !StartsWith(line, prefix)
  {
    if |prefix| <= |line| {
      assert line[..|prefix|][0] == line[0];
    }
  }

  /** A PRECURSOR line is handled by the precursor step alone. */
  lemma PrecursorLineDispatch(f: Fields, date: string, line: string, p: Parsers)
    requires StartsWith(line, "PRECURSOR: ")
    ensures LineStep(f, date, line, p) == PrecursorStep(f, date, line, p)
  {
    assert line[..11][0] == line[0];
    NotPrefix(line, "ERROR: ");
    NotPrefix(line, "SAMPLE ID: ");
    NotPrefix(line, "NUMBER OF SCANS: ");
    NotPrefix(line, "SCAN NUMBER: ");
    NotPrefix(line, "CREATION DATE: ");
    NotPrefix(line, "BASE PEAK MZ: ");
    NotPrefix(line, "BASE PEAK INT: ");
    NotPrefix(line, "TOTAL ION CURRENT: ");
    NotPrefix(line, "SCAN FILTER: ");
    NotPrefix(line, "RETENTION TIME: ");
  }

  /** A PRECURSOR line needs three space-separated tokens that parse; it overrides the parent m/z and
      charge exactly when the m/z is positive, and otherwise changes nothing. */
  lemma PrecursorOverridesWhenPositive(f: Fields, date: string, line: string, p: Parsers)
    requires StartsWith(line, "PRECURSOR: ")
    ensures var t := SplitOnSpace(line);
            LineStep(f, date, line, p).Success? <==>
              |t| >= 3 && p.parseDouble(t[1]).Some? && p.parseInt(t[2]).Some?
    ensures var t := SplitOnSpace(line);
            LineStep(f, date, line, p).Success? ==>
              LineStep(f, date, line, p).value ==
                (if p.parseDouble(t[1]).value > 0.0
                 then (f.(parentMz := p.parseDouble(t[1]).value, parentCharge := p.parseInt(t[2]).value), date)
                 else (f, date))
  {
    PrecursorLineDispatch(f, date, line, p);
  }

  /** The fields after a line that raised: all but the ion mode and the level as they were. */
  predicate Unparsed(now: Fields, before: Fields)
  {
    now.(ionMode := before.ionMode, msn := before.msn) == before
  }

  /** The points read so far in front of what a read from the rest of the stream yields. */
  function Prefixed(points: seq<XYPoint>, r: Result<seq<XYPoint>>): Result<seq<XYPoint>>
  {
    if r.Failure? then r else Success(points + r.value)
  }

  /** The reader: its per-scan fields and the container the scans go into. */
  class XCaliburReader {
    var scanNumber: int
    var msn: MSN
    var retentionTime: real
    var basePeak: real
    var basePeakIntensity: real
    var totalIonCurrent: real
    var ionMode: Option<IonMode>
    var parentCharge: int
    var parentScan: int
    var parentScanIndex: int
    var parentMz: real
    const rawContainer: MemoryRawContainer

    function State(): Fields
      reads this
    {
      Fields(scanNumber, msn, retentionTime, basePeak, basePeakIntensity, totalIonCurrent, ionMode,
             parentCharge, parentScan, parentScanIndex, parentMz)
    }

    constructor (container: MemoryRawContainer)
      ensures State() == InitialFields && rawContainer == container
    {
      scanNumber, msn, retentionTime, basePeak, basePeakIntensity, totalIonCurrent := 0, MS1, 0.0, 0.0, 0.0, 0.0;
      ionMode := None;
      parentCharge, parentScan, parentScanIndex, parentMz := 0, -1, -1, 0.0;
      rawContainer := container;
    }

    /** One line other than DATA POINTS. On an exception the fields are as they were, except that a
        SCAN FILTER line may already have set the ion mode and the level. */
    method ApplyLine(line: string, date: string, p: Parsers) returns (error: Option<string>, newDate: string)
      modifies this
      ensures var r := LineStep(old(State()), date, line, p);
              (r.Failure? ==>
                 error == Some(r.error) &&
                 Unparsed(State(), old(State()))) &&
              (r.Success? ==> error == None && State() == r.value.0 && newDate == r.value.1)
    {
      newDate := date;
      error := None;
      if StartsWith(line, "ERROR: ") {
        error := Some(line[|"ERROR: "|..]);
      } else if StartsWith(line, "SAMPLE ID: ") || StartsWith(line, "NUMBER OF SCANS: ") {
      } else if StartsWith(line, "SCAN NUMBER: ") {
        var v := p.parseInt(line[|"SCAN NUMBER: "|..]);
        if v.None? { error := Some("NumberFormatException"); } else { scanNumber := v.value; }
      } else if StartsWith(line, "CREATION DATE: ") {
        var v := p.parseDouble(line[|"CREATION DATE: "|..]);
        if v.None? { error := Some("NumberFormatException"); } else { newDate := p.dateText(v.value); }
      } else {
        error := ApplyScanLine(line, p);
      }
    }

    /** The lines from BASE PEAK MZ on, which set fields of the current scan. */
    method ApplyScanLine(line: string, p: Parsers) returns (error: Option<string>)
      modifies this
      ensures var r := ScanLineStep(old(State()), "", line, p);
              (r.Failure? ==> error == Some(r.error) && Unparsed(State(), old(State()))) &&
              (r.Success? ==> error == None && State() == r.value.0)
    {
      error := None;
      if StartsWith(line, "BASE PEAK MZ: ") {
        var v := p.parseDouble(line[|"BASE PEAK MZ: "|..]);
        if v.None? { error := Some("NumberFormatException"); } else { basePeak := v.value; }
      } else if StartsWith(line, "BASE PEAK INT: ") {
        var v := p.parseDouble(line[|"BASE PEAK INT: "|..]);
        if v.None? { error := Some("NumberFormatException"); } else { basePeakIntensity := v.value; }
      } else if StartsWith(line, "TOTAL ION CURRENT: ") {
        var v := p.parseDouble(line[|"TOTAL ION CURRENT: "|..]);
        if v.None? { error := Some("NumberFormatException"); } else { totalIonCurrent := v.value; }
      } else if StartsWith(line, "SCAN FILTER: ") {
        error := ApplyFilter(line, p);
      } else if StartsWith(line, "RETENTION TIME: ") {
        var v := p.parseDouble(line[|"RETENTION TIME: "|..]);
        if v.None? { error := Some("NumberFormatException"); } else { retentionTime := v.value * 60.0; }
      } else if StartsWith(line, "PRECURSOR: ") {
        var tokens := SplitOnSpace(line);
        if |tokens| < 3 {
          error := Some("ArrayIndexOutOfBoundsException");
        } else {
          var mz := p.parseDouble(tokens[1]);
          var charge := p.parseInt(tokens[2]);
          if mz.None? || charge.None? {
            error := Some("NumberFormatException");
          } else if mz.value > 0.0 {
            parentMz := mz.value;
            parentCharge := charge.value;
          }
        }
      }
    }

    /** The SCAN FILTER line: the ion mode, then the level and the parent m/z. */
    method ApplyFilter(line: string, p: Parsers) returns (error: Option<string>)
      modifies this
      ensures var r := FilterStep(old(State()), line, p);
              (r.Failure? ==>
                 error == Some(r.error) && ionMode == Some(IonModeOf(line)) && Unparsed(State(), old(State()))) &&
              (r.Success? ==> error == None && State() == r.value)
    {
      error := None;
      if Contains(line, " + ") {
        ionMode := Some(Positive);
      } else if Contains(line, " - ") {
        ionMode := Some(Negative);
      } else {
        ionMode := Some(InSilico);
      }
      if Contains(line, "ms ") {
        msn := MS1;
      } else {
        var m := FilterMatch(line);
        if m.None? {
          error := Some("Unexpected CmlSpectrumFactory: " + line);
          return;
        }
        var level := GetByText([m.value.0]);
        if level.None? {
          error := Some("IllegalArgumentException");
          return;
        }
        var mz := p.parseDouble(m.value.1);
        msn := level.value;
        if mz.None? {
          error := Some("NumberFormatException");
          return;
        }
        parentMz := mz.value;
      }
    }

    /** The numOfDataPoints points that follow a DATA POINTS line, read from position pos. */
    method ReadPoints(items: seq<Item>, pos: nat, n: int) returns (points: Result<seq<XYPoint>>)
      requires pos <= |items|
      ensures points == ReadPeaks(items, pos, n)
    {
      var read: seq<XYPoint> := [];
      var i := 0;
      assert ReadPeaks(items, pos, n).Success? ==> [] + ReadPeaks(items, pos, n).value == ReadPeaks(items, pos, n).value;
      while i < n
        invariant 0 <= i && (n > 0 ==> i <= n) && (n <= 0 ==> i == 0)
        invariant pos + i <= |items|
        invariant ReadPeaks(items, pos, n) == Prefixed(read, ReadPeaks(items, pos + i, n - i))
        decreases n - i
      {
        if pos + i == |items| || !items[pos + i].Peak? {
          return Failure("EOFException");
        }
        var point := XYPoint(items[pos + i].mass, items[pos + i].intensity);
        var rest := ReadPeaks(items, pos + i + 1, n - i - 1);
        if rest.Success? {
          assert read + ([point] + rest.value) == (read + [point]) + rest.value;
        }
        read := read + [point];
        i := i + 1;
      }
      assert read + [] == read;
      return Success(read);
    }

    /** Read the points of a DATA POINTS block and clean them in the mode the centroid test picks. */
    method ReadBlock(items: seq<Item>, pos: nat, line: string, p: Parsers) returns (r: Result<(seq<XYPoint>, nat)>)
      requires pos <= |items| && StartsWith(line, "DATA POINTS: ")
      ensures r == BlockPoints(items, pos, line, p)
    {
      var n := p.parseInt(line[|"DATA POINTS: "|..]);
      if n.None? {
        return Failure("NumberFormatException");
      }
      var points := ReadPoints(items, pos, n.value);
      if points.Failure? {
        return Failure(points.error);
      }
      var centroided := IsCentroided(points.value);
      var mode := if centroided then Centroid else Profile;
      var optimized := Cleaned(points.value, mode);
      if |optimized| == 0 {
        return Failure("IndexOutOfBoundsException");
      }
      return Success((optimized, pos + |points.value|));
    }

    /** Hand a scan to the container and, when addScan returns, clear the fields for the next scan. */
    method AddScanAndReset(scan: Scan) returns (error: Option<string>)
      requires rawContainer.Valid()
      modifies this, rawContainer
      ensures rawContainer.Valid() && rawContainer.date == old(rawContainer.date)
      ensures rawContainer.scans == StoredScans(old(rawContainer.scans), scan)
      ensures error == None || error == Some("NullPointerException")
      ensures State() == if error == None then Reset(old(State())) else old(State())
    {
      var completed := rawContainer.AddScan(scan);
      if !completed {
        return Some("NullPointerException");
      }
      ResetFields();
      error := None;
    }

    /** The clean-up of the per-scan fields after a scan. */
    method ResetFields()
      modifies this
      ensures State() == Reset(old(State()))
    {
      scanNumber, msn, retentionTime, parentMz, parentCharge := 0, MS1, 0.0, 0.0, 0;
      parentScan, basePeak, basePeakIntensity, totalIonCurrent := -1, 0.0, 0.0, 0.0;
    }

    /** A DATA POINTS line: read the points, clean them, build the scan from the fields, add it to the
        container and reset the fields. `error` is the exception raised, if any; when addScan raises it
        the scan is in the container and the fields are not reset. */
    method ReadDataPoints(items: seq<Item>, pos: nat, line: string, p: Parsers)
      returns (error: Option<string>, next: nat, ghost stored: Option<Scan>)
      requires pos <= |items| && StartsWith(line, "DATA POINTS: ") && rawContainer.Valid()
      modifies this, rawContainer
      ensures rawContainer.Valid()
      ensures var b := BlockPoints(items, pos, line, p);
              (b.Failure? ==>
                 error == Some(b.error) && stored == None && State() == old(State()) &&
                 rawContainer.scans == old(rawContainer.scans)) &&
              (b.Success? ==>
                 stored == Some(BuildScan(WithParent(old(State())), b.value.0)) && next == b.value.1 &&
                 rawContainer.scans == StoredScans(old(rawContainer.scans), stored.value) &&
                 (error == None || error == Some("NullPointerException")) &&
                 State() == (if error == None then Reset(WithParent(old(State()))) else WithParent(old(State()))))
      ensures rawContainer.date == old(rawContainer.date)
    {
      stored := None;
      next := pos;
      var block := ReadBlock(items, pos, line, p);
      if block.Failure? {
        return Some(block.error), next, stored;
      }
      ghost var scan;
      error, scan := StoreBlock(block.value.0);
      stored := Some(scan);
      next := block.value.1;
    }

    /** The rest of a DATA POINTS line once its block is read: the parent links, the scan built
        from the cleaned points, and its hand-over to the container. */
    method StoreBlock(optimized: seq<XYPoint>) returns (error: Option<string>, ghost scan: Scan)
      requires |optimized| > 0 && rawContainer.Valid()
      modifies this, rawContainer
      ensures rawContainer.Valid() && rawContainer.date == old(rawContainer.date)
      ensures scan == BuildScan(WithParent(old(State())), optimized)
      ensures rawContainer.scans == StoredScans(old(rawContainer.scans), scan)
      ensures error == None || error == Some("NullPointerException")
      ensures State() == if error == None then Reset(WithParent(old(State()))) else WithParent(old(State()))
    {
      var mzRange := new Ranges.ExtendableRange.FromBounds(optimized[0].x, optimized[|optimized| - 1].x);
      if Lvl(msn) > 1 {
        parentScan := parentScanIndex;
      } else {
        parentScanIndex := scanNumber;
      }
      var built := Scan(scanNumber, msn, ionMode, optimized, mzRange.Bounds(),
                        [XYPoint(basePeak, basePeakIntensity)], retentionTime, totalIonCurrent,
                        parentScan, parentCharge, parentMz);
      scan := built;
      error := AddScanAndReset(built);
    }

    /** One pass of the reading loop over a non-empty line at position pos. */
    method Step(items: seq<Item>, pos: nat, date: string, p: Parsers)
      returns (error: Option<string>, next: nat, newDate: string, ghost stored: seq<Scan>)
      requires pos < |items| && items[pos].TextLine? && items[pos].text != "" && rawContainer.Valid()
      modifies this, rawContainer
      ensures rawContainer.Valid() && rawContainer.date == old(rawContainer.date)
      ensures rawContainer.scans == StoredAll(old(rawContainer.scans), stored)
      ensures var before := Run(items, pos, old(State()), date, p);
              |stored| <= 1 && IsPrefix(stored, before.0) &&
              (error.None? ==>
                 pos < next <= |items| &&
                 before.0 == stored + Run(items, next, State(), newDate, p).0 &&
                 before.1 == Run(items, next, State(), newDate, p).1)
    {
      var line := items[pos].text;
      newDate := date;
      if StartsWith(line, "DATA POINTS: ") {
        ghost var f := State();
        RunAtData(items, pos, f, date, p);
        var e, n, s := ReadDataPoints(items, pos + 1, line, p);
        error, next := e, n;
        if s.Some? {
          stored := [s.value];
          assert stored[..0] == [];
        } else {
          stored := [];
        }
      } else {
        ghost var f := State();
        RunAtLine(items, pos, f, date, p);
        error, newDate := ApplyLine(line, date, p);
        next := pos + 1;
        stored := [];
      }
    }

    /** The reading loop of readRawDump, up to a null line or an exception; `date` is the creation date
        read. */
    method ReadLines(items: seq<Item>, p: Parsers) returns (error: Option<string>, date: string, ghost added: seq<Scan>)
      requires rawContainer.Valid()
      modifies this, rawContainer
      ensures rawContainer.Valid() && rawContainer.date == old(rawContainer.date)
      ensures var run := Run(items, 0, old(State()), "", p);
              IsPrefix(added, run.0) && rawContainer.scans == StoredAll(old(rawContainer.scans), added) &&
              (error.None? ==> run.1 == Finished(State(), date) && added == run.0)
    {
      ghost var run := Run(items, 0, State(), "", p);
      ghost var layers0 := rawContainer.scans;
      date := "";
      var pos := 0;
      added := [];
      while pos < |items|
        invariant pos <= |items| && rawContainer.Valid() && rawContainer.date == old(rawContainer.date)
        invariant added + Run(items, pos, State(), date, p).0 == run.0
        invariant Run(items, pos, State(), date, p).1 == run.1
        invariant rawContainer.scans == StoredAll(layers0, added)
        decreases |items| - pos
      {
        if items[pos].Peak? {
          RunStops(items, pos, State(), date, p);
          return Some("binary data where a line was expected"), date, added;
        }
        if items[pos].text == "" {
          break;
        }
        ghost var rest := Run(items, pos, State(), date, p).0;
        var e, next, newDate, stored := Step(items, pos, date, p);
        StoredAllAppend(layers0, added, stored);
        PrefixGrows(run.0, added, rest, stored);
        added := added + stored;
        if e.Some? {
          return e, date, added;
        }
        pos, date := next, newDate;
      }
      RunStops(items, pos, State(), date, p);
      assert added + [] == added;
      error := None;
    }

    /** readRawDump: read the stream line by line until a null line, then finalise the container with
        the creation date. The scans added are the run's scans in order, all of them when the reading
        ends normally and a prefix when an exception ends it. */
    method ReadRawDump(items: seq<Item>, p: Parsers) returns (error: Option<string>, ghost added: seq<Scan>)
      requires rawContainer.Valid()
      modifies this, rawContainer
      ensures rawContainer.Valid()
      ensures var run := Run(items, 0, old(State()), "", p);
              IsPrefix(added, run.0) && rawContainer.scans == StoredAll(old(rawContainer.scans), added) &&
              (error.None? ==> run.1.Finished? && run.1.fields == State() && added == run.0 &&
                               rawContainer.date == Some(run.1.date) && rawContainer.ticData == None)
    {
      var date;
      error, date, added := ReadLines(items, p);
      if error.Some? {
        return;
      }
      var completed := rawContainer.FinaliseFile(Some(date));
      if !completed {
        return Some("NullPointerException"), added;
      }
    }
  }
}
