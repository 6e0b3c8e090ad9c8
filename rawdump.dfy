/** RAWdump: the helper that dumps a Thermo RAW file as a line-and-binary record stream. The closed
    vendor library is replaced by a VendorFile value holding the results its calls return; the model
    is the order and content of what the helper writes and its exit code. */
module RawDump {
  import opened Wrappers
  import opened Constants
  import opened Strings

  /** A VARIANT as the trailer lookups return it: only the tags the helper tests are distinguished. */
  datatype Variant = R4(single: real) | R8(double: real) | I2(short: int) | VtError | OtherTag

  /** One (mass, intensity) entry of the vendor mass list; written as 16 raw bytes. */
  datatype DataPeak = DataPeak(mass: real, intensity: real)

  /** What the vendor library reports for one scan number. */
  datatype VendorScan = VendorScan(
    filter: Option<string>, retentionTimeInMinutes: real, totalIonCurrent: real,
    basePeakMz: real, basePeakIntensity: real,
    monoisotopicMz: Variant, chargeState: Variant, massList: seq<DataPeak>)

  /** What the vendor library and the file system report for one run of the helper. */
  datatype VendorFile = VendorFile(
    comInitialised: bool, instanceCreated: bool, readable: bool, openSucceeded: bool,
    firstScanFound: bool, firstScanNumber: int, lastScanNumber: int, sampleId: Option<string>,
    creationDate: real, scans: seq<VendorScan>, closed: bool)

  /** One scan record per scan number from first to last. */
  predicate WellFormed(file: VendorFile)
  {
    |file.scans| == if file.lastScanNumber >= file.firstScanNumber then file.lastScanNumber - file.firstScanNumber + 1 else 0
  }

  /** A record of the output stream: each one a line, except Data, the raw bytes of the mass list. */
  datatype Record =
    | Error(message: string)
    | SampleId(id: string)
    | NumberOfScans(count: int)
    | ScanNumber(number: int)
    | ScanFilter(filter: string)
    | CreationDate(date: real)
    | RetentionTime(minutes: real)
    | TotalIonCurrent(tic: real)
    | BasePeakMz(mz: real)
    | BasePeakInt(intensity: real)
    | Precursor(mz: real, charge: int)
    | DataPoints(count: int)
    | Data(peaks: seq<DataPeak>)

  /** The raw byte length of a record's binary part: 16 bytes per peak. */
  function BinaryLength(r: Record): nat
  {
    if r.Data? then 16 * |r.peaks| else 0
  }

  /** strstr(filter, "ms ") != NULL: the filter of a full MS1 scan. */
  predicate HasMsMarker(filter: string)
  {
    Contains(filter, "ms ")
  }

  /** The precursor m/z: an R4 widened, an R8 copied, any other tag 0. */
  function PrecursorMz(v: Variant): real
  {
    match v
    case R4(x) => x
    case R8(x) => x
    case _ => 0.0
  }

  /** The precursor charge: set only from an I2, otherwise 0. */
  function PrecursorCharge(v: Variant): int
  {
    if v.I2? then v.short else 0
  }

  /** The records one scan writes, given its filter. */
  function ScanRecords(s: VendorScan, number: int, filter: string, creationDate: real): seq<Record>
  {
    [ScanNumber(number), ScanFilter(filter), CreationDate(creationDate), RetentionTime(s.retentionTimeInMinutes),
     TotalIonCurrent(s.totalIonCurrent), BasePeakMz(s.basePeakMz), BasePeakInt(s.basePeakIntensity)] +
    (if HasMsMarker(filter) then [] else [Precursor(PrecursorMz(s.monoisotopicMz), PrecursorCharge(s.chargeState))]) +
    [DataPoints(|s.massList|), Data(s.massList)]
  }

  /** The records of the scans from offset k on, and whether every one of them had a filter line. */
  function ScansFrom(file: VendorFile, k: nat): (seq<Record>, bool)
    requires k <= |file.scans|
    decreases |file.scans| - k
  {
    if k == |file.scans| then ([], true)
    else
      var s := file.scans[k];
      var number := file.firstScanNumber + k;
      if s.filter.None? then ([Error("Could not extract scan filter line for scan #" + IntToString(number))], false)
      else
        var rest := ScansFrom(file, k + 1);
        (ScanRecords(s, number, s.filter.value, file.creationDate) + rest.0, rest.1)
  }

  /** The records written before the scan loop once the file is open. */
  function Header(file: VendorFile): seq<Record>
  {
    (if file.sampleId.Some? then [SampleId(file.sampleId.value)] else [Error("Unable to get sample id")]) +
    [NumberOfScans(file.lastScanNumber - file.firstScanNumber + 1)]
  }

  /** main: the output and the exit code of one run. */
  function Dump(args: seq<string>, file: VendorFile): (seq<Record>, int)
    requires WellFormed(file)
  {
    if |args| != 1 then ([Error("This program accepts exactly 1 argument: a RAW file path")], 1)
    else if !file.comInitialised then ([Error("Unable to initialize COM")], 1)
    else if !file.instanceCreated then ([Error("Unable to initialize RAW file object, have you installed MSFileReader?")], 1)
    else if !file.readable then ([Error("Unable to read file " + args[0])], 1)
    else if !file.openSucceeded then ([Error("Unable to open RAW file " + args[0])], 1)
    else if !file.firstScanFound then ([Error("Unable to get first scan")], 1)
    else
      var body := ScansFrom(file, 0);
      if !body.1 then (Header(file) + body.0, 1)
      else if !file.closed then (Header(file) + body.0 + [Error("Error trying to close the RAW file")], 1)
      else (Header(file) + body.0, 0)
  }

  method RawDumpMain(args: seq<string>, file: VendorFile) returns (out: seq<Record>, exitCode: int)
    requires WellFormed(file)
    ensures (out, exitCode) == Dump(args, file)
  {
    if |args| != 1 {
      return [Error("This program accepts exactly 1 argument: a RAW file path")], 1;
    }
    if !file.comInitialised { return [Error("Unable to initialize COM")], 1; }
    if !file.instanceCreated {
      return [Error("Unable to initialize RAW file object, have you installed MSFileReader?")], 1;
    }
    var filename := args[0];
    if !file.readable { return [Error("Unable to read file " + filename)], 1; }
    if !file.openSucceeded { return [Error("Unable to open RAW file " + filename)], 1; }
    if !file.firstScanFound { return [Error("Unable to get first scan")], 1; }

    out := [];
    if file.sampleId.None? {
      out := out + [Error("Unable to get sample id")];
    } else {
      out := out + [SampleId(file.sampleId.value)];
    }
    var totalNumScans := (file.lastScanNumber - file.firstScanNumber) + 1;
    out := out + [NumberOfScans(totalNumScans)];
    assert out == Header(file);
    var scanRecords, complete := WriteScans(file);
    out := out + scanRecords;
    if !complete { return out, 1; }
    if !file.closed {
      return out + [Error("Error trying to close the RAW file")], 1;
    }
    return out, 0;
  }

  /** The scan loop: scans first..last in increasing order, aborting at a missing filter line. */
  method WriteScans(file: VendorFile) returns (out: seq<Record>, complete: bool)
    requires WellFormed(file)
    ensures (out, complete) == ScansFrom(file, 0)
  {
    out := [];
    var curScanNum := file.firstScanNumber;
    while curScanNum <= file.lastScanNumber
      invariant |file.scans| == 0 ==> curScanNum == file.firstScanNumber
      invariant 0 <= curScanNum - file.firstScanNumber <= |file.scans|
      invariant out + ScansFrom(file, curScanNum - file.firstScanNumber).0 == ScansFrom(file, 0).0
      invariant ScansFrom(file, curScanNum - file.firstScanNumber).1 == ScansFrom(file, 0).1
      decreases file.lastScanNumber - curScanNum
    {
      ScansFromStep(file, curScanNum - file.firstScanNumber);
      var s := file.scans[curScanNum - file.firstScanNumber];
      if s.filter.None? {
        out := out + [Error("Could not extract scan filter line for scan #" + IntToString(curScanNum))];
        return out, false;
      }
      var records := WriteScan(s, curScanNum, s.filter.value, file.creationDate);
      AppendShift(out, records, ScansFrom(file, curScanNum - file.firstScanNumber + 1).0,
                  ScansFrom(file, curScanNum - file.firstScanNumber).0, ScansFrom(file, 0).0);
      out := out + records;
      curScanNum := curScanNum + 1;
    }
    assert curScanNum - file.firstScanNumber == |file.scans|;
    assert ScansFrom(file, |file.scans|) == ([], true);
    assert out + [] == out;
    return out, true;
  }

  /** One scan of the loop: a missing filter line ends the records with an error, otherwise the scan's
      records come before those of the scans after it. */
  lemma ScansFromStep(file: VendorFile, k: nat)
    requires k < |file.scans|
    ensures file.scans[k].filter.None? ==>
              ScansFrom(file, k) ==
              ([Error("Could not extract scan filter line for scan #" + IntToString(file.firstScanNumber + k))], false)
    ensures file.scans[k].filter.Some? ==>
              ScansFrom(file, k).1 == ScansFrom(file, k + 1).1 &&
              ScansFrom(file, k).0 ==
              ScanRecords(file.scans[k], file.firstScanNumber + k, file.scans[k].filter.value, file.creationDate) +
              ScansFrom(file, k + 1).0
  {
  }

  /** Moving a finished block of output from the part still to write to the part written. */
  lemma AppendShift<T>(done: seq<T>, block: seq<T>, rest: seq<T>, todo: seq<T>, total: seq<T>)
    requires done + todo == total && todo == block + rest
    ensures (done + block) + rest == total
  {
    assert done + (block + rest) == (done + block) + rest;
  }

  /** The body of the scan loop once the filter line is known. */
  method WriteScan(s: VendorScan, curScanNum: int, thermoFilterLine: string, creationDate: real) returns (out: seq<Record>)
    ensures out == ScanRecords(s, curScanNum, thermoFilterLine, creationDate)
  {
    out := [ScanNumber(curScanNum), ScanFilter(thermoFilterLine)];
    out := out + [CreationDate(creationDate), RetentionTime(s.retentionTimeInMinutes),
                  TotalIonCurrent(s.totalIonCurrent), BasePeakMz(s.basePeakMz), BasePeakInt(s.basePeakIntensity)];
    if !HasMsMarker(thermoFilterLine) {
      var precursorMz := 0.0;
      var precursorCharge := 0;
      match s.monoisotopicMz {
        case R4(x) => precursorMz := x;
        case R8(x) => precursorMz := x;
        case VtError =>
        case OtherTag => precursorMz := 0.0;
        case I2(_) => precursorMz := 0.0;
      }
      if s.chargeState.I2? { precursorCharge := s.chargeState.short; }
      out := out + [Precursor(precursorMz, precursorCharge)];
    }
    out := out + [DataPoints(|s.massList|), Data(s.massList)];
  }

  /** The scan numbers of a record stream, in order. */
  function ScanNumbers(out: seq<Record>): seq<int>
  {
    if |out| == 0 then []
    else ScanNumbers(out[..|out| - 1]) + (if out[|out| - 1].ScanNumber? then [out[|out| - 1].number] else [])
  }

  lemma {:induction false} ScanNumbersAppend(a: seq<Record>, b: seq<Record>)
    ensures ScanNumbers(a + b) == ScanNumbers(a) + ScanNumbers(b)
    decreases |b|
  {
    if |b| > 0 {
      assert (a + b)[..|a + b| - 1] == a + b[..|b| - 1];
      ScanNumbersAppend(a, b[..|b| - 1]);
    } else {
      assert a + b == a;
    }
  }

  /** The consecutive scan numbers lo, lo + 1, ..., hi. */
  function NumbersFrom(lo: int, hi: int): (r: seq<int>)
    ensures |r| == if hi >= lo then hi - lo + 1 else 0
    ensures forall i :: 0 <= i < |r| ==> r[i] == lo + i
    decreases hi - lo
  {
    if hi < lo then [] else [lo] + NumbersFrom(lo + 1, hi)
  }

  /** A run with every filter present visits the scans first..last, each once, in increasing order. */
  lemma {:induction false} ScansVisitedInOrder(file: VendorFile, k: nat)
    requires WellFormed(file) && k <= |file.scans|
    requires ScansFrom(file, k).1
    ensures ScanNumbers(ScansFrom(file, k).0) == NumbersFrom(file.firstScanNumber + k, file.lastScanNumber)
    decreases |file.scans| - k
  {
    if k < |file.scans| {
      var s := file.scans[k];
      var n := file.firstScanNumber + k;
      var head := ScanRecords(s, n, s.filter.value, file.creationDate);
      var rest := ScansFrom(file, k + 1);
      assert ScansFrom(file, k).0 == head + rest.0;
      ScansVisitedInOrder(file, k + 1);
      ScanRecordsHaveOneNumber(s, n, s.filter.value, file.creationDate);
      NumbersCons(head, rest.0, n, file.lastScanNumber);
    }
  }

  lemma NumbersCons(head: seq<Record>, rest: seq<Record>, n: int, hi: int)
    requires n <= hi && ScanNumbers(head) == [n] && ScanNumbers(rest) == NumbersFrom(n + 1, hi)
    ensures ScanNumbers(head + rest) == NumbersFrom(n, hi)
  {
    ScanNumbersAppend(head, rest);
  }

  lemma ScanRecordsHaveOneNumber(s: VendorScan, n: int, filter: string, date: real)
    ensures ScanNumbers(ScanRecords(s, n, filter, date)) == [n]
  {
    var rs := ScanRecords(s, n, filter, date);
    var head := [ScanNumber(n)];
    var tail := rs[1..];
    assert rs == head + tail;
    assert forall i :: 0 <= i < |tail| ==> !tail[i].ScanNumber?;
    NoScanNumbers(tail);
    ScanNumbersAppend(head, tail);
    assert ScanNumbers(head) == ScanNumbers([]) + [n];
  }

  lemma {:induction false} NoScanNumbers(out: seq<Record>)
    requires forall i :: 0 <= i < |out| ==> !out[i].ScanNumber?
    ensures ScanNumbers(out) == []
  {
    if |out| > 0 {
      NoScanNumbers(out[..|out| - 1]);
    }
  }

  /** A scan writes a PRECURSOR line iff its filter lacks "ms ", with the coerced variant values. */
  lemma PrecursorIffNoMsMarker(s: VendorScan, n: int, filter: string, date: real)
    ensures (exists i :: 0 <= i < |ScanRecords(s, n, filter, date)| && ScanRecords(s, n, filter, date)[i].Precursor?)
            <==> !HasMsMarker(filter)
    ensures !HasMsMarker(filter) ==>
              ScanRecords(s, n, filter, date)[7] == Precursor(PrecursorMz(s.monoisotopicMz), PrecursorCharge(s.chargeState))
  {
    var rs := ScanRecords(s, n, filter, date);
    if HasMsMarker(filter) {
      assert forall i :: 0 <= i < |rs| ==> !rs[i].Precursor?;
    } else {
      assert rs[7].Precursor?;
    }
  }

  /** Each DATA POINTS line of a scan is followed by exactly 16 bytes for each point it announces. */
  lemma DataFollowsCount(s: VendorScan, n: int, filter: string, date: real)
    ensures var rs := ScanRecords(s, n, filter, date);
            rs[|rs| - 2] == DataPoints(|s.massList|) && BinaryLength(rs[|rs| - 1]) == 16 * rs[|rs| - 2].count
  {
  }

  /** An argument count other than one writes a single error and exits 1 before any vendor call. */
  lemma DumpRejectsArguments(args: seq<string>, file: VendorFile)
    requires WellFormed(file) && |args| != 1
    ensures Dump(args, file).1 == 1 && |Dump(args, file).0| == 1 && Dump(args, file).0[0].Error?
  {
  }

  /** An unreadable file writes only its error line and exits 1. */
  lemma DumpRejectsUnreadable(args: seq<string>, file: VendorFile)
    requires WellFormed(file) && |args| == 1 && file.comInitialised && file.instanceCreated && !file.readable
    ensures Dump(args, file) == ([Error("Unable to read file " + args[0])], 1)
  {
  }

  /** A scan without a filter line stops the scan loop unfinished, whatever comes after it. */
  lemma {:induction false} MissingFilterAborts(file: VendorFile, j: nat, k: nat)
    requires j <= k < |file.scans| && file.scans[k].filter.None?
    ensures !ScansFrom(file, j).1
    decreases k - j
  {
    if j < k {
      MissingFilterAborts(file, j + 1, k);
    }
  }

  /** Once the file is open, a scan without a filter line makes the run exit with 1, its error line last. */
  lemma DumpAbortsWithoutFilter(args: seq<string>, file: VendorFile, k: nat)
    requires WellFormed(file) && |args| == 1
    requires file.comInitialised && file.instanceCreated && file.readable && file.openSucceeded && file.firstScanFound
    requires k < |file.scans| && file.scans[k].filter.None?
    ensures Dump(args, file).1 == 1
    ensures Dump(args, file).0[|Dump(args, file).0| - 1].Error?
  {
    MissingFilterAborts(file, 0, k);
    AbortEndsWithError(file, 0);
  }

  /** An unfinished scan loop ends with its error line. */
  lemma {:induction false} AbortEndsWithError(file: VendorFile, j: nat)
    requires j <= |file.scans| && !ScansFrom(file, j).1
    ensures |ScansFrom(file, j).0| > 0 && ScansFrom(file, j).0[|ScansFrom(file, j).0| - 1].Error?
    decreases |file.scans| - j
  {
    if j < |file.scans| && file.scans[j].filter.Some? {
      AbortEndsWithError(file, j + 1);
    }
  }

  /** A successful run announces last - first + 1 scans and writes one SCAN NUMBER per scan, in order. */
  lemma DumpSucceeds(args: seq<string>, file: VendorFile)
    requires WellFormed(file) && Dump(args, file).1 == 0
    ensures Dump(args, file).0[|Header(file)| - 1] == NumberOfScans(file.lastScanNumber - file.firstScanNumber + 1)
    ensures ScanNumbers(Dump(args, file).0) == NumbersFrom(file.firstScanNumber, file.lastScanNumber)
  {
    var body := ScansFrom(file, 0);
    assert body.1 && Dump(args, file).0 == Header(file) + body.0;
    assert (Header(file) + body.0)[|Header(file)| - 1] == Header(file)[|Header(file)| - 1];
    ScansVisitedInOrder(file, 0);
    ScanNumbersAppend(Header(file), body.0);
    NoScanNumbers(Header(file));
  }
}
