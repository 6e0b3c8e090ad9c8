/** Library-wide constants and the MS level enumeration (MSN). */
module Constants {
  import opened Wrappers

  /** Parts per million, 10^6. */
  const PPM: real := 1_000_000.0
  const MAX_ABUNDANCE: real := 1000.0
  const MIN_ABUNDANCE: real := 0.0

  /** The five MS levels; the fifth constant is named `MSn`, not `MS5`. */
  datatype MSN = MS1 | MS2 | MS3 | MS4 | MSn

  datatype IonMode = Positive | Negative | InSilico | Neutral

  datatype AcquisitionMode = Centroid | Profile

  /** MSN.getLvl: the numeric level carried by each constant. */
  function Lvl(m: MSN): (r: int)
    ensures 1 <= r <= 5
    ensures r == 5 <==> m == MSn
  {
    match m
    case MS1 => 1
    case MS2 => 2
    case MS3 => 3
    case MS4 => 4
    case MSn => 5
  }

  /** The constant's declared name, as `valueOf` matches it. */
  function Name(m: MSN): string
  {
    match m
    case MS1 => "MS1"
    case MS2 => "MS2"
    case MS3 => "MS3"
    case MS4 => "MS4"
    case MSn => "MSn"
  }

  /** `MSN.valueOf(name)`: None stands for the IllegalArgumentException of an unknown name. */
  function ValueOf(name: string): (r: Option<MSN>)
    ensures r.Some? ==> Name(r.value) == name
    ensures r.None? ==> forall m: MSN :: Name(m) != name
  {
    if name == "MS1" then Some(MS1)
    else if name == "MS2" then Some(MS2)
    else if name == "MS3" then Some(MS3)
    else if name == "MS4" then Some(MS4)
    else if name == "MSn" then Some(MSn)
    else None
  }

  /** Decimal text of an int, as Java's string concatenation writes it. */
  function IntToString(v: int): string
    decreases if v < 0 then 1 - v else v
  {
    if v < 0 then "-" + IntToString(-v)
    else if v < 10 then [DigitChar(v)]
    else IntToString(v / 10) + [DigitChar(v % 10)]
  }

  function DigitChar(d: int): char
    requires 0 <= d < 10
  {
    "0123456789"[d]
  }

  /** MSN.get(int): the constant named "MS" + value. */
  function Get(value: int): (r: Option<MSN>)
  {
    ValueOf("MS" + IntToString(value))
  }

  /** MSN.get(String): the constant named "MS" + value. */
  function GetByText(value: string): (r: Option<MSN>)
    ensures r.Some? <==> value in {"1", "2", "3", "4", "n"}
    ensures r.Some? ==> Name(r.value) == "MS" + value
  {
    var t := "MS" + value;
    assert t[..2] == "MS" && t[2..] == value;
    ValueOf(t)
  }

  /** get(v) names a constant exactly for v in 1..4, and that constant has level v. */
  lemma GetLevels(v: int)
    ensures Get(v).Some? <==> 1 <= v <= 4
    ensures Get(v).Some? ==> Lvl(Get(v).value) == v
  {
    if v < 0 {
      assert ("MS" + IntToString(v))[2] == '-';
    } else if v < 10 {
      var t := "MS" + IntToString(v);
      assert t == ['M', 'S', "0123456789"[v]];
      if v == 0 { assert t == "MS0"; }
      else if v == 1 { assert t == "MS1"; }
      else if v == 2 { assert t == "MS2"; }
      else if v == 3 { assert t == "MS3"; }
      else if v == 4 { assert t == "MS4"; }
      else { assert t[2] != '1' && t[2] != '2' && t[2] != '3' && t[2] != '4' && t[2] != 'n'; }
    } else {
      var t := "MS" + IntToString(v);
      assert |IntToString(v / 10)| >= 1;
      assert |t| >= 4;
    }
  }

  /** get(lvl) returns every constant but MSn, whose name has no digit. */
  lemma GetOfLvl(m: MSN)
    ensures m != MSn ==> Get(Lvl(m)) == Some(m)
    ensures m == MSn ==> Get(Lvl(m)) == None
  {
    GetLevels(Lvl(m));
  }

  /** MSN.up: MS1 stays, every other level goes one level up the tree. */
  function Up(m: MSN): (r: MSN)
    ensures m == MS1 ==> r == MS1
    ensures m != MS1 ==> Lvl(r) == Lvl(m) - 1
  {
    GetLevels(Lvl(m) - 1);
    if m == MS1 then MS1 else Get(Lvl(m) - 1).value
  }

  /** MSN.down as written: `get(ms + 1)`, which has no constant to return for MS4. */
  function DownAsWritten(m: MSN): (r: Option<MSN>)
    ensures r.Some? <==> m != MS4
    ensures m == MSn ==> r == Some(MSn)
    ensures m != MSn && r.Some? ==> Lvl(r.value) == Lvl(m) + 1
  {
    GetLevels(Lvl(m) + 1);
    if m == MSn then Some(MSn) else Get(Lvl(m) + 1)
  }

  /** MS4.down() throws because get(5) looks for a constant named "MS5". */
  lemma DownAsWrittenFailsOnMS4()
    ensures DownAsWritten(MS4) == None
  {
  }

  /** MSN.down as evidently intended: the next level, MSn for both MS4 and MSn. */
  function Down(m: MSN): (r: MSN)
    ensures m == MSn ==> r == MSn
    ensures m != MSn ==> Lvl(r) == Lvl(m) + 1
    ensures m != MS4 ==> DownAsWritten(m) == Some(r)
  {
    match m
    case MS1 => MS2
    case MS2 => MS3
    case MS3 => MS4
    case MS4 => MSn
    case MSn => MSn
  }

  /** up and down are inverse away from the ends of the level chain. */
  lemma UpDown(m: MSN)
    ensures m != MSn ==> Up(Down(m)) == m
    ensures m != MS1 ==> Down(Up(m)) == m
  {
  }
}
