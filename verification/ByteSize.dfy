/**
 Memory and disk sizes: printed in gigabytes with at most two decimals, read with any of the units
 of Kubernetes.  Arithmetic is exact; the floating point of the service is not modelled.
 */
module ByteSize {
  import opened Prelude
  import opened Text
  import opened Patterns
  import opened Rounding

  // -------------------------------------------------------------- serializing

  const GIGABYTE := 1_000_000_000
  const HUNDREDTH := 10_000_000

  datatype SizeError = NegativeValue | UnexpectedFormat | UnknownUnit | NotANumber

  function Pow10(n: nat): (r: nat)
    ensures r > 0
  {
    if n == 0 then 1 else 10 * Pow10(n - 1)
  }

  function TwoDigits(h: nat): string
    requires h < 100
  {
    [DigitChar(h / 10), DigitChar(h % 10)]
  }

  /** ByteSizeField._serialize */
  function Serialize(value: int): Result<string, SizeError> {
    if value < 0 then Err(NegativeValue)
    else if value % GIGABYTE > 0 then
      var hundredths := RoundHalfEven(value, HUNDREDTH);
      Ok(Decimal(hundredths / 100) + "." + TwoDigits(hundredths % 100) + "G")
    else Ok(Decimal(value / GIGABYTE) + "G")
  }

  // ------------------------------------------------------------ deserializing

  const UNITS: map<string, nat> := map[
    "b" := 1,
    "kb" := 1000, "mb" := 1000_000, "gb" := 1000_000_000, "tb" := 1000_000_000_000,
    "pb" := 1000_000_000_000_000, "eb" := 1000_000_000_000_000_000,
    "k" := 1000, "m" := 1000_000, "g" := 1000_000_000, "t" := 1000_000_000_000,
    "p" := 1000_000_000_000_000, "e" := 1000_000_000_000_000_000,
    "ki" := 1024, "mi" := 1024 * 1024, "gi" := 1024 * 1024 * 1024, "ti" := 1024 * 1024 * 1024 * 1024,
    "pi" := 1024 * 1024 * 1024 * 1024 * 1024, "ei" := 1024 * 1024 * 1024 * 1024 * 1024 * 1024]

  predicate IsUnitChar(ch: char) {
    ch in "EPTGMKeptgmkbBi"
  }

  predicate UnitText(s: string) {
    forall k | 0 <= k < |s| :: IsUnitChar(s[k])
  }

  function DigitRun(s: string): (run: string)
    ensures run <= s && Digits(run) && (|run| < |s| ==> !IsDigit(s[|run|]))
  {
    if s == "" || !IsDigit(s[0]) then "" else [s[0]] + DigitRun(s[1..])
  }

  function UnitRun(s: string): (run: string)
    ensures run <= s && UnitText(run) && (|run| < |s| ==> !IsUnitChar(s[|run|]))
  {
    if s == "" || !IsUnitChar(s[0]) then "" else [s[0]] + UnitRun(s[1..])
  }

  /** A size as it is written. */
  datatype Written = Written(whole: string, dot: bool, fraction: string, unit: string)

  /** The groups of the pattern, and what is left behind them. */
  function Scan(s: string): (r: (Written, string))
    ensures Digits(r.0.whole) && Digits(r.0.fraction) && UnitText(r.0.unit) && (!r.0.dot ==> r.0.fraction == "")
  {
    var whole := DigitRun(s);
    var rest := s[|whole|..];
    var dot := rest != "" && rest[0] == '.';
    var behindDot := if dot then rest[1..] else rest;
    var fraction := if dot then DigitRun(behindDot) else "";
    var behindNumber := behindDot[|fraction|..];
    var unit := UnitRun(behindNumber);
    (Written(whole, dot, fraction, unit), behindNumber[|unit|..])
  }

  function Factor(unit: string): Option<nat> {
    if unit == "" then Some(1) else if Lower(unit) in UNITS then Some(UNITS[Lower(unit)]) else None
  }

  /** As near to the quotient as an integer can be, and even when two are equally near. */
  predicate IsNearest(number: int, scale: int, v: int) {
    var off := 2 * (number - v * scale);
    -scale <= off <= scale && (off == scale || off == -scale ==> v % 2 == 0)
  }

  /** The size in bytes, rounded. */
  function BytesOf(w: Written, factor: nat): (bytes: nat)
    requires Digits(w.whole) && Digits(w.fraction)
    ensures IsNearest(DigitsValue(w.whole + w.fraction) * factor, Pow10(|w.fraction|), bytes)
  {
    RoundsToNearest(DigitsValue(w.whole + w.fraction) * factor, Pow10(|w.fraction|));
    RoundHalfEven(DigitsValue(w.whole + w.fraction) * factor, Pow10(|w.fraction|))
  }

  /** ByteSizeField._deserialize; a unit needs a digit or a dot before it, also an empty one. */
  function Deserialize(s: string): Result<nat, SizeError> {
    var (w, left) := Scan(s);
    if (w.whole == "" && !w.dot) || !AtEnd(left) then Err(UnexpectedFormat)
    else if Factor(w.unit).None? then Err(UnknownUnit)
    else if w.whole == "" && w.fraction == "" then Err(NotANumber)
    else Ok(BytesOf(w, Factor(w.unit).value))
  }

  // ------------------------------------------------------- reading what is written

  function TextOf(w: Written): string {
    w.whole + ((if w.dot then "." else "") + (w.fraction + w.unit))
  }

  /** The place of a letter among kilo, mega, giga, tera, peta and exa; 0 for other characters. */
  function Rank(c: char): nat {
    match c
    case 'k' => 1 case 'K' => 1
    case 'm' => 2 case 'M' => 2
    case 'g' => 3 case 'G' => 3
    case 't' => 4 case 'T' => 4
    case 'p' => 5 case 'P' => 5
    case 'e' => 6 case 'E' => 6
    case _ => 0
  }

  const DECIMAL_UNITS: seq<nat> := [
    1, 1_000, 1_000_000, 1_000_000_000, 1_000_000_000_000, 1_000_000_000_000_000, 1_000_000_000_000_000_000]
  const BINARY_UNITS: seq<nat> := [
    1, 1_024, 1_048_576, 1_073_741_824, 1_099_511_627_776, 1_125_899_906_842_624, 1_152_921_504_606_846_976]

  /** The bytes in a unit that can be written, and 0 for any other text; a capital 'I' is not part of a unit. */
  function UnitBytes(unit: string): nat {
    if unit == "" || unit == "b" || unit == "B" then 1
    else if Rank(unit[0]) == 0 || |unit| > 2 then 0
    else if |unit| == 1 || unit[1] == 'b' || unit[1] == 'B' then DECIMAL_UNITS[Rank(unit[0])]
    else if unit[1] == 'i' then BINARY_UNITS[Rank(unit[0])]
    else 0
  }

  lemma OneLetter(c: char)
    ensures !('A' <= c <= 'Z') ==> ([c] in UNITS <==> c == 'b' || Rank(c) > 0)
    ensures Rank(c) > 0 && [c] in UNITS ==> UNITS[[c]] == DECIMAL_UNITS[Rank(c)]
    ensures c == 'b' ==> UNITS[[c]] == 1
  {
  }

  lemma TwoLetters(c: char, d: char)
    ensures !('A' <= c <= 'Z') && !('A' <= d <= 'Z') ==>
              ([c, d] in UNITS <==> Rank(c) > 0 && (d == 'b' || d == 'i'))
    ensures [c, d] in UNITS ==> UNITS[[c, d]] == if d == 'b' then DECIMAL_UNITS[Rank(c)] else BINARY_UNITS[Rank(c)]
  {
  }

  lemma MoreLetters(s: string)
    requires s == "" || |s| > 2
    ensures s !in UNITS
  {
  }

  lemma UnitOfOne(c: char)
    ensures UnitText([c]) && Factor([c]).Some? <==> UnitBytes([c]) > 0
    ensures UnitBytes([c]) > 0 ==> Factor([c]) == Some(UnitBytes([c]))
  {
    OneLetter(LowerChar(c));
    assert Lower([c]) == [LowerChar(c)];
  }

  lemma UnitOfTwo(c: char, d: char)
    ensures UnitText([c, d]) && Factor([c, d]).Some? <==> UnitBytes([c, d]) > 0
    ensures UnitBytes([c, d]) > 0 ==> Factor([c, d]) == Some(UnitBytes([c, d]))
  {
    TwoLetters(LowerChar(c), LowerChar(d));
    assert Lower([c, d]) == [LowerChar(c), LowerChar(d)];
  }

  /** The units that the pattern lets through and the table knows are these, with these values. */
  lemma UnitsAre(unit: string)
    ensures UnitText(unit) && Factor(unit).Some? <==> UnitBytes(unit) > 0
    ensures UnitBytes(unit) > 0 ==> Factor(unit) == Some(UnitBytes(unit))
  {
    if |unit| == 1 {
      assert unit == [unit[0]];
      UnitOfOne(unit[0]);
    } else if |unit| == 2 {
      assert unit == [unit[0], unit[1]];
      UnitOfTwo(unit[0], unit[1]);
    } else {
      MoreLetters(Lower(unit));
    }
  }

  /** A number with a digit in it and a unit that is known. */
  predicate WellWritten(w: Written) {
    && Digits(w.whole) && Digits(w.fraction) && UnitBytes(w.unit) > 0
    && (w.whole != "" || w.fraction != "") && (w.fraction != "" ==> w.dot)
  }

  lemma {:induction false} DigitRunIs(a: string, x: string)
    requires Digits(a) && (x == "" || !IsDigit(x[0]))
    ensures DigitRun(a + x) == a
  {
    if a == "" {
      assert a + x == x;
    } else {
      assert (a + x)[1..] == a[1..] + x;
      DigitRunIs(a[1..], x);
    }
  }

  lemma {:induction false} UnitRunIs(a: string, x: string)
    requires UnitText(a) && (x == "" || !IsUnitChar(x[0]))
    ensures UnitRun(a + x) == a
  {
    hide IsUnitChar;
    if a == "" {
      assert a + x == x;
    } else {
      assert (a + x)[1..] == a[1..] + x;
      UnitRunIs(a[1..], x);
    }
  }

  lemma UnitCharIsNoDigit(ch: char)
    requires IsUnitChar(ch)
    ensures !IsDigit(ch) && ch != '.' && ch != '\n'
  {
  }

  lemma ScanUnit(w: Written, e: string)
    requires WellWritten(w) && AtEnd(e)
    ensures UnitRun(w.unit + e) == w.unit && (w.unit + e)[|w.unit|..] == e
    ensures w.unit + e != "" ==> !IsDigit((w.unit + e)[0]) && (w.unit + e)[0] != '.'
  {
    hide IsUnitChar, Factor;
    assert !IsUnitChar('\n') by {
      if IsUnitChar('\n') { UnitCharIsNoDigit('\n'); }
    }
    UnitsAre(w.unit);
    UnitRunIs(w.unit, e);
    if w.unit != "" {
      UnitCharIsNoDigit(w.unit[0]);
    }
  }

  /** What is behind the digits before the dot. */
  function BehindWhole(w: Written, e: string): string {
    (if w.dot then "." else "") + (w.fraction + (w.unit + e))
  }

  lemma ScanNumber(w: Written, e: string)
    requires WellWritten(w) && AtEnd(e)
    ensures var s := TextOf(w) + e; DigitRun(s) == w.whole && s[|w.whole|..] == BehindWhole(w, e)
    ensures w.dot ==>
      DigitRun(w.fraction + (w.unit + e)) == w.fraction && BehindWhole(w, e)[1..] == w.fraction + (w.unit + e)
    ensures BehindWhole(w, e) != "" && BehindWhole(w, e)[0] == '.' <==> w.dot
  {
    hide IsUnitChar, Factor, UnitText, AtEnd, UnitRun, DigitRun;
    ScanUnit(w, e);
    DigitRunIs(w.fraction, w.unit + e);
    var rest := BehindWhole(w, e);
    assert !w.dot ==> rest == w.unit + e;
    Regroup(w.whole, if w.dot then "." else "", w.fraction, w.unit, e);
    DigitRunIs(w.whole, rest);
  }

  lemma ScanReads(w: Written, e: string)
    requires WellWritten(w) && AtEnd(e)
    ensures Scan(TextOf(w) + e) == (w, e)
  {
    hide WellWritten, TextOf, DigitRun, UnitRun, Digits, UnitText, AtEnd;
    ScanNumber(w, e);
    ScanUnit(w, e);
    NoDotNoFraction(w);
    assert w.fraction == "" ==> w.fraction + (w.unit + e) == w.unit + e;
    assert !w.dot ==> BehindWhole(w, e) == w.unit + e;
    assert (w.fraction + (w.unit + e))[|w.fraction|..] == w.unit + e;
  }

  lemma NoDotNoFraction(w: Written)
    requires WellWritten(w)
    ensures !w.dot ==> w.fraction == ""
  {
  }

  lemma ScanWrites(s: string)
    ensures var (w, left) := Scan(s); s == TextOf(w) + left
  {
    hide DigitRun, UnitRun, IsDigit, IsUnitChar, Digits, UnitText;
    var (w, left) := Scan(s);
    var rest := s[|w.whole|..];
    var behindDot := if w.dot then rest[1..] else rest;
    var behindNumber := behindDot[|w.fraction|..];
    assert behindNumber == w.unit + left;
    assert behindDot == w.fraction + behindNumber;
    assert rest == (if w.dot then "." else "") + behindDot;
    Regroup(w.whole, if w.dot then "." else "", w.fraction, w.unit, left);
  }

  lemma Regroup(a: string, b: string, c: string, d: string, e: string)
    ensures a + (b + (c + (d + e))) == a + (b + (c + d)) + e
  {
  }

  /** The sizes that are accepted are exactly those that are well written, and their value is what is written. */
  lemma DeserializeReads(w: Written, e: string)
    requires WellWritten(w) && AtEnd(e)
    ensures Deserialize(TextOf(w) + e) == Ok(BytesOf(w, UnitBytes(w.unit)))
  {
    hide Factor, UnitText, UnitBytes, BytesOf;
    UnitsAre(w.unit);
    ScanReads(w, e);
  }


  lemma DeserializeAcceptsIff(s: string)
    ensures Deserialize(s).Ok? <==> exists w, e :: WellWritten(w) && (e == "" || e == "\n") && s == TextOf(w) + e
  {
    hide Factor, UnitText, UnitBytes, BytesOf;
    if Deserialize(s).Ok? {
      ScanWrites(s);
      var (w, left) := Scan(s);
      UnitsAre(w.unit);
      assert WellWritten(w) && AtEnd(left) && s == TextOf(w) + left;
    }
    if w, e :| WellWritten(w) && (e == "" || e == "\n") && s == TextOf(w) + e {
      DeserializeReads(w, e);
    }
  }

  // ------------------------------------------------------------- there and back

  lemma TenTimes(a: nat, p: nat)
    ensures a * (10 * p) == 10 * (a * p)
  {
  }

  lemma {:induction false} DigitsThen(a: string, b: string)
    requires Digits(a) && Digits(b)
    ensures DigitsValue(a + b) == DigitsValue(a) * Pow10(|b|) + DigitsValue(b)
    decreases |b|
  {
    if b == "" {
      assert a + b == a;
    } else {
      var n := |b| - 1;
      assert (a + b)[..|a + b| - 1] == a + b[..n] && (a + b)[|a + b| - 1] == b[n];
      DigitsThen(a, b[..n]);
      TenTimes(DigitsValue(a), Pow10(n));
    }
  }

  lemma TwoDigitsValue(h: nat)
    requires h < 100
    ensures Digits(TwoDigits(h)) && DigitsValue(TwoDigits(h)) == h && Pow10(|TwoDigits(h)|) == 100
  {
    var s := TwoDigits(h);
    assert s[..1] == [DigitChar(h / 10)] && s[..1][..0] == "";
    assert DigitsValue(s[..1]) == h / 10;
    assert Pow10(2) == 10 * Pow10(1) && Pow10(1) == 10 * Pow10(0);
  }

  lemma GigaIsKnown()
    ensures UnitBytes("G") == GIGABYTE
  {
  }

  /** Bytes to the nearest hundredth of a gigabyte. */
  function Nearest(v: nat): nat {
    RoundHalfEven(v, HUNDREDTH) * HUNDREDTH
  }

  function Shown(v: nat): Written {
    if v % GIGABYTE > 0 then
      var h := RoundHalfEven(v, HUNDREDTH);
      Written(Decimal(h / 100), true, TwoDigits(h % 100), "G")
    else Written(Decimal(v / GIGABYTE), false, "", "G")
  }

  lemma ShownIsSerialized(v: nat)
    ensures Serialize(v) == Ok(TextOf(Shown(v)) + "") && WellWritten(Shown(v))
  {
    hide RoundHalfEven, Factor, UnitText;
    GigaIsKnown();
    var w := Shown(v);
    if v % GIGABYTE > 0 {
      assert TextOf(w) + "" == w.whole + "." + w.fraction + "G";
      TwoDigitsValue(RoundHalfEven(v, HUNDREDTH) % 100);
    } else {
      assert TextOf(w) + "" == w.whole + "G";
    }
  }

  lemma ShownValue(v: nat)
    ensures Digits(Shown(v).whole) && Digits(Shown(v).fraction) && BytesOf(Shown(v), GIGABYTE) == Nearest(v)
  {
    hide Decimal, TwoDigits;
    if v % GIGABYTE > 0 {
      var h := RoundHalfEven(v, HUNDREDTH);
      DecimalValue(h / 100);
      TwoDigitsValue(h % 100);
      DigitsThen(Decimal(h / 100), TwoDigits(h % 100));
      assert DigitsValue(Decimal(h / 100) + TwoDigits(h % 100)) == h;
    } else {
      DecimalValue(v / GIGABYTE);
      assert Decimal(v / GIGABYTE) + "" == Decimal(v / GIGABYTE);
      WholeGigabytes(v);
    }
  }

  lemma WholeGigabytes(v: nat)
    requires v % GIGABYTE == 0
    ensures Nearest(v) == v && v / GIGABYTE * GIGABYTE == v
  {
    assert v == v / GIGABYTE * 100 * HUNDREDTH;
  }

  /** The field accepts what it prints, and reads it as the nearest hundredth of a gigabyte. */
  lemma RoundTrip(v: nat)
    ensures Serialize(v).Ok? && Deserialize(Serialize(v).value) == Ok(Nearest(v))
  {
    hide Serialize, Deserialize, Nearest, Factor, BytesOf, Shown;
    ShownIsSerialized(v);
    UnitShown(v);
    DeserializeReads(Shown(v), "");
    GigaIsKnown();
    ShownValue(v);
  }

  lemma UnitShown(v: nat)
    ensures Shown(v).unit == "G"
  {
  }

  /** How close that is: within five million bytes, and exact just for the multiples of ten million. */
  lemma NearestIsNear(v: nat)
    ensures Nearest(v) <= v + 5_000_000 && v <= Nearest(v) + 5_000_000
    ensures Nearest(v) == v <==> v % HUNDREDTH == 0
    ensures Nearest(Nearest(v)) == Nearest(v)
  {
    var q, r := v / HUNDREDTH, v % HUNDREDTH;
    assert v == q * HUNDREDTH + r;
  }

  lemma NearestKeepsOrder(v: nat, w: nat)
    requires v <= w
    ensures Nearest(v) <= Nearest(w)
  {
    assert v / HUNDREDTH <= w / HUNDREDTH;
  }

  /** Gigabytes, hundredths and what is left. */
  lemma SplitSize(v: nat) returns (a: nat, p: nat, r: nat)
    ensures p < 100 && r < 10_000_000 && v == 1_000_000_000 * a + (10_000_000 * p + r)
    ensures v / HUNDREDTH == 100 * a + p && v % HUNDREDTH == r && v % GIGABYTE == 10_000_000 * p + r
  {
    var q := v / HUNDREDTH;
    a, p, r := q / 100, q % 100, v % HUNDREDTH;
  }

  lemma HundredthsRounded(v: nat, a: nat, p: nat, r: nat)
    requires v / HUNDREDTH == 100 * a + p && v % HUNDREDTH == r
    ensures RoundHalfEven(v, HUNDREDTH) == 100 * a +
      if r < 5_000_000 || (r == 5_000_000 && p % 2 == 0) then p else p + 1
  {
    assert (100 * a + p) % 2 == p % 2;
  }

  lemma WholeIff(a: nat, more: nat)
    requires more <= 100
    ensures (1_000_000_000 * a + 10_000_000 * more) % GIGABYTE != 0 <==> 0 < more < 100
  {
    if more == 100 {
      assert 1_000_000_000 * a + 10_000_000 * more == 1_000_000_000 * (a + 1);
    }
  }

  /** Rounding gives a whole number of gigabytes just for sizes within five million bytes of one. */
  lemma NearestIsWholeIff(v: nat)
    ensures Nearest(v) % GIGABYTE != 0 <==> 5_000_000 < v % GIGABYTE < 995_000_000
  {
    hide RoundHalfEven;
    var a, p, r := SplitSize(v);
    HundredthsRounded(v, a, p, r);
    var more := RoundHalfEven(v, HUNDREDTH) - 100 * a;
    WholeIff(a, more);
    assert Nearest(v) == 1_000_000_000 * a + 10_000_000 * more;
  }

  /**
   Going there and back a second time gives the same bytes, but not always the same text: a size that
   is not a whole number of gigabytes and comes back as one loses its zeros.
   */
  lemma TextStaysIff(v: nat)
    ensures Serialize(Nearest(v)) == Serialize(v) <==> v % GIGABYTE == 0 || 5_000_000 < v % GIGABYTE < 995_000_000
  {
    hide Decimal, DigitChar;
    NearestIsWholeIff(v);
    if v % GIGABYTE == 0 {
      WholeGigabytes(v);
    } else {
      var n := Nearest(v);
      if n % GIGABYTE == 0 {
        EndsDiffer(v, n);
      }
    }
  }

  /** One byte more than a gigabyte is printed as "1.00G", read as one gigabyte, and then printed as "1G". */
  lemma TextChanges()
    ensures Serialize(1_000_000_001) == Ok("1.00G")
    ensures Deserialize("1.00G") == Ok(1_000_000_000) && Serialize(1_000_000_000) == Ok("1G")
  {
    hide Deserialize;
    assert Decimal(1) == "1" && TwoDigits(0) == "00";
    assert "1" + "." + "00" + "G" == "1.00G" && "1" + "G" == "1G";
    RoundTrip(1_000_000_001);
  }

  lemma EndsDiffer(v: nat, n: nat)
    requires v % GIGABYTE > 0 && n % GIGABYTE == 0
    ensures Serialize(v) != Serialize(n)
  {
    var s, t := Serialize(v).value, Serialize(n).value;
    assert s[|s| - 4] == '.';
    var d := Decimal(n / GIGABYTE);
    if |t| >= 4 {
      assert t[|t| - 4] == d[|t| - 4];
      assert IsDigit(d[|t| - 4]);
    }
  }
}
