/** Versions packed as four 16-bit parts in a 64-bit number. Shifts and masks are written as
    multiplication, division and remainder by powers of two. */
module PackedVersion {
  import opened Text

  const WORD := 0x1_0000
  const WORD2 := 0x1_0000_0000
  const WORD3 := 0x1_0000_0000_0000
  const WORD4 := 0x1_0000_0000_0000_0000

  /** A 64-bit unsigned number. */
  type Packed = n: nat | n < WORD4

  // ---- Bits ----

  /** The bitwise or. */
  function Or(x: nat, y: nat): (z: nat)
    ensures x + y == 0 <==> z == 0
  {
    if x == 0 && y == 0 then 0 else 2 * Or(x / 2, y / 2) + (if x % 2 == 1 || y % 2 == 1 then 1 else 0)
  }

  function Power(k: nat): (p: nat)
    ensures p > 0
  {
    if k == 0 then 1 else 2 * Power(k - 1)
  }

  lemma {:induction false} OrZero(x: nat)
    ensures Or(x, 0) == x
  {
    if x > 0 {
      OrZero(x / 2);
    }
  }

  lemma OrDoubled(h: nat, y: nat)
    ensures Or(2 * h, y) == 2 * Or(h, y / 2) + y % 2
  {
    if h + y == 0 {
      assert Or(0, 0) == 0;
    }
  }

  lemma Twice(x: nat, p: nat, q: nat)
    requires q == 2 * p
    ensures x * q == 2 * (x * p)
  {
  }

  /** The or of numbers without a common bit is their sum. */
  lemma {:induction false} OrAbove(x: nat, y: nat, k: nat)
    requires y < Power(k)
    ensures Or(x * Power(k), y) == x * Power(k) + y
  {
    if k == 0 {
      OrZero(x);
    } else {
      OrAbove(x, y / 2, k - 1);
      OrDoubled(x * Power(k - 1), y);
      Twice(x, Power(k - 1), Power(k));
      hide *;
    }
  }

  lemma {:induction false} OrBelow(x: nat, y: nat, k: nat)
    requires x < Power(k) && y < Power(k)
    ensures Or(x, y) < Power(k)
  {
    if k > 0 {
      OrBelow(x / 2, y / 2, k - 1);
    }
  }

  lemma WordPowers()
    ensures Power(16) == WORD && Power(32) == WORD2 && Power(48) == WORD3 && Power(64) == WORD4
  {
    assert Power(8) == 256;
    assert Power(16) == WORD;
    assert Power(24) == 256 * WORD;
    assert Power(32) == WORD2;
    assert Power(40) == 256 * WORD2;
    assert Power(48) == WORD3;
    assert Power(56) == 256 * WORD3;
  }

  function ShiftedOut(x: nat): Packed { x % WORD4 }

  /** A shift to the left; bits beyond the 64th are lost. */
  function ShiftLeft(x: Packed, factor: nat): (r: Packed)
    requires factor > 0
  {
    ShiftedOut(x * factor)
  }

  // ---- Packing ----

  /** The parts shifted into their places; the last two sixteen bits of wide parts overlap others. */
  function PackWide(major: Packed, year: Packed, month: Packed, day: Packed): (v: Packed) {
    var v := Or(Or(Or(ShiftLeft(major, WORD3), ShiftLeft(year, WORD2)), ShiftLeft(month, WORD)), day);
    assert v < WORD4 by {
      WordPowers();
      var high := Or(ShiftLeft(major, WORD3), ShiftLeft(year, WORD2));
      OrBelow(ShiftLeft(major, WORD3), ShiftLeft(year, WORD2), 64);
      OrBelow(high, ShiftLeft(month, WORD), 64);
      OrBelow(Or(high, ShiftLeft(month, WORD)), day, 64);
    }
    v
  }

  function MajorPart(v: Packed): (p: nat)
    ensures p < WORD
  {
    v / WORD3
  }

  function YearPart(v: Packed): (p: nat)
    ensures p < WORD
  {
    v / WORD2 % WORD
  }

  function MonthPart(v: Packed): (p: nat)
    ensures p < WORD
  {
    v / WORD % WORD
  }

  function DayPart(v: Packed): (p: nat)
    ensures p < WORD
  {
    v % WORD
  }

  function DatePart(v: Packed): nat { v % WORD3 }

  lemma PartsSum(v: Packed)
    ensures v == MajorPart(v) * WORD3 + YearPart(v) * WORD2 + MonthPart(v) * WORD + DayPart(v)
  {
    assert v / WORD2 / WORD == v / WORD3 && v / WORD / WORD == v / WORD2;
  }

  lemma Product(x: nat, y: nat, factor: nat)
    requires x <= y && factor > 0
    ensures x * factor <= y * factor && x <= x * factor && x * factor == (x - 1) * factor + factor
  {
  }

  lemma Remainder(x: nat)
    ensures x < WORD4 ==> ShiftedOut(x) == x
  {
  }

  lemma ShiftPart(x: nat, limit: nat, factor: nat)
    requires x < limit && factor > 0 && limit * factor <= WORD4
    ensures x < WORD4 && ShiftLeft(x, factor) == x * factor
  {
    Product(x + 1, limit, factor);
    Product(x, x, factor);
    Remainder(x * factor);
    hide *;
  }

  lemma OrWord(x: nat, low: nat)
    requires low < WORD
    ensures Or(x * WORD, low) == x * WORD + low
  {
    WordPowers();
    OrAbove(x, low, 16);
    hide *;
  }

  lemma OrWord2(x: nat, low: nat)
    requires low < WORD2
    ensures Or(x * WORD2, low) == x * WORD2 + low
  {
    WordPowers();
    OrAbove(x, low, 32);
    hide *;
  }

  lemma OrWord3(x: nat, low: nat)
    requires low < WORD3
    ensures Or(x * WORD3, low) == x * WORD3 + low
  {
    WordPowers();
    OrAbove(x, low, 48);
    hide *;
  }

  /** Sixteen-bit parts do not overlap. */
  lemma PackedSum(major: nat, year: nat, month: nat, day: nat)
    requires major < WORD && year < WORD && month < WORD && day < WORD
    ensures PackWide(major, year, month, day) == major * WORD3 + year * WORD2 + month * WORD + day
  {
    var date := major * WORD + year;
    ShiftPart(major, WORD, WORD3);
    ShiftPart(year, WORD, WORD2);
    ShiftPart(month, WORD, WORD);
    OrWord3(major, year * WORD2);
    OrWord2(date, month * WORD);
    OrWord(date * WORD + month, day);
    hide Or, ShiftLeft;
  }

  lemma Divide(v: nat, q: nat, r: nat, m: nat)
    requires r < m && v == q * m + r
    ensures v / m == q && v % m == r
  {
    var k := v / m - q;
    assert k * m == r - v % m;
    assert k >= 1 ==> k * m >= m;
    assert k <= -1 ==> k * m <= (-1) * m;
  }

  /** Sixteen-bit parts can be taken out of the packed number again. */
  lemma PartsOfPacked(major: nat, year: nat, month: nat, day: nat)
    requires major < WORD && year < WORD && month < WORD && day < WORD
    ensures var v := PackWide(major, year, month, day);
            && MajorPart(v) == major && YearPart(v) == year && MonthPart(v) == month && DayPart(v) == day
            && DatePart(v) == PackWide(0, year, month, day)
  {
    PackedSum(major, year, month, day);
    PackedSum(0, year, month, day);
    PartsOfSum(PackWide(major, year, month, day), major, year, month, day);
    hide *;
  }

  lemma PartsOfSum(v: Packed, major: nat, year: nat, month: nat, day: nat)
    requires major < WORD && year < WORD && month < WORD && day < WORD
    requires v == major * WORD3 + year * WORD2 + month * WORD + day
    ensures MajorPart(v) == major && YearPart(v) == year && MonthPart(v) == month && DayPart(v) == day
    ensures DatePart(v) == year * WORD2 + month * WORD + day
  {
    Divide(v, major, year * WORD2 + month * WORD + day, WORD3);
    Divide(v, major * WORD + year, month * WORD + day, WORD2);
    Divide(major * WORD + year, major, year, WORD);
    Divide(v, (major * WORD + year) * WORD + month, day, WORD);
    Divide((major * WORD + year) * WORD + month, major * WORD + year, month, WORD);
  }

  lemma PackParts(v: Packed)
    ensures PackWide(MajorPart(v), YearPart(v), MonthPart(v), DayPart(v)) == v
  {
    PartsSum(v);
    PackedSum(MajorPart(v), YearPart(v), MonthPart(v), DayPart(v));
  }

  /** `a` before `b` in one part, with `rest` deciding between equal ones. */
  predicate Before(a: nat, b: nat, rest: bool) { a < b || (a == b && rest) }

  /** Packed versions are ordered as numbers the way their parts are, major part first. */
  lemma OrderIsLexicographic(v: Packed, w: Packed)
    ensures v < w <==>
              Before(MajorPart(v), MajorPart(w),
                Before(YearPart(v), YearPart(w),
                  Before(MonthPart(v), MonthPart(w), DayPart(v) < DayPart(w))))
  {
    PartsSum(v);
    PartsSum(w);
    hide MajorPart, YearPart, MonthPart, DayPart;
  }

  // ---- Text ----

  const SHORT_LIMIT := 0x8000

  /** toShort(): a 16-bit signed number in decimal with an optional sign, or 0. */
  function ToShort(s: string): (n: int)
    ensures -SHORT_LIMIT <= n < SHORT_LIMIT
  {
    var t := Trim(s);
    if t != "" && t[0] == '-' then
      var digits := t[1..];
      if digits == "" || !AllDigits(digits) || DigitsValue(digits) > SHORT_LIMIT then 0 else -(DigitsValue(digits) as int)
    else
      var n := ParseUnsigned(s, SHORT_LIMIT);
      if n.None? then 0 else n.value
  }

  /** A short widened to 64 bits, its sign extended. */
  function Widened(n: int): Packed
    requires -SHORT_LIMIT <= n < SHORT_LIMIT
  {
    if n >= 0 then n else WORD4 + n
  }

  /** The version a list of parts denotes: 0 with fewer than four, and further parts do not count. */
  function PackList(parts: seq<string>): Packed {
    if |parts| < 4 then 0
    else PackWide(Widened(ToShort(parts[0])), Widened(ToShort(parts[1])), Widened(ToShort(parts[2])), Widened(ToShort(parts[3])))
  }

  function PackText(s: string): Packed { PackList(Split(s, '.')) }

  function PrintedParts(v: Packed): seq<string> {
    [Decimal(MajorPart(v)), Decimal(YearPart(v)), Decimal(MonthPart(v)), Decimal(DayPart(v))]
  }

  function UnpackToText(v: Packed): string { Join(PrintedParts(v), '.') }

  /** What toShort() makes of a printed part: nothing, if it does not fit. */
  lemma PartReadBack(n: nat)
    ensures ToShort(Decimal(n)) == if n <= 32767 then n else 0
  {
    var s := Decimal(n);
    ParseDecimal(n, SHORT_LIMIT);
    assert IsDigit(s[0]) && IsDigit(s[|s| - 1]);
    assert Trim(s) == s;
    hide Decimal, Trim, ParseUnsigned;
  }

  lemma NoDot(n: nat)
    ensures '.' !in Decimal(n)
  {
    assert !IsDigit('.');
    hide Decimal;
  }

  lemma SplitPrinted(v: Packed)
    ensures Split(UnpackToText(v), '.') == PrintedParts(v)
  {
    NoDot(MajorPart(v));
    NoDot(YearPart(v));
    NoDot(MonthPart(v));
    NoDot(DayPart(v));
    hide Decimal, Split, Join, MajorPart, YearPart, MonthPart, DayPart;
    SplitJoin(PrintedParts(v), '.');
  }

  function Kept(n: nat): nat { if n < SHORT_LIMIT then n else 0 }

  predicate AllFitShort(v: Packed) {
    MajorPart(v) <= 32767 && YearPart(v) <= 32767 && MonthPart(v) <= 32767 && DayPart(v) <= 32767
  }

  lemma ReadBack(v: Packed)
    ensures PackText(UnpackToText(v)) ==
            PackWide(Kept(MajorPart(v)), Kept(YearPart(v)), Kept(MonthPart(v)), Kept(DayPart(v)))
  {
    SplitPrinted(v);
    PartReadBack(MajorPart(v));
    PartReadBack(YearPart(v));
    PartReadBack(MonthPart(v));
    PartReadBack(DayPart(v));
    hide UnpackToText, Split, Decimal, ToShort, PackWide, MajorPart, YearPart, MonthPart, DayPart;
  }

  /** Reading back a printed version gives that version exactly when no part is above 32767. */
  lemma ReadBackIffFits(v: Packed)
    ensures PackText(UnpackToText(v)) == v <==> AllFitShort(v)
  {
    ReadBack(v);
    PartsSum(v);
    PackedSum(Kept(MajorPart(v)), Kept(YearPart(v)), Kept(MonthPart(v)), Kept(DayPart(v)));
    hide UnpackToText, PackText, PackWide, MajorPart, YearPart, MonthPart, DayPart;
  }

  /** A version that is all one day above 32767 is read back as no version. */
  lemma LateDayIsLost(day: nat)
    requires 32768 <= day < 65536
    ensures PackText(UnpackToText(day)) == 0 != day
  {
    OnlyDay(day);
    PackedSum(0, 0, 0, 0);
    hide UnpackToText, PackText, PackWide, MajorPart, YearPart, MonthPart, DayPart;
    ReadBack(day);
  }

  /** A printed part with a sign. */
  lemma NegativeReadBack(n: nat)
    ensures ToShort("-" + Decimal(n)) == if n <= 32768 then -(n as int) else 0
  {
    var digits := Decimal(n);
    var s := "-" + digits;
    assert IsDigit(digits[|digits| - 1]) && s[|s| - 1] == digits[|digits| - 1] && s[0] == '-' && s[1..] == digits;
    assert Trim(s) == s;
    DecimalValue(n);
    hide Decimal, Trim, ParseUnsigned, DigitsValue;
  }

  /** A negative last part fills all bits above it. */
  lemma NegativeDay(n: nat)
    requires 0 < n <= 32768
    ensures PackList(["0", "0", "0", "-" + Decimal(n)]) == 0x1_0000_0000_0000_0000 - n
  {
    NegativeReadBack(n);
    PartReadBack(0);
    assert Decimal(0) == "0";
    hide ToShort, Decimal;
    NothingAbove(WORD4 - n);
  }

  lemma NothingAbove(day: Packed)
    ensures PackWide(0, 0, 0, day) == day
  {
    assert ShiftLeft(0, WORD3) == ShiftLeft(0, WORD2) == ShiftLeft(0, WORD) == 0;
    OrZero(0);
    OrNothing(day);
    hide Or;
  }

  lemma {:induction false} OrNothing(x: nat)
    ensures Or(0, x) == x
  {
    if x > 0 {
      OrNothing(x / 2);
    }
  }

  /** A text of fewer than four parts is no version, and parts beyond the fourth do not count. */
  lemma PartsThatCount(parts: seq<string>)
    requires parts != [] && forall i :: 0 <= i < |parts| ==> '.' !in parts[i]
    ensures |parts| < 4 ==> PackText(Join(parts, '.')) == 0
    ensures |parts| >= 4 ==> PackText(Join(parts, '.')) == PackText(Join(parts[..4], '.'))
  {
    SplitJoin(parts, '.');
    if |parts| >= 4 {
      SplitJoin(parts[..4], '.');
    }
    hide Split, Join, ToShort, PackWide;
  }

  lemma OnlyDay(day: nat)
    requires day < WORD
    ensures MajorPart(day) == 0 && YearPart(day) == 0 && MonthPart(day) == 0 && DayPart(day) == day
  {
  }
}
