/** The `Created` strings of the Windows process inventory and their FILETIME value
    (`creation_ticks` in scripts/windows_runtime_e2e.py). */
module CreationTime {
  import opened Basics

  const IDENTITY_INVALID := "process_creation_identity_invalid"

  // -------------------------------------------------------------- calendar

  predicate IsLeap(year: int) {
    year % 4 == 0 && (year % 100 != 0 || year % 400 == 0)
  }

  function DaysInYear(year: int): nat {
    if IsLeap(year) then 366 else 365
  }

  function DaysInMonth(year: int, month: int): nat {
    if month == 2 then (if IsLeap(year) then 29 else 28)
    else if month == 4 || month == 6 || month == 9 || month == 11 then 30
    else 31
  }

  /** Days before 1 January of `year` in the proleptic Gregorian calendar. */
  function DaysBeforeYear(year: int): int {
    (year - 1) * 365 + (year - 1) / 4 - (year - 1) / 100 + (year - 1) / 400
  }

  const MONTH_STARTS: seq<int> := [0, 31, 59, 90, 120, 151, 181, 212, 243, 273, 304, 334]

  function DaysBeforeMonth(year: int, month: int): int
    requires 1 <= month <= 12
  {
    MONTH_STARTS[month - 1] + (if month > 2 && IsLeap(year) then 1 else 0)
  }

  function Ordinal(year: int, month: int, day: int): int
    requires 1 <= month <= 12
  {
    DaysBeforeYear(year) + DaysBeforeMonth(year, month) + day
  }

  lemma DivUnique(n: int, d: int, q: int, r: int)
    requires d > 0 && 0 <= r < d && n == q * d + r
    ensures n / d == q && n % d == r
  {
    var e := n / d - q;
    assert e * d == r - n % d;
    assert e >= 1 ==> e * d >= d;
    assert e <= -1 ==> e * d <= -d;
  }

  lemma DivStep(n: int, d: int)
    requires n >= 1 && d >= 2
    ensures n / d == (n - 1) / d + (if n % d == 0 then 1 else 0)
  {
    var q, r := (n - 1) / d, (n - 1) % d;
    assert n == q * d + r + 1;
    if r + 1 == d {
      assert n == (q + 1) * d;
      DivUnique(n, d, q + 1, 0);
    } else {
      DivUnique(n, d, q, r + 1);
    }
  }

  lemma DivisibleByFactor(n: int, d: int, m: int)
    requires d > 0 && m > 0 && n % (d * m) == 0
    ensures n % d == 0
  {
    var q := n / (d * m);
    assert n == q * (d * m) == (q * m) * d;
    DivUnique(n, d, q * m, 0);
  }

  /** The closed form adds exactly one calendar year at each year boundary. */
  lemma YearStep(year: int)
    requires year >= 1
    ensures DaysBeforeYear(year + 1) == DaysBeforeYear(year) + DaysInYear(year)
  {
    DivStep(year, 4);
    DivStep(year, 100);
    DivStep(year, 400);
    if year % 100 == 0 { DivisibleByFactor(year, 4, 25); }
    if year % 400 == 0 { DivisibleByFactor(year, 100, 4); }
  }

  lemma {:induction false} YearsAscend(y: int, z: int)
    requires 1 <= y < z
    ensures DaysBeforeYear(y) + DaysInYear(y) <= DaysBeforeYear(z)
    decreases z
  {
    YearStep(z - 1);
    if y < z - 1 { YearsAscend(y, z - 1); }
  }

  /** The month table adds exactly one month at each month boundary and fills the year. */
  lemma MonthStep(year: int, month: int)
    requires 1 <= month <= 12
    ensures DaysBeforeMonth(year, month) + DaysInMonth(year, month)
         == if month < 12 then DaysBeforeMonth(year, month + 1) else DaysInYear(year)
  {
  }

  lemma MonthsAscend(year: int, m: int, n: int)
    requires 1 <= m < n <= 13
    ensures DaysBeforeMonth(year, m) + DaysInMonth(year, m)
         <= if n < 13 then DaysBeforeMonth(year, n) else DaysInYear(year)
    decreases n
  {
  }

  // ------------------------------------------------------------- timestamp

  datatype Moment = Moment(year: int, month: int, day: int, hour: int, minute: int,
                           second: int, fraction: int)
  {
    predicate Valid() {
      && 1 <= year <= 9999 && 1 <= month <= 12 && 1 <= day <= DaysInMonth(year, month)
      && 0 <= hour < 24 && 0 <= minute < 60 && 0 <= second < 60 && 0 <= fraction < 10_000_000
    }

    /** Days since 1 January 1601, then seconds, then 100 ns units. */
    function Ticks(): int
      requires Valid()
    {
      ((Ordinal(year, month, day) - Ordinal(1601, 1, 1)) * 86400
       + hour * 3600 + minute * 60 + second) * 10_000_000 + fraction
    }

    /** Earlier in calendar order: at the first field that differs. */
    predicate Before(other: Moment) {
      if year != other.year then year < other.year
      else if month != other.month then month < other.month
      else if day != other.day then day < other.day
      else if hour != other.hour then hour < other.hour
      else if minute != other.minute then minute < other.minute
      else if second != other.second then second < other.second
      else fraction < other.fraction
    }
  }

  lemma MomentsAscend(p: Moment, q: Moment)
    requires p.Valid() && q.Valid() && p.Before(q)
    ensures p.Ticks() < q.Ticks()
  {
    var a, b := Ordinal(p.year, p.month, p.day), Ordinal(q.year, q.month, q.day);
    if p.year < q.year {
      YearsAscend(p.year, q.year);
      MonthsAscend(p.year, p.month, 13);
      MonthsAscend(q.year, q.month, 13);
      assert a < b;
    } else if p.month < q.month {
      MonthsAscend(p.year, p.month, q.month);
      assert a < b;
    }
    var s := p.hour * 3600 + p.minute * 60 + p.second;
    var t := q.hour * 3600 + q.minute * 60 + q.second;
    assert 0 <= s < 86400 && 0 <= t < 86400;
    assert a < b || (a == b && s < t) || (a == b && s == t && p.fraction < q.fraction);
  }

  const WIDTH: nat := 28

  /** Positions of the digits in `yyyy-MM-ddTHH:mm:ss.fffffffZ`. */
  predicate DigitAt(k: nat) {
    k < WIDTH && k != 4 && k != 7 && k != 10 && k != 13 && k != 16 && k != 19 && k != 27
  }

  predicate AllAscii(s: string)
    requires |s| == WIDTH
  {
    forall k: nat :: k < WIDTH && DigitAt(k) ==> IsAscii(s[k], '0', '9')
  }

  /** The seven numbers of a timestamp: where each starts and how many digits it has. */
  function FieldAt(f: nat): (at: nat)
    requires f < 7
  {
    if f == 0 then 0 else 2 + 3 * f
  }

  function FieldWidth(f: nat): (width: nat)
    requires f < 7
    ensures FieldAt(f) + width < WIDTH
    ensures forall k: nat :: FieldAt(f) <= k < FieldAt(f) + width ==> DigitAt(k)
  {
    if f == 0 then 4 else if f == 6 then 7 else 2
  }

  function FieldOf(k: nat): (f: nat)
    requires DigitAt(k)
    ensures f < 7 && FieldAt(f) <= k < FieldAt(f) + FieldWidth(f)
    ensures forall g: nat :: g < f ==> FieldAt(g) + FieldWidth(g) <= k
  {
    if k < 4 then 0 else if k < 20 then (k - 2) / 3 else 6
  }

  predicate IsAscii(c: char, low: char, high: char) {
    low <= c <= high
  }

  function DigitIn(code: int, zeros: seq<int>): (v: int)
    ensures -1 <= v < 10
  {
    if zeros == [] then -1
    else if zeros[0] <= code < zeros[0] + 10 then code - zeros[0]
    else DigitIn(code, zeros[1..])
  }

  // ------------------------------------------------------------- alphabet

  /** Runs of ten decimal digits, by their first code point: ASCII and then the others of the
      interpreter's Unicode version. Python's `\d` and `int` take every one of them. */
  datatype Alphabet = Alphabet(zeros: seq<int>)
  {
    predicate Valid() {
      |zeros| > 0 && zeros[0] == '0' as int
    }

    /** The value of a digit, or -1 for any other character. */
    function Digit(c: char): (v: int)
      ensures -1 <= v < 10
      ensures Valid() && '0' <= c <= '9' ==> v == c as int - '0' as int
    {
      DigitIn(c as int, zeros)
    }

    predicate IsDigit(c: char) {
      Digit(c) >= 0
    }

    /** The number written by the `width` digits of `s` from position `at`. */
    function Number(s: string, at: nat, width: nat): (n: int)
      requires at + width <= |s|
      decreases width
    {
      if width == 0 then 0 else 10 * Number(s, at, width - 1) + Digit(s[at + width - 1])
    }

    function Field(s: string, f: nat): int
      requires |s| == WIDTH && f < 7
    {
      Number(s, FieldAt(f), FieldWidth(f))
    }

    /** The full match of the round-trip pattern. */
    predicate Matches(s: string) {
      && |s| == WIDTH
      && s[4] == '-' && s[7] == '-' && s[10] == 'T' && s[13] == ':' && s[16] == ':' && s[19] == '.'
      && s[27] == 'Z'
      && forall k: nat :: k < WIDTH && DigitAt(k) ==> IsDigit(s[k])
    }

    /** What `strptime` then demands of the two-digit fields. Its patterns name most digits
        literally, so only some second digits may lie outside ASCII. */
    predicate ParsesFields(s: string)
      requires |s| == WIDTH
    {
      && (if s[5] == '1' then IsAscii(s[6], '0', '2') else s[5] == '0' && IsAscii(s[6], '1', '9'))
      && (if s[8] == '3' then IsAscii(s[9], '0', '1')
          else if s[8] == '0' then IsAscii(s[9], '1', '9')
          else IsAscii(s[8], '1', '2'))
      && (if s[11] == '2' then IsAscii(s[12], '0', '3') else IsAscii(s[11], '0', '1'))
      && IsAscii(s[14], '0', '5')
      && IsAscii(s[17], '0', '5')
    }

    function Parse(s: string): Moment
      requires |s| == WIDTH
    {
      Moment(Field(s, 0), Field(s, 1), Field(s, 2), Field(s, 3), Field(s, 4), Field(s, 5), Field(s, 6))
    }

    predicate Accepted(s: string) {
      Matches(s) && ParsesFields(s) && Parse(s).Valid()
    }

    /** `creation_ticks`. */
    function CreationTicks(created: string): (r: Result<int>)
      ensures r.Ok? <==> Accepted(created)
      ensures r.Err? ==> r.error == IDENTITY_INVALID
    {
      if Accepted(created) then Ok(Parse(created).Ticks()) else Err(IDENTITY_INVALID)
    }

    function TicksOf(s: string): int
      requires Accepted(s)
    {
      CreationTicks(s).value
    }

    // ------------------------------------------------------- order and identity

    predicate AgreeBefore(a: string, b: string, k: nat)
      requires |a| == |b| == WIDTH && k <= WIDTH
    {
      forall i: nat :: i < k && DigitAt(i) ==> Digit(a[i]) == Digit(b[i])
    }

    lemma {:induction false} NumbersAgree(a: string, b: string, at: nat, width: nat)
      requires |a| == |b| == WIDTH && at + width <= WIDTH
      requires forall i: nat :: at <= i < at + width ==> Digit(a[i]) == Digit(b[i])
      ensures Number(a, at, width) == Number(b, at, width)
      decreases width
    {
      if width > 0 { NumbersAgree(a, b, at, width - 1); }
    }

    /** A number is smaller as soon as its first differing digit is. */
    lemma {:induction false} NumbersAscend(a: string, b: string, at: nat, width: nat, k: nat)
      requires |a| == |b| == WIDTH && at <= k < at + width <= WIDTH
      requires forall i: nat :: at <= i < at + width ==> IsDigit(a[i]) && IsDigit(b[i])
      requires forall i: nat :: at <= i < k ==> Digit(a[i]) == Digit(b[i])
      requires Digit(a[k]) < Digit(b[k])
      ensures Number(a, at, width) < Number(b, at, width)
      decreases width
    {
      if k == at + width - 1 {
        NumbersAgree(a, b, at, width - 1);
      } else {
        NumbersAscend(a, b, at, width - 1, k);
      }
    }

    lemma FieldAgrees(a: string, b: string, k: nat, at: nat, width: nat)
      requires |a| == |b| == WIDTH && k <= WIDTH && AgreeBefore(a, b, k) && at + width <= k
      requires forall i: nat :: at <= i < at + width ==> DigitAt(i)
      ensures Number(a, at, width) == Number(b, at, width)
    {
    }

    /** The first differing digit decides the order of the two readings. */
    lemma FirstDigitDecides(a: string, b: string, k: nat)
      requires Matches(a) && Matches(b) && DigitAt(k) && AgreeBefore(a, b, k)
      requires Digit(a[k]) < Digit(b[k])
      ensures Parse(a).Before(Parse(b))
    {
      var f := FieldOf(k);
      forall g: nat | g < f
        ensures Field(a, g) == Field(b, g)
      {
        FieldAgrees(a, b, k, FieldAt(g), FieldWidth(g));
      }
      NumbersAscend(a, b, FieldAt(f), FieldWidth(f), k);
      FieldsDecide(a, b, f);
    }

    /** The first differing field decides the order of the two readings. */
    lemma FieldsDecide(a: string, b: string, f: nat)
      requires |a| == |b| == WIDTH && f < 7
      requires forall g: nat :: g < f ==> Field(a, g) == Field(b, g)
      requires Field(a, f) < Field(b, f)
      ensures Parse(a).Before(Parse(b))
    {
      var p, q := Parse(a), Parse(b);
      assert f > 0 ==> Field(a, 0) == Field(b, 0);
      assert f > 1 ==> Field(a, 1) == Field(b, 1);
      assert f > 2 ==> Field(a, 2) == Field(b, 2);
      assert f > 3 ==> Field(a, 3) == Field(b, 3);
      assert f > 4 ==> Field(a, 4) == Field(b, 4);
      assert f > 5 ==> Field(a, 5) == Field(b, 5);
    }

    lemma DigitDecidesTicks(a: string, b: string, k: nat)
      requires Accepted(a) && Accepted(b) && DigitAt(k) && AgreeBefore(a, b, k)
      requires Digit(a[k]) < Digit(b[k])
      ensures TicksOf(a) < TicksOf(b)
    {
      FirstDigitDecides(a, b, k);
      MomentsAscend(Parse(a), Parse(b));
    }

    /** Two spellings of the same digits. */
    predicate SameDigits(a: string, b: string)
      requires |a| == |b| == WIDTH
    {
      AgreeBefore(a, b, WIDTH)
    }

    lemma {:induction false} FirstDigitDifference(a: string, b: string, from: nat) returns (k: nat)
      requires |a| == |b| == WIDTH && from <= WIDTH && AgreeBefore(a, b, from) && !SameDigits(a, b)
      ensures DigitAt(k) && AgreeBefore(a, b, k) && Digit(a[k]) != Digit(b[k])
      decreases WIDTH - from
    {
      if DigitAt(from) && Digit(a[from]) != Digit(b[from]) {
        k := from;
      } else {
        k := FirstDigitDifference(a, b, from + 1);
      }
    }

    lemma SameReading(a: string, b: string)
      requires |a| == |b| == WIDTH
      requires forall g: nat :: g < 7 ==> Field(a, g) == Field(b, g)
      ensures Parse(a) == Parse(b)
    {
    }

    /** On all accepted strings: the same instant exactly when the digits have the same values. */
    lemma TicksIdentifyDigits(a: string, b: string)
      requires Accepted(a) && Accepted(b)
      ensures TicksOf(a) == TicksOf(b) <==> SameDigits(a, b)
    {
      if SameDigits(a, b) {
        forall f: nat | f < 7
          ensures Field(a, f) == Field(b, f)
        {
          FieldAgrees(a, b, WIDTH, FieldAt(f), FieldWidth(f));
        }
        SameReading(a, b);
      } else {
        var k := FirstDigitDifference(a, b, 0);
        if Digit(a[k]) < Digit(b[k]) {
          DigitDecidesTicks(a, b, k);
        } else {
          DigitDecidesTicks(b, a, k);
        }
      }
    }

    /** A string as .NET writes it: ASCII digits only. */
    predicate Stamp(s: string) {
      Accepted(s) && AllAscii(s)
    }

    lemma StampsDiffer(a: string, b: string) returns (k: nat)
      requires Valid() && Matches(a) && Matches(b) && AllAscii(a) && AllAscii(b) && a != b
      ensures DigitAt(k) && AgreeBefore(a, b, k) && Digit(a[k]) != Digit(b[k])
      ensures LexLess(a, b) <==> Digit(a[k]) < Digit(b[k])
    {
      k := FirstDifference(a, b);
      LexAtFirstDifference(a, b, k);
      assert DigitAt(k);
      forall i: nat | i < k && DigitAt(i) ensures Digit(a[i]) == Digit(b[i]) {
        assert a[i] == a[..k][i] && b[i] == b[..k][i];
      }
    }

    /** On stamps the string order is the FILETIME order, and equal ticks mean equal strings. */
    lemma StampOrder(a: string, b: string)
      requires Valid() && Stamp(a) && Stamp(b)
      ensures LexLess(a, b) <==> TicksOf(a) < TicksOf(b)
      ensures a == b <==> TicksOf(a) == TicksOf(b)
    {
      if a == b {
        LexTrichotomy(a, b);
      } else {
        var k := StampsDiffer(a, b);
        if Digit(a[k]) < Digit(b[k]) {
          DigitDecidesTicks(a, b, k);
        } else {
          DigitDecidesTicks(b, a, k);
        }
      }
    }

  }

  /** The decimal digit runs of Unicode 15. */
  const PYTHON := Alphabet([0x30, 0xFF10] + [
    0x660, 0x6F0, 0x7C0, 0x966, 0x9E6, 0xA66, 0xAE6, 0xB66, 0xBE6, 0xC66, 0xCE6,
    0xD66, 0xDE6, 0xE50, 0xED0, 0xF20, 0x1040, 0x1090, 0x17E0, 0x1810, 0x1946, 0x19D0, 0x1A80,
    0x1A90, 0x1B50, 0x1BB0, 0x1C40, 0x1C50, 0xA620, 0xA8D0, 0xA900, 0xA9D0, 0xA9F0, 0xAA50,
    0xABF0, 0x104A0, 0x10D30, 0x11066, 0x110F0, 0x11136, 0x111D0, 0x112F0, 0x11450, 0x114D0,
    0x11650, 0x116C0, 0x11730, 0x118E0, 0x11950, 0x11C50, 0x11D50, 0x11DA0, 0x11F50, 0x16A60,
    0x16AC0, 0x16B50, 0x1D7CE, 0x1D7D8, 0x1D7E2, 0x1D7EC, 0x1D7F6, 0x1E140, 0x1E2F0, 0x1E4F0,
    0x1E950, 0x1FBF0])

  /** Reading one timestamp, digit by digit. */
  lemma Reads(t: Alphabet, s: string, y0: int, y1: int, y2: int, y3: int)
    requires t.Valid() && t.Matches(s)
    requires t.Digit(s[0]) == y0 && t.Digit(s[1]) == y1 && t.Digit(s[2]) == y2 && t.Digit(s[3]) == y3
    ensures t.Field(s, 0) == 1000 * y0 + 100 * y1 + 10 * y2 + y3
    ensures t.Field(s, 1) == 10 * t.Digit(s[5]) + t.Digit(s[6])
    ensures t.Field(s, 2) == 10 * t.Digit(s[8]) + t.Digit(s[9])
    ensures t.Field(s, 3) == 10 * t.Digit(s[11]) + t.Digit(s[12])
    ensures t.Field(s, 4) == 10 * t.Digit(s[14]) + t.Digit(s[15])
    ensures t.Field(s, 5) == 10 * t.Digit(s[17]) + t.Digit(s[18])
    ensures 0 <= t.Field(s, 6) < 10_000_000
  {
  }

  /** Any other spelling of the first digit collides with the stamp it respells. */
  lemma RespelledDigitCollides(t: Alphabet, a: string, b: string)
    requires t.Accepted(a) && t.Accepted(b) && a[1..] == b[1..]
    requires t.Digit(a[0]) == t.Digit(b[0]) && a[0] < b[0]
    ensures t.TicksOf(a) == t.TicksOf(b) && LexLess(a, b)
  {
    forall k: nat | k < WIDTH && DigitAt(k) ensures t.Digit(a[k]) == t.Digit(b[k]) {
      assert k > 0 ==> a[k] == a[1..][k - 1] && b[k] == b[1..][k - 1];
    }
    t.TicksIdentifyDigits(a, b);
  }

  const REST := "026-10-03T00:00:03.1234567Z"

  lemma MatchesAnyMillennium(t: Alphabet, s: string)
    requires t.Valid() && |s| == WIDTH && s[1..] == REST && t.IsDigit(s[0])
    ensures t.Matches(s) && t.ParsesFields(s)
    ensures s[1] == s[11] == s[12] == s[14] == s[15] == s[17] == '0' && s[2] == '2' && s[3] == '6'
    ensures s[5] == '1' && s[6] == '0' && s[8] == '0' && s[9] == '3' && s[18] == '3'
  {
    assert forall k: nat :: 1 <= k < WIDTH ==> s[k] == REST[k - 1];
  }

  lemma AcceptsAnyMillennium(t: Alphabet, s: string)
    requires t.Valid() && |s| == WIDTH && s[1..] == REST && t.IsDigit(s[0])
    ensures t.Accepted(s)
  {
    MatchesAnyMillennium(t, s);
    Reads(t, s, t.Digit(s[0]), 0, 2, 6);
  }

  /** Injectivity fails on the strings `creation_ticks` accepts: two spellings of one instant
      differ only in a full-width digit, and the string order puts them apart. */
  lemma UnicodeDigitsCollide()
    ensures var a, b := "2026-10-03T00:00:03.1234567Z", "\U{FF12}026-10-03T00:00:03.1234567Z";
            && PYTHON.Accepted(a) && PYTHON.Accepted(b) && PYTHON.TicksOf(a) == PYTHON.TicksOf(b)
            && LexLess(a, b)
  {
    var a, b := "2026-10-03T00:00:03.1234567Z", "\U{FF12}026-10-03T00:00:03.1234567Z";
    var t := PYTHON;
    assert t.Valid() && t.zeros[1] == 0xFF10;
    assert DigitIn(0xFF12, t.zeros) == DigitIn(0xFF12, t.zeros[1..]) == 2;
    assert a[1..] == b[1..] == REST;
    AcceptsAnyMillennium(t, a);
    AcceptsAnyMillennium(t, b);
    RespelledDigitCollides(t, a, b);
  }

  /** The string order is the FILETIME order on everything the alphabet accepts. */
  ghost predicate OrderAgrees(t: Alphabet) {
    forall a, b :: t.Accepted(a) && t.Accepted(b) ==> (LexLess(a, b) <==> t.TicksOf(a) < t.TicksOf(b))
  }

  /** Another spelling of an ASCII digit gives two strings of the same instant. */
  lemma RespellingDisagrees(t: Alphabet, c: char) returns (a: string, b: string)
    requires t.Valid() && t.IsDigit(c) && !('0' <= c <= '9')
    ensures t.Accepted(a) && t.Accepted(b) && t.TicksOf(a) == t.TicksOf(b) && LexLess(a, b)
  {
    var ascii := ('0' as int + t.Digit(c)) as char;
    a, b := [if ascii < c then ascii else c] + REST, [if ascii < c then c else ascii] + REST;
    assert a[1..] == b[1..] == REST && t.Digit(ascii) == t.Digit(c);
    AcceptsAnyMillennium(t, a);
    AcceptsAnyMillennium(t, b);
    RespelledDigitCollides(t, a, b);
  }

  ghost predicate AsciiOnly(t: Alphabet) {
    forall c :: t.IsDigit(c) ==> '0' <= c <= '9'
  }

  lemma AcceptedIsAscii(t: Alphabet, s: string)
    requires AsciiOnly(t) && t.Accepted(s)
    ensures t.Stamp(s)
  {
  }

  /** The orders agree exactly for an alphabet whose digits are all ASCII. */
  lemma OrderAgreesExactly(t: Alphabet)
    requires t.Valid()
    ensures OrderAgrees(t) <==> AsciiOnly(t)
  {
    if AsciiOnly(t) {
      forall a, b | t.Accepted(a) && t.Accepted(b) ensures LexLess(a, b) <==> t.TicksOf(a) < t.TicksOf(b) {
        AcceptedIsAscii(t, a);
        AcceptedIsAscii(t, b);
        t.StampOrder(a, b);
      }
    } else {
      var c :| t.IsDigit(c) && !('0' <= c <= '9');
      var a, b := RespellingDisagrees(t, c);
    }
  }

  // --------------------------------------------------------------- instances

  const EPOCH := "1970-01-01T00:00:00.0000000Z"
  const SECOND := "1970-01-01T00:00:01.0000000Z"

  lemma EpochMatches(t: Alphabet)
    requires t.Valid()
    ensures t.Matches(EPOCH) && t.ParsesFields(EPOCH) && AllAscii(EPOCH)
  {
  }

  lemma SecondMatches(t: Alphabet)
    requires t.Valid()
    ensures t.Matches(SECOND) && t.ParsesFields(SECOND) && AllAscii(SECOND)
  {
  }

  lemma EpochHasNoFraction(t: Alphabet)
    requires t.Valid()
    ensures t.Field(EPOCH, 6) == 0
  {
    assert t.Number(EPOCH, 20, 2) == 0;
    assert t.Number(EPOCH, 20, 4) == 0;
    assert t.Number(EPOCH, 20, 6) == 0;
  }

  lemma SecondHasNoFraction(t: Alphabet)
    requires t.Valid()
    ensures t.Field(SECOND, 6) == 0
  {
    assert t.Number(SECOND, 20, 2) == 0;
    assert t.Number(SECOND, 20, 4) == 0;
    assert t.Number(SECOND, 20, 6) == 0;
  }

  lemma SecondReads(t: Alphabet, s: string)
    requires t.Valid() && t.Matches(s) && t.Field(s, 6) == 0 && s[0] == '1' && s[1] == '9' && s[2] == '7' && s[3] == '0'
    requires s[5] == s[8] == s[11] == s[12] == s[14] == s[15] == s[17] == '0' && s[6] == s[9] == '1'
    ensures t.Parse(s) == Moment(1970, 1, 1, 0, 0, t.Digit(s[18]), 0)
  {
    Reads(t, s, 1, 9, 7, 0);
  }

  lemma SecondTicks(second: int)
    requires 0 <= second < 60
    ensures var m := Moment(1970, 1, 1, 0, 0, second, 0); m.Valid() && m.Ticks() == 116444736000000000 + 10_000_000 * second
  {
  }

  /** The FILETIME of the Unix epoch. */
  lemma UnixEpoch(t: Alphabet)
    requires t.Valid()
    ensures t.Stamp(EPOCH) && t.CreationTicks(EPOCH) == Ok(116444736000000000)
  {
    EpochMatches(t);
    EpochHasNoFraction(t);
    SecondReads(t, EPOCH);
    SecondTicks(0);
  }

  /** One second later. */
  lemma UnixSecond(t: Alphabet)
    requires t.Valid()
    ensures t.Stamp(SECOND) && t.CreationTicks(SECOND) == Ok(116444736010000000)
  {
    SecondMatches(t);
    SecondHasNoFraction(t);
    SecondReads(t, SECOND);
    SecondTicks(1);
  }
}
