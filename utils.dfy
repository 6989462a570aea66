/** utils.py: the normalisation helpers that turn webhook values into the
    labels and dates written to the mailing list's merge fields. */
module Utils {
  import opened PyJson

  // ---------------------------------------------------------------------
  // convert_bool / convert_autorenew
  // ---------------------------------------------------------------------

  /** A real boolean picks its label directly; any other value is rendered
      with `str()`, lower-cased and compared with "true". */
  function ConvertBool(v: Json): string
  {
    match v
    case Bool(b) => if b then "Yes" else "No"
    case _ => if Lower(PyStr(v)) == "true" then "Yes" else "No"
  }

  function ConvertAutorenew(v: Json): string
  {
    match v
    case Bool(b) => if b then "On" else "Off"
    case _ => if Lower(PyStr(v)) == "true" then "On" else "Off"
  }

  /** The single test both converters apply. */
  predicate MeansTrue(v: Json)
  {
    v == Bool(true) || (v.Str? && Lower(v.s) == "true")
  }

  /** For a value that is not a boolean, `str(v).lower() == "true"` holds
      exactly for strings that spell "true" in any case: None, numbers,
      lists and dicts never do. */
  lemma {:induction false} StrLowerIsTrue(v: Json)
    requires !v.Bool?
    ensures Lower(PyStr(v)) == "true" <==> v.Str? && Lower(v.s) == "true"
  {
    match v
    case Null =>
      assert Lower("None")[0] == 'n';
    case Int(i) =>
      IntNeverLowersToWord(i, "true");
    case Str(_) =>
    case Arr(_) =>
      assert Lower("[...]")[0] == '[';
    case Obj(_) =>
      assert Lower("{...}")[0] == '{';
  }

  lemma ConvertBoolMeaning(v: Json)
    ensures ConvertBool(v) == "Yes" || ConvertBool(v) == "No"
    ensures ConvertBool(v) == "Yes" <==> MeansTrue(v)
  {
    if !v.Bool? {
      StrLowerIsTrue(v);
    }
  }

  lemma ConvertAutorenewMeaning(v: Json)
    ensures ConvertAutorenew(v) == "On" || ConvertAutorenew(v) == "Off"
    ensures ConvertAutorenew(v) == "On" <==> MeansTrue(v)
  {
    if !v.Bool? {
      StrLowerIsTrue(v);
    }
  }

  // ---------------------------------------------------------------------
  // The proleptic Gregorian calendar, counted from 1970-01-01
  // ---------------------------------------------------------------------

  datatype Date = Date(year: int, month: int, day: int)

  predicate IsLeap(y: int)
  {
    y % 4 == 0 && (y % 100 != 0 || y % 400 == 0)
  }

  function YearLength(y: int): int
  {
    if IsLeap(y) then 366 else 365
  }

  function DaysInMonth(y: int, m: int): int
    requires 1 <= m <= 12
  {
    if m == 2 then (if IsLeap(y) then 29 else 28)
    else if m == 4 || m == 6 || m == 9 || m == 11 then 30
    else 31
  }

  /** Days of year `y` before the first of month `m` (m == 13: the whole year). */
  function DaysBeforeMonth(y: int, m: int): int
    requires 1 <= m <= 13
  {
    [0, 31, 59, 90, 120, 151, 181, 212, 243, 273, 304, 334, 365][m - 1]
      + (if IsLeap(y) && m > 2 then 1 else 0)
  }

  predicate ValidDate(d: Date)
  {
    1 <= d.month <= 12 && 1 <= d.day <= DaysInMonth(d.year, d.month)
  }

  /** Leap years strictly before year `y`, counted from year 1 (Dafny's `/`
      rounds down for a positive divisor, so this also holds below year 1). */
  function LeapsBefore(y: int): int
  {
    (y - 1) / 4 - (y - 1) / 100 + (y - 1) / 400
  }

  /** Days from 1970-01-01 to the first of January of year `y`. */
  function DaysBeforeYear(y: int): int
  {
    365 * (y - 1970) + LeapsBefore(y) - LeapsBefore(1970)
  }

  /** The number of days from 1970-01-01 to `d`. */
  function EpochDay(d: Date): int
    requires ValidDate(d)
  {
    DaysBeforeYear(d.year) + DaysBeforeMonth(d.year, d.month) + d.day - 1
  }

  /** Going from `y - 1` to `y` crosses a multiple of `k` exactly when `y` is one. */
  lemma DivStep(y: int, k: int)
    requires k in {4, 100, 400}
    ensures y / k - (y - 1) / k == if y % k == 0 then 1 else 0
  {
    var q, r := (y - 1) / k, (y - 1) % k;
    assert y == k * q + r + 1;
    if r + 1 == k {
      assert y == k * (q + 1);
    } else {
      assert y == k * q + (r + 1) && 0 <= r + 1 < k;
    }
  }

  lemma LeapStep(y: int)
    ensures LeapsBefore(y + 1) - LeapsBefore(y) == if IsLeap(y) then 1 else 0
  {
    DivStep(y, 4);
    DivStep(y, 100);
    DivStep(y, 400);
    var a, b, c := y / 4 - (y - 1) / 4, y / 100 - (y - 1) / 100, y / 400 - (y - 1) / 400;
    assert LeapsBefore(y + 1) - LeapsBefore(y) == a - b + c;
    if y % 400 == 0 {
      var q := y / 400;
      assert y == 100 * (4 * q) && y == 4 * (100 * q);
    } else if y % 100 == 0 {
      var q := y / 100;
      assert y == 4 * (25 * q);
    }
  }

  lemma DaysBeforeNextYear(y: int)
    ensures DaysBeforeYear(y + 1) == DaysBeforeYear(y) + YearLength(y)
  {
    LeapStep(y);
  }

  lemma {:induction false} DaysBeforeYearGrows(y1: int, y2: int)
    requires y1 <= y2
    ensures DaysBeforeYear(y1) + 365 * (y2 - y1) <= DaysBeforeYear(y2)
    decreases y2 - y1
  {
    if y1 < y2 {
      DaysBeforeYearGrows(y1, y2 - 1);
      DaysBeforeNextYear(y2 - 1);
    }
  }

  // POSIX.1-2017 Base Definitions, section 4.16 "Seconds Since the Epoch":
  // tm_sec + tm_min*60 + tm_hour*3600 + tm_yday*86400 +
  // (tm_year-70)*31536000 + ((tm_year-69)/4)*86400 -
  // ((tm_year-1)/100)*86400 + ((tm_year+299)/400)*86400,
  // with tm_year = year - 1900, tm_yday counted from 0, and C's division,
  // which truncates toward zero.

  function CDiv(a: int, b: int): int
    requires b > 0
  {
    if a >= 0 then a / b else -((-a) / b)
  }

  function PosixSeconds(d: Date, hour: int, minute: int, second: int): int
    requires ValidDate(d)
  {
    var tmYear := d.year - 1900;
    var tmYday := DaysBeforeMonth(d.year, d.month) + d.day - 1;
    second + minute * 60 + hour * 3600 + tmYday * 86400
      + (tmYear - 70) * 31536000 + CDiv(tmYear - 69, 4) * 86400
      - CDiv(tmYear - 1, 100) * 86400 + CDiv(tmYear + 299, 400) * 86400
  }

  /** From 1970 on, the day count used here is the one POSIX defines. */
  lemma PosixAgrees(d: Date, hour: int, minute: int, second: int)
    requires ValidDate(d) && d.year >= 1970
    ensures PosixSeconds(d, hour, minute, second)
         == EpochDay(d) * 86400 + hour * 3600 + minute * 60 + second
  {
    var y := d.year;
    assert CDiv(y - 1969, 4) == (y - 1) / 4 - 492;
    assert CDiv(y - 1901, 100) == (y - 1) / 100 - 19;
    assert CDiv(y - 1601, 400) == (y - 1) / 400 - 4;
  }

  /** The year containing day `z` of year `y` (z may be negative or past the
      end of `y`), and the day's 0-based position within that year. */
  function YearOf(y: int, z: int): (r: (int, int))
    ensures 0 <= r.1 < YearLength(r.0)
    ensures DaysBeforeYear(r.0) + r.1 == DaysBeforeYear(y) + z
    decreases if z < 0 then 1 else 0, if z < 0 then -z else z
  {
    if z < 0 then
      DaysBeforeNextYear(y - 1);
      YearOf(y - 1, z + YearLength(y - 1))
    else if z >= YearLength(y) then
      DaysBeforeNextYear(y);
      YearOf(y + 1, z - YearLength(y))
    else
      (y, z)
  }

  lemma MonthStep(y: int, m: int)
    requires 1 <= m <= 12
    ensures DaysBeforeMonth(y, m + 1) == DaysBeforeMonth(y, m) + DaysInMonth(y, m)
  {
  }

  /** The date of the `doy`-th day (0-based) of year `y`, looking from month `m` on. */
  function MonthOf(y: int, m: int, doy: int): (r: Date)
    requires 1 <= m <= 12
    requires DaysBeforeMonth(y, m) <= doy < YearLength(y)
    ensures ValidDate(r) && r.year == y
    ensures DaysBeforeMonth(y, r.month) + r.day - 1 == doy
    decreases 12 - m
  {
    MonthStep(y, m);
    if doy < DaysBeforeMonth(y, m + 1) || m == 12 then
      Date(y, m, doy - DaysBeforeMonth(y, m) + 1)
    else
      MonthOf(y, m + 1, doy)
  }

  /** The calendar date `z` days after 1970-01-01. */
  function CivilFromDays(z: int): (r: Date)
    ensures ValidDate(r) && EpochDay(r) == z
  {
    var (y, doy) := YearOf(1970, z);
    MonthOf(y, 1, doy)
  }

  lemma DaysBeforeMonthGrows(y: int, m1: int, m2: int)
    requires 1 <= m1 < m2 <= 13
    ensures DaysBeforeMonth(y, m1) + DaysInMonth(y, m1) <= DaysBeforeMonth(y, m2)
  {
  }

  /** Distinct dates have distinct day numbers. */
  lemma EpochDayInjective(a: Date, b: Date)
    requires ValidDate(a) && ValidDate(b) && EpochDay(a) == EpochDay(b)
    ensures a == b
  {
    if a.year < b.year {
      DaysBeforeNextYear(a.year);
      DaysBeforeYearGrows(a.year + 1, b.year);
      DaysBeforeMonthGrows(a.year, a.month, 13);
      assert false;
    } else if b.year < a.year {
      DaysBeforeNextYear(b.year);
      DaysBeforeYearGrows(b.year + 1, a.year);
      DaysBeforeMonthGrows(b.year, b.month, 13);
      assert false;
    } else if a.month < b.month {
      DaysBeforeMonthGrows(a.year, a.month, b.month);
      assert false;
    } else if b.month < a.month {
      DaysBeforeMonthGrows(a.year, b.month, a.month);
      assert false;
    }
  }

  /** CivilFromDays is the inverse of EpochDay. */
  lemma CivilFromEpochDay(d: Date)
    requires ValidDate(d)
    ensures CivilFromDays(EpochDay(d)) == d
  {
    EpochDayInjective(CivilFromDays(EpochDay(d)), d);
  }

  // ---------------------------------------------------------------------
  // Rendering and recognising YYYY-MM-DD
  // ---------------------------------------------------------------------

  function Digit(n: int): char
    requires 0 <= n < 10
  {
    ('0' as int + n) as char
  }

  function DigitValue(c: char): int
  {
    c as int - '0' as int
  }

  function Pad2(n: int): string
    requires 0 <= n < 100
  {
    [Digit(n / 10), Digit(n % 10)]
  }

  function Pad4(n: int): string
    requires 0 <= n < 10000
  {
    Pad2(n / 100) + Pad2(n % 100)
  }

  function Value2(s: string): int
    requires |s| == 2
  {
    10 * DigitValue(s[0]) + DigitValue(s[1])
  }

  function Value4(s: string): int
    requires |s| == 4
  {
    100 * Value2(s[0..2]) + Value2(s[2..4])
  }

  /** `strftime("%Y-%m-%d")` */
  function RenderDate(d: Date): string
    requires ValidDate(d) && 1 <= d.year <= 9999
  {
    Pad4(d.year) + "-" + Pad2(d.month) + "-" + Pad2(d.day)
  }

  predicate DigitsAt(s: string, lo: int, hi: int)
    requires 0 <= lo <= hi <= |s|
  {
    forall i :: lo <= i < hi ==> IsDigit(s[i])
  }

  /** The date of `YYYY-MM-DD`: a calendar date from year 1 to 9999. */
  function DateOf(t: string): Date
    requires |t| == 10
  {
    Date(Value4(t[0..4]), Value2(t[5..7]), Value2(t[8..10]))
  }

  predicate IsIsoDate(t: string)
  {
    && |t| == 10
    && DigitsAt(t, 0, 4) && t[4] == '-' && DigitsAt(t, 5, 7) && t[7] == '-' && DigitsAt(t, 8, 10)
    && DateOf(t).year >= 1 && ValidDate(DateOf(t))
  }

  /** `HH:MM:SS` with hours below 24 and minutes and seconds below 60. */
  predicate IsClock(c: string)
  {
    && |c| == 8
    && DigitsAt(c, 0, 2) && c[2] == ':' && DigitsAt(c, 3, 5) && c[5] == ':' && DigitsAt(c, 6, 8)
    && Value2(c[0..2]) < 24 && Value2(c[3..5]) < 60 && Value2(c[6..8]) < 60
  }

  /** An optional `+HH:MM` or `-HH:MM` offset. */
  predicate IsOffset(o: string)
  {
    || o == ""
    || (&& |o| == 6 && (o[0] == '+' || o[0] == '-')
        && DigitsAt(o, 1, 3) && o[3] == ':' && DigitsAt(o, 4, 6)
        && Value2(o[1..3]) < 24 && Value2(o[4..6]) < 60)
  }

  /** The shapes of ISO 8601 text the model accepts: a date, optionally
      followed by any one separator character, a clock time and an offset. */
  predicate IsIsoDateTime(s: string)
  {
    && |s| >= 10 && IsIsoDate(s[..10])
    && (|s| == 10 || (|s| >= 19 && IsClock(s[11..19]) && IsOffset(s[19..])))
  }

  /** `s.replace("Z", "+00:00")` */
  function ReplaceZ(s: string): string
  {
    if s == [] then []
    else (if s[0] == 'Z' then "+00:00" else [s[0]]) + ReplaceZ(s[1..])
  }

  // ---------------------------------------------------------------------
  // format_date
  // ---------------------------------------------------------------------

  /** `datetime.utcfromtimestamp(ts).strftime("%Y-%m-%d")`, or "" when the
      date falls outside years 1 to 9999 (Python raises then). */
  function DateOfTimestamp(ts: int): string
  {
    var d := CivilFromDays(ts / 86400);
    if 1 <= d.year <= 9999 then RenderDate(d) else ""
  }

  /** format_date: a number of seconds since the epoch (a bool counts as the
      number 0 or 1) or an ISO 8601 date-time, reduced to `YYYY-MM-DD`;
      anything else, or anything that fails to parse, gives "". */
  function FormatDate(v: Json): string
  {
    match v
    case Int(ts) => DateOfTimestamp(ts)
    case Bool(b) => DateOfTimestamp(if b then 1 else 0)
    case Str(s) =>
      var t := ReplaceZ(s);
      if IsIsoDateTime(t) then t[..10] else ""
    case _ => ""
  }

  lemma {:induction false} ReplaceZConcat(a: string, b: string)
    ensures ReplaceZ(a + b) == ReplaceZ(a) + ReplaceZ(b)
  {
    if a == [] {
      assert a + b == b;
    } else {
      assert (a + b)[0] == a[0];
      assert (a + b)[1..] == a[1..] + b;
      ReplaceZConcat(a[1..], b);
    }
  }

  lemma {:induction false} ReplaceZNoZ(s: string)
    requires forall i :: 0 <= i < |s| ==> s[i] != 'Z'
    ensures ReplaceZ(s) == s
  {
    if s != [] {
      ReplaceZNoZ(s[1..]);
    }
  }

  lemma Pad2Value(n: int)
    requires 0 <= n < 100
    ensures DigitsAt(Pad2(n), 0, 2) && Value2(Pad2(n)) == n
  {
  }

  lemma Pad4Value(n: int)
    requires 0 <= n < 10000
    ensures DigitsAt(Pad4(n), 0, 4) && Value4(Pad4(n)) == n
  {
    var p := Pad4(n);
    Pad2Value(n / 100);
    Pad2Value(n % 100);
    assert p[0..2] == Pad2(n / 100) && p[2..4] == Pad2(n % 100);
    assert forall i :: 0 <= i < 2 ==> p[i] == Pad2(n / 100)[i];
    assert forall i :: 2 <= i < 4 ==> p[i] == Pad2(n % 100)[i - 2];
  }

  lemma RenderDateIsIso(d: Date)
    requires ValidDate(d) && 1 <= d.year <= 9999
    ensures IsIsoDate(RenderDate(d)) && DateOf(RenderDate(d)) == d
  {
    var r := RenderDate(d);
    Pad4Value(d.year);
    Pad2Value(d.month);
    Pad2Value(d.day);
    assert r[0..4] == Pad4(d.year) && r[5..7] == Pad2(d.month) && r[8..10] == Pad2(d.day);
    assert forall i :: 0 <= i < 4 ==> r[i] == Pad4(d.year)[i];
    assert forall i :: 5 <= i < 7 ==> r[i] == Pad2(d.month)[i - 5];
    assert forall i :: 8 <= i < 10 ==> r[i] == Pad2(d.day)[i - 8];
  }

  /** format_date's output is either "" or a date in `YYYY-MM-DD` form. */
  lemma FormatDateShape(v: Json)
    ensures FormatDate(v) == "" || IsIsoDate(FormatDate(v))
  {
    match v
    case Int(ts) =>
      var d := CivilFromDays(ts / 86400);
      if 1 <= d.year <= 9999 { RenderDateIsIso(d); }
    case Bool(b) =>
      var d := CivilFromDays((if b then 1 else 0) / 86400);
      if 1 <= d.year <= 9999 { RenderDateIsIso(d); }
    case Str(s) =>
    case _ =>
  }

  /** A timestamp yields the UTC calendar date of the day it falls in. */
  lemma TimestampDate(ts: int, d: Date)
    requires ValidDate(d) && 1 <= d.year <= 9999
    requires EpochDay(d) * 86400 <= ts < EpochDay(d) * 86400 + 86400
    ensures FormatDate(Int(ts)) == RenderDate(d)
  {
    assert ts / 86400 == EpochDay(d);
    CivilFromEpochDay(d);
  }

  /** A bare `YYYY-MM-DD` date formats as itself. */
  lemma IsoDateReadsBack(r: string)
    requires IsIsoDate(r)
    ensures FormatDate(Str(r)) == r
  {
    assert forall i :: 0 <= i < |r| ==> r[i] != 'Z' by {
      forall i | 0 <= i < |r| ensures r[i] != 'Z' {
        assert i == 4 || i == 7 || IsDigit(r[i]);
      }
    }
    ReplaceZNoZ(r);
    assert r[..10] == r;
  }

  /** Formatting is idempotent: a produced date reads back as itself. */
  lemma FormatDateIdempotent(v: Json)
    ensures FormatDate(Str(FormatDate(v))) == FormatDate(v)
  {
    var r := FormatDate(v);
    FormatDateShape(v);
    if r != "" {
      IsoDateReadsBack(r);
    }
  }

  /** An ISO date-time with a trailing "Z" yields its date part. */
  lemma ZuluDateTime(date: string, clock: string)
    requires IsIsoDate(date) && IsClock(clock)
    ensures FormatDate(Str(date + "T" + clock + "Z")) == date
  {
    var noZ := date + "T" + clock;
    assert forall i :: 0 <= i < |noZ| ==> noZ[i] != 'Z' by {
      forall i | 0 <= i < |noZ| ensures noZ[i] != 'Z' {
        if i < 10 {
          assert noZ[i] == date[i];
          assert i == 4 || i == 7 || IsDigit(date[i]);
        } else if i > 10 {
          assert noZ[i] == clock[i - 11];
          assert i - 11 == 2 || i - 11 == 5 || IsDigit(clock[i - 11]);
        }
      }
    }
    ReplaceZNoZ(noZ);
    ReplaceZConcat(noZ, "Z");
    var t := noZ + "+00:00";
    assert ReplaceZ(date + "T" + clock + "Z") == t;
    assert t[..10] == date;
    assert t[11..19] == clock;
    assert t[19..] == "+00:00";
  }

  /** Unix time 1700000000 falls on 2023-11-14 (UTC). */
  lemma TimestampExample()
    ensures FormatDate(Int(1700000000)) == "2023-11-14"
  {
    var d := Date(2023, 11, 14);
    assert DaysBeforeYear(2023) == 19358;
    assert EpochDay(d) == 19675;
    assert RenderDate(d) == "2023-11-14";
    TimestampDate(1700000000, d);
  }

  lemma IsoExample()
    ensures FormatDate(Str("2023-11-14T22:13:20Z")) == "2023-11-14"
  {
    var date, clock := "2023-11-14", "22:13:20";
    assert DateOf(date) == Date(2023, 11, 14);
    assert IsIsoDate(date);
    assert IsClock(clock);
    ZuluDateTime(date, clock);
    assert date + "T" + clock + "Z" == "2023-11-14T22:13:20Z";
  }

  /** "2023-11-14T22:13:20Z" names the same day as Unix time 1700000000. */
  lemma SameDayTwoWays()
    ensures FormatDate(Str("2023-11-14T22:13:20Z")) == FormatDate(Int(1700000000)) == "2023-11-14"
  {
    TimestampExample();
    IsoExample();
  }

  /** The signup date the workflow test expects for "2023-01-01T00:00:00Z". */
  lemma SignupDateExample()
    ensures FormatDate(Str("2023-01-01T00:00:00Z")) == "2023-01-01"
  {
    assert IsIsoDate("2023-01-01");
    assert IsClock("00:00:00");
    ZuluDateTime("2023-01-01", "00:00:00");
    assert "2023-01-01" + "T" + "00:00:00" + "Z" == "2023-01-01T00:00:00Z";
  }

  /** None and text that is no date give "" rather than an error. */
  lemma FormatDateFailsToEmpty()
    ensures FormatDate(Null) == ""
    ensures FormatDate(Str("")) == ""
    ensures FormatDate(Str("yesterday")) == ""
  {
    assert ReplaceZ("yesterday") == "yesterday" by {
      ReplaceZNoZ("yesterday");
    }
  }
}
