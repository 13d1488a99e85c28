/**
 The timestamp layout the agent prints and parses: section 5.6 of RFC 3339 at one-second
 precision, as Go's time.RFC3339 layout renders it ("Z" for a zero offset).
 */
module Rfc3339 {
  import opened Wrappers
  import opened Text

  /** A civil date and time with its zone, in minutes east of UTC. */
  datatype Timestamp = Timestamp(year: int, month: int, day: int, hour: int, minute: int, second: int, offset: int)

  predicate IsLeap(year: int) {
    year % 4 == 0 && (year % 100 != 0 || year % 400 == 0)
  }

  function DaysIn(year: int, month: int): (d: int)
    ensures 28 <= d <= 31
  {
    if month == 2 then (if IsLeap(year) then 29 else 28)
    else if month == 4 || month == 6 || month == 9 || month == 11 then 30
    else 31
  }

  predicate ValidDate(year: int, month: int, day: int) {
    1 <= month <= 12 && 1 <= day <= DaysIn(year, month)
  }

  predicate ValidClock(hour: int, minute: int, second: int) {
    0 <= hour < 24 && 0 <= minute < 60 && 0 <= second < 60
  }

  predicate Valid(t: Timestamp) {
    && 0 <= t.year <= 9999
    && ValidDate(t.year, t.month, t.day)
    && ValidClock(t.hour, t.minute, t.second)
    && -1440 < t.offset < 1440
  }

  function Tens(n: int): char { Digit(n / 10) }

  function Ones(n: int): char { Digit(n % 10) }

  function Zone(offset: int): string {
    if offset == 0 then "Z"
    else
      var m := if offset < 0 then -offset else offset;
      var h, r := m / 60, m % 60;
      [if offset < 0 then '-' else '+', Tens(h), Ones(h), ':', Tens(r), Ones(r)]
  }

  function DateTime(t: Timestamp): (s: string)
    ensures |s| == 19
  {
    [Tens(t.year / 100), Ones(t.year / 100), Tens(t.year % 100), Ones(t.year % 100), '-',
     Tens(t.month), Ones(t.month), '-', Tens(t.day), Ones(t.day), 'T',
     Tens(t.hour), Ones(t.hour), ':', Tens(t.minute), Ones(t.minute), ':', Tens(t.second), Ones(t.second)]
  }

  /** time.Time.Format(time.RFC3339). */
  function FormatTime(t: Timestamp): string {
    DateTime(t) + Zone(t.offset)
  }

  /** Value of the two digits at `i`, or -1 when they are not digits. */
  function TwoAt(s: string, i: nat): int
    requires i + 2 <= |s|
  {
    if IsDigit(s[i]) && IsDigit(s[i + 1]) then 10 * DigitValue(s[i]) + DigitValue(s[i + 1]) else -1
  }

  function ParseZone(z: string): (r: Option<int>) {
    if z == "Z" then Some(0)
    else if |z| == 6 && (z[0] == '+' || z[0] == '-') && z[3] == ':' then
      var h, m := TwoAt(z, 1), TwoAt(z, 4);
      if 0 <= h < 24 && 0 <= m < 60 then Some(if z[0] == '-' then -(60 * h + m) else 60 * h + m) else None
    else None
  }

  predicate Separated(s: string)
    requires |s| >= 19
  {
    s[4] == '-' && s[7] == '-' && s[10] == 'T' && s[13] == ':' && s[16] == ':'
  }

  /** time.Parse(time.RFC3339, s), without the fractional seconds Go also tolerates. */
  function ParseTime(s: string): (r: Option<Timestamp>)
    ensures r.Some? ==> Valid(r.value)
  {
    if |s| < 19 || !Separated(s) then None
    else
      var hi, lo := TwoAt(s, 0), TwoAt(s, 2);
      var zone := ParseZone(s[19..]);
      if hi < 0 || lo < 0 || zone.None? then None
      else
        var t := Timestamp(100 * hi + lo, TwoAt(s, 5), TwoAt(s, 8), TwoAt(s, 11), TwoAt(s, 14), TwoAt(s, 17),
          zone.value);
        if ValidDate(t.year, t.month, t.day) && ValidClock(t.hour, t.minute, t.second) then Some(t) else None
  }

  lemma TwoAtOf(s: string, i: nat, n: int)
    requires i + 2 <= |s| && 0 <= n < 100
    requires s[i] == Tens(n) && s[i + 1] == Ones(n)
    ensures TwoAt(s, i) == n
  {
  }

  lemma ParseZoneOfZone(offset: int)
    requires -1440 < offset < 1440
    ensures ParseZone(Zone(offset)) == Some(offset)
  {
    var m := if offset < 0 then -offset else offset;
    if offset != 0 {
      TwoAtOf(Zone(offset), 1, m / 60);
      TwoAtOf(Zone(offset), 4, m % 60);
    }
  }

  /** Where the layout puts each field: the columns ParseTime looks at. */
  ghost predicate Laid(s: string, t: Timestamp) {
    && |s| >= 19 && Separated(s)
    && s[0] == Tens(t.year / 100) && s[1] == Ones(t.year / 100)
    && s[2] == Tens(t.year % 100) && s[3] == Ones(t.year % 100)
    && s[5] == Tens(t.month) && s[6] == Ones(t.month)
    && s[8] == Tens(t.day) && s[9] == Ones(t.day)
    && s[11] == Tens(t.hour) && s[12] == Ones(t.hour)
    && s[14] == Tens(t.minute) && s[15] == Ones(t.minute)
    && s[17] == Tens(t.second) && s[18] == Ones(t.second)
  }

  lemma LaidOut(t: Timestamp)
    ensures Laid(FormatTime(t), t)
  {
    var s, d := FormatTime(t), DateTime(t);
    assert forall i | 0 <= i < 19 :: s[i] == d[i];
  }

  lemma ReadDate(s: string, t: Timestamp)
    requires Valid(t) && Laid(s, t)
    ensures TwoAt(s, 0) == t.year / 100 && TwoAt(s, 2) == t.year % 100
    ensures TwoAt(s, 5) == t.month && TwoAt(s, 8) == t.day
  {
    TwoAtOf(s, 0, t.year / 100);
    TwoAtOf(s, 2, t.year % 100);
    TwoAtOf(s, 5, t.month);
    TwoAtOf(s, 8, t.day);
  }

  lemma ReadClock(s: string, t: Timestamp)
    requires Valid(t) && Laid(s, t)
    ensures TwoAt(s, 11) == t.hour && TwoAt(s, 14) == t.minute && TwoAt(s, 17) == t.second
  {
    TwoAtOf(s, 11, t.hour);
    TwoAtOf(s, 14, t.minute);
    TwoAtOf(s, 17, t.second);
  }

  lemma Centuries(year: int)
    ensures 100 * (year / 100) + year % 100 == year
  {
  }

  /** What the agent prints, the agent reads back: every valid stamp survives the trip. */
  lemma ParseFormat(t: Timestamp)
    requires Valid(t)
    ensures ParseTime(FormatTime(t)) == Some(t)
  {
    var s := FormatTime(t);
    assert s[19..] == Zone(t.offset);
    hide Tens, Ones, TwoAt, Zone, ParseZone, DateTime, IsLeap, DaysIn;
    ParseZoneOfZone(t.offset);
    LaidOut(t);
    ReadDate(s, t);
    ReadClock(s, t);
    Centuries(t.year);
  }

  /** The layout by example: half past five behind UTC, and UTC itself. */
  lemma LayoutByExample()
    ensures FormatTime(Timestamp(2024, 2, 29, 23, 5, 7, -330)) == "2024-02-29T23:05:07-05:30"
    ensures FormatTime(Timestamp(1987, 6, 14, 3, 20, 0, 0)) == "1987-06-14T03:20:00Z"
  {
    assert DateTime(Timestamp(2024, 2, 29, 23, 5, 7, -330)) == "2024-02-29T23:05:07" && Zone(-330) == "-05:30";
    assert DateTime(Timestamp(1987, 6, 14, 3, 20, 0, 0)) == "1987-06-14T03:20:00" && Zone(0) == "Z";
  }

  /** A stamp never contains a space, so it survives being the first word of a line. */
  lemma FormatHasNoSpace(t: Timestamp)
    ensures forall i | 0 <= i < |FormatTime(t)| :: FormatTime(t)[i] != ' ' && FormatTime(t)[i] != '\n'
  {
    var d, z := DateTime(t), Zone(t.offset);
    assert forall i | 0 <= i < 19 :: d[i] != ' ' && d[i] != '\n';
    assert forall i | 0 <= i < |z| :: z[i] != ' ' && z[i] != '\n';
  }

  function DaysBefore(year: int, month: int): int
    requires 1 <= month <= 12
  {
    [0, 31, 59, 90, 120, 151, 181, 212, 243, 273, 304, 334][month - 1] + (if IsLeap(year) && month > 2 then 1 else 0)
  }

  function Ceil(a: int, n: int): int
    requires n > 0
  {
    (a + n - 1) / n
  }

  /** Leap years from year 0 up to, not including, the given one. */
  function LeapsBefore(year: int): int { Ceil(year, 4) - Ceil(year, 100) + Ceil(year, 400) }

  /** Days from the start of year 0 of the proleptic Gregorian calendar. */
  function DayNumber(year: int, month: int, day: int): int
    requires 1 <= month <= 12
  {
    365 * year + LeapsBefore(year) + DaysBefore(year, month) + day - 1
  }

  /** Seconds from the start of year 0, UTC: the moment a stamp denotes. */
  function Instant(t: Timestamp): int
    requires ValidDate(t.year, t.month, t.day)
  {
    86400 * DayNumber(t.year, t.month, t.day) + 3600 * t.hour + 60 * (t.minute - t.offset) + t.second
  }

  /** The same for any stamp; what is no date counts as the start of year 0. */
  function Moment(t: Timestamp): int { if ValidDate(t.year, t.month, t.day) then Instant(t) else 0 }

  function NextDay(t: Timestamp): Timestamp {
    if t.day < DaysIn(t.year, t.month) then t.(day := t.day + 1)
    else if t.month < 12 then t.(month := t.month + 1, day := 1)
    else t.(year := t.year + 1, month := 1, day := 1)
  }

  function PreviousDay(t: Timestamp): Timestamp {
    if t.day > 1 then t.(day := t.day - 1)
    else if t.month > 1 then t.(month := t.month - 1, day := DaysIn(t.year, t.month - 1))
    else t.(year := t.year - 1, month := 12, day := 31)
  }

  /**
   The count of seconds is the calendar's: between two dates fifty-four years apart, and over an hour and its zone.
   */
  lemma InstantByExample()
    ensures Instant(Timestamp(2024, 2, 29, 0, 0, 0, 0)) - Instant(Timestamp(1970, 1, 1, 0, 0, 0, 0)) == 1709164800
    ensures Instant(Timestamp(1970, 1, 1, 1, 2, 3, 60)) - Instant(Timestamp(1970, 1, 1, 0, 0, 0, 0)) == 123
  {
  }

  /** time.Time.UTC: the same moment with a zero offset. */
  function ToUtc(t: Timestamp): Timestamp {
    var m := 60 * t.hour + t.minute - t.offset;
    var day := if m < 0 then PreviousDay(t) else if m >= 1440 then NextDay(t) else t;
    var clock := if m < 0 then m + 1440 else if m >= 1440 then m - 1440 else m;
    day.(hour := clock / 60, minute := clock % 60, offset := 0)
  }

  lemma CeilStep4(y: int)
    ensures Ceil(y + 1, 4) - Ceil(y, 4) == if y % 4 == 0 then 1 else 0
  {
  }

  lemma CeilStep100(y: int)
    ensures Ceil(y + 1, 100) - Ceil(y, 100) == if y % 100 == 0 then 1 else 0
  {
  }

  lemma CeilStep400(y: int)
    ensures Ceil(y + 1, 400) - Ceil(y, 400) == if y % 400 == 0 then 1 else 0
  {
  }

  lemma Multiples(y: int)
    ensures y % 100 == 0 ==> y % 4 == 0
    ensures y % 400 == 0 ==> y % 100 == 0
  {
  }

  lemma LeapStep(y: int)
    ensures LeapsBefore(y + 1) - LeapsBefore(y) == if IsLeap(y) then 1 else 0
  {
    hide Ceil;
    CeilStep4(y);
    CeilStep100(y);
    CeilStep400(y);
    Multiples(y);
  }

  /** The calendar has no gaps: a year turns over into the first day of the next. */
  lemma YearTurns(year: int)
    ensures DayNumber(year + 1, 1, 1) == DayNumber(year, 12, 31) + 1
  {
    hide IsLeap, LeapsBefore;
    LeapStep(year);
  }

  lemma MonthTurns(year: int, month: int)
    requires 1 <= month < 12
    ensures DayNumber(year, month + 1, 1) == DayNumber(year, month, DaysIn(year, month)) + 1
  {
  }

  lemma NeighbourDays(t: Timestamp)
    requires ValidDate(t.year, t.month, t.day)
    ensures var n := NextDay(t);
            && ValidDate(n.year, n.month, n.day)
            && DayNumber(n.year, n.month, n.day) == DayNumber(t.year, t.month, t.day) + 1
    ensures var p := PreviousDay(t);
            && ValidDate(p.year, p.month, p.day)
            && DayNumber(p.year, p.month, p.day) == DayNumber(t.year, t.month, t.day) - 1
  {
    hide DayNumber, IsLeap;
    YearTurns(t.year);
    YearTurns(t.year - 1);
    if t.month < 12 {
      MonthTurns(t.year, t.month);
    }
    if t.month > 1 {
      MonthTurns(t.year, t.month - 1);
    }
    DayShift(t.year, t.month, t.day);
  }

  lemma DayShift(year: int, month: int, day: int)
    requires 1 <= month <= 12
    ensures DayNumber(year, month, day + 1) == DayNumber(year, month, day) + 1
    ensures DayNumber(year, month, day - 1) == DayNumber(year, month, day) - 1
  {
  }

  /** Normalising to UTC keeps the moment and yields a proper date and clock. */
  lemma ToUtcSameInstant(t: Timestamp)
    requires Valid(t)
    ensures var u := ToUtc(t);
            && ValidDate(u.year, u.month, u.day) && ValidClock(u.hour, u.minute, u.second) && u.offset == 0
            && Instant(u) == Instant(t)
  {
    NeighbourDays(t);
    hide DayNumber;
  }
}
