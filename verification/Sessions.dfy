/** Charging session records: decoding, and removing duplicates. */
module Sessions {
  import opened Bytes
  import opened Errors
  import opened Frames

  // ---- Timestamps ----

  datatype DateTime = DateTime(year: int, month: int, day: int, hour: int, minute: int, second: int)

  predicate IsLeap(year: int) {
    year % 4 == 0 && (year % 100 != 0 || year % 400 == 0)
  }

  function DaysInMonth(year: int, month: int): int {
    if month == 2 then if IsLeap(year) then 29 else 28
    else if month in {4, 6, 9, 11} then 30
    else 31
  }

  /** What Python's `datetime(...)` accepts, for the years a byte can name. */
  predicate Exists(d: DateTime) {
    && 1900 <= d.year <= 2155 && 1 <= d.month <= 12 && 1 <= d.day <= DaysInMonth(d.year, d.month)
    && 0 <= d.hour < 24 && 0 <= d.minute < 60 && 0 <= d.second < 60
  }

  function DecodeTimestamp(time: Bytes, date: Bytes): Option<DateTime>
    requires |time| == |date| == 3
  {
    var d := DateTime(YEAR_EPOCH + date[0], date[1], date[2], time[0], time[1], time[2]);
    if Exists(d) then Some(d) else None
  }

  // ---- The calendar, by day numbers ----

  /** Days before the first of January of `year`, from the year 1 on. */
  function DaysBeforeYear(year: int): int
    requires year >= 1
  {
    365 * (year - 1) + (year - 1) / 4 - (year - 1) / 100 + (year - 1) / 400
  }

  function YearLength(year: int): int
    requires year >= 1
  {
    DaysBeforeYear(year + 1) - DaysBeforeYear(year)
  }

  const DAYS_BEFORE_MONTH: seq<int> := [0, 31, 59, 90, 120, 151, 181, 212, 243, 273, 304, 334]

  /** Days of `year` before its month number `month`; the 13th is the next year's first. */
  function DaysBeforeMonth(year: int, month: int): int
    requires year >= 1 && 1 <= month <= 13
  {
    if month == 13 then YearLength(year)
    else DAYS_BEFORE_MONTH[month - 1] + if month > 2 && YearLength(year) == 366 then 1 else 0
  }

  /** The number of a day, the first of January of the year 1 being 1. */
  function DayNumber(year: int, month: int, day: int): int
    requires year >= 1 && 1 <= month <= 13
  {
    DaysBeforeYear(year) + DaysBeforeMonth(year, month) + day
  }

  /** The day is in its month, for the years a byte can name. */
  predicate IsDay(year: int, month: int, day: int) {
    && 1900 <= year <= 2155 && 1 <= month <= 12 && day >= 1
    && DayNumber(year, month, day) < DayNumber(year, month + 1, 1)
  }

  predicate IsMoment(d: DateTime) {
    IsDay(d.year, d.month, d.day) && 0 <= d.hour < 24 && 0 <= d.minute < 60 && 0 <= d.second < 60
  }

  lemma YearLengths(year: int)
    requires year >= 1
    ensures YearLength(year) == if IsLeap(year) then 366 else 365
  {
    MultiplesStep(year, 4);
    MultiplesStep(year, 100);
    MultiplesStep(year, 400);
  }

  lemma MultiplesStep(n: int, k: int)
    requires n >= 1 && k in {4, 100, 400}
    ensures n / k - (n - 1) / k == if n % k == 0 then 1 else 0
  {
  }

  lemma MonthLengths(year: int, month: int)
    requires year >= 1 && 1 <= month <= 12
    ensures DaysBeforeMonth(year, month + 1) - DaysBeforeMonth(year, month) == DaysInMonth(year, month)
  {
    YearLengths(year);
  }

  /** The dates accepted are the days of the calendar. */
  lemma AcceptedDatesAreDays(d: DateTime)
    ensures Exists(d) <==> IsMoment(d)
  {
    if d.year >= 1 && 1 <= d.month <= 12 {
      MonthLengths(d.year, d.month);
    }
  }

  lemma {:induction false} YearsInOrder(a: int, b: int)
    requires 1 <= a < b
    ensures DaysBeforeYear(a) + YearLength(a) <= DaysBeforeYear(b)
    decreases b - a
  {
    if a + 1 < b {
      YearLengths(a + 1);
      YearsInOrder(a + 1, b);
    }
  }

  /** No two days share a number. */
  lemma DayNumbersDiffer(y1: int, m1: int, d1: int, y2: int, m2: int, d2: int)
    requires IsDay(y1, m1, d1) && IsDay(y2, m2, d2) && DayNumber(y1, m1, d1) == DayNumber(y2, m2, d2)
    ensures y1 == y2 && m1 == m2 && d1 == d2
  {
    InYear(y1, m1, d1);
    InYear(y2, m2, d2);
    if y1 < y2 {
      YearsInOrder(y1, y2);
    } else if y2 < y1 {
      YearsInOrder(y2, y1);
    } else {
      YearLengths(y1);
    }
  }

  lemma InYear(year: int, month: int, day: int)
    requires IsDay(year, month, day)
    ensures DaysBeforeYear(year) < DayNumber(year, month, day) <= DaysBeforeYear(year) + YearLength(year)
  {
    YearLengths(year);
  }

  lemma NextDay(year: int, month: int, day: int) returns (y: int, m: int, d: int)
    requires IsDay(year, month, day) && DayNumber(year, month, day) < 787097
    ensures IsDay(y, m, d) && DayNumber(y, m, d) == DayNumber(year, month, day) + 1
  {
    YearLengths(year);
    assert DayNumber(2155, 12, 31) == 787097;
    if DayNumber(year, month, day) + 1 < DayNumber(year, month + 1, 1) {
      y, m, d := year, month, day + 1;
    } else if month < 12 {
      y, m, d := year, month + 1, 1;
    } else {
      YearLengths(year + 1);
      y, m, d := year + 1, 1, 1;
    }
  }

  /** The days from the first of January 1900 to the last of December 2155 are
      numbered 693596 to 787097, each number once. */
  lemma {:induction false} DaysAreConsecutive(n: int) returns (year: int, month: int, day: int)
    requires 693596 <= n <= 787097
    ensures IsDay(year, month, day) && DayNumber(year, month, day) == n
    decreases n
  {
    if n == 693596 {
      year, month, day := 1900, 1, 1;
    } else {
      year, month, day := DaysAreConsecutive(n - 1);
      year, month, day := NextDay(year, month, day);
    }
  }

  /** The leap years that tell the rules apart, and the ends of the range. */
  lemma CalendarLandmarks()
    ensures IsDay(2000, 2, 29) && IsDay(2024, 2, 29) && !IsDay(1900, 2, 29) && !IsDay(2100, 2, 29)
    ensures IsDay(1900, 1, 1) && DayNumber(1900, 1, 1) == 693596
    ensures IsDay(2155, 12, 31) && DayNumber(2155, 12, 31) == 787097
    ensures IsDay(2024, 12, 31) && !IsDay(2024, 4, 31) && !IsDay(2024, 13, 1)
  {
  }

  // ---- Records ----

  /** Energy is in the record's own unit, hundredths of a kWh. */
  datatype Session = Session(start: DateTime, end: DateTime, energy: nat)

  function DecodeSession(data: Bytes): Option<Session> {
    if |data| != SESSION_RECORD_LENGTH || data[0] != RECORD_START_MARKER
       || data[|data| - 1] != RECORD_END_MARKER then None
    else
      match (DecodeTimestamp(data[1..4], data[6..9]), DecodeTimestamp(data[11..14], data[16..19]))
      case (Some(start), Some(end)) => Some(Session(start, end, Unpack(data[21..25])))
      case _ => None
  }

  predicate Recordable(s: Session) {
    IsMoment(s.start) && IsMoment(s.end) && s.energy < WORD_LIMIT
  }

  function TimeBytes(d: DateTime): Bytes
    requires IsMoment(d)
  {
    [d.hour, d.minute, d.second]
  }

  function DateBytes(d: DateTime): Bytes
    requires IsMoment(d)
  {
    AcceptedDatesAreDays(d);
    [d.year - YEAR_EPOCH, d.month, d.day]
  }

  /** A record of session `s`; `filler` supplies the eight bytes nothing reads. */
  function EncodeSession(s: Session, filler: Bytes): (data: Bytes)
    requires Recordable(s) && |filler| == 8
    ensures |data| == SESSION_RECORD_LENGTH
  {
    [RECORD_START_MARKER] + TimeBytes(s.start) + filler[0..2] + DateBytes(s.start) + filler[2..4]
    + TimeBytes(s.end) + filler[4..6] + DateBytes(s.end) + filler[6..8] + Pack(s.energy) + [RECORD_END_MARKER]
  }

  function FillerOf(data: Bytes): (filler: Bytes)
    requires |data| == SESSION_RECORD_LENGTH
    ensures |filler| == 8
  {
    data[4..6] + data[9..11] + data[14..16] + data[19..21]
  }

  lemma DecodeInvertsEncode(s: Session, filler: Bytes)
    requires Recordable(s) && |filler| == 8
    ensures DecodeSession(EncodeSession(s, filler)) == Some(s)
  {
    var data := EncodeSession(s, filler);
    assert data[1..4] == TimeBytes(s.start) && data[6..9] == DateBytes(s.start);
    assert data[11..14] == TimeBytes(s.end) && data[16..19] == DateBytes(s.end);
    assert data[21..25] == Pack(s.energy);
    UnpackPack(s.energy);
    AcceptedDatesAreDays(s.start);
    AcceptedDatesAreDays(s.end);
  }

  lemma EncodeInvertsDecode(data: Bytes)
    requires DecodeSession(data).Some?
    ensures Recordable(DecodeSession(data).value)
    ensures EncodeSession(DecodeSession(data).value, FillerOf(data)) == data
  {
    PackUnpack(data[21..25]);
    AcceptedDatesAreDays(DecodeSession(data).value.start);
    AcceptedDatesAreDays(DecodeSession(data).value.end);
    var s, f := DecodeSession(data).value, FillerOf(data);
    assert TimeBytes(s.start) == data[1..4] && DateBytes(s.start) == data[6..9];
    assert TimeBytes(s.end) == data[11..14] && DateBytes(s.end) == data[16..19];
    assert f[0..2] == data[4..6] && f[2..4] == data[9..11] && f[4..6] == data[14..16] && f[6..8] == data[19..21];
    assert data == [data[0]] + data[1..4] + data[4..6] + data[6..9] + data[9..11] + data[11..14] + data[14..16]
                   + data[16..19] + data[19..21] + data[21..25] + [data[25]];
  }

  /** Decoding accepts exactly the records of real sessions, and gives that
      session. */
  lemma DecodeAcceptsExactlyRecords(data: Bytes, s: Session)
    ensures DecodeSession(data) == Some(s)
       <==> Recordable(s) && exists filler: Bytes :: |filler| == 8 && data == EncodeSession(s, filler)
  {
    if DecodeSession(data) == Some(s) {
      EncodeInvertsDecode(data);
    } else if Recordable(s) {
      forall filler: Bytes | |filler| == 8
        ensures data != EncodeSession(s, filler)
      {
        DecodeInvertsEncode(s, filler);
      }
    }
  }

  lemma DecodedRecordIsHistoryRecord(data: Bytes)
    requires DecodeSession(data).Some?
    ensures IsHistoryRecord(data)
  {
  }

  // ---- Duplicates ----

  function Decodable(records: seq<Bytes>): seq<Session> {
    if records == [] then []
    else
      var last := DecodeSession(records[|records| - 1]);
      Decodable(records[..|records| - 1]) + if last.Some? then [last.value] else []
  }

  function FirstOccurrences<T(==)>(xs: seq<T>): seq<T> {
    if xs == [] then []
    else
      var last := xs[|xs| - 1];
      FirstOccurrences(xs[..|xs| - 1]) + if last in xs[..|xs| - 1] then [] else [last]
  }

  /** Position of the first `x`. */
  function IndexOf<T(==)>(xs: seq<T>, x: T): (i: nat)
    requires x in xs
    ensures i < |xs| && xs[i] == x && x !in xs[..i]
  {
    if xs[0] == x then 0
    else
      assert x in xs[1..];
      var i := 1 + IndexOf(xs[1..], x);
      assert xs[..i] == [xs[0]] + xs[1..][..i - 1];
      i
  }

  /** The loop at the end of `async_get_history`. */
  method Deduplicate(records: seq<Bytes>) returns (sessions: seq<Session>)
    ensures sessions == FirstOccurrences(Decodable(records))
  {
    sessions := [];
    var seen: set<(DateTime, DateTime, nat)> := {};
    for n := 0 to |records|
      invariant sessions == FirstOccurrences(Decodable(records[..n]))
      invariant forall s: Session :: (s.start, s.end, s.energy) in seen <==> s in Decodable(records[..n])
    {
      assert records[..n + 1][..n] == records[..n];
      var session := DecodeSession(records[n]);
      if session.None? {
        assert Decodable(records[..n + 1]) == Decodable(records[..n]) + [] == Decodable(records[..n]);
        continue;
      }
      var key := (session.value.start, session.value.end, session.value.energy);
      ghost var before := Decodable(records[..n]);
      assert Decodable(records[..n + 1]) == before + [session.value];
      assert (before + [session.value])[..|before|] == before;
      if key in seen {
        assert FirstOccurrences(before + [session.value]) == FirstOccurrences(before) + []
            == FirstOccurrences(before);
        continue;
      }
      seen := seen + {key};
      sessions := sessions + [session.value];
    }
    assert records[..|records|] == records;
  }

  lemma {:induction false} FirstOccurrencesKeeps<T>(xs: seq<T>, x: T)
    ensures x in FirstOccurrences(xs) <==> x in xs
  {
    if xs != [] {
      FirstOccurrencesKeeps(xs[..|xs| - 1], x);
      assert xs == xs[..|xs| - 1] + [xs[|xs| - 1]];
    }
  }

  /** No duplicates, in the order of first appearance. */
  lemma {:induction false} FirstOccurrencesInOrder<T>(xs: seq<T>)
    ensures var r := FirstOccurrences(xs);
            && (forall x <- r :: x in xs)
            && forall i, j | 0 <= i < j < |r| :: r[i] != r[j] && IndexOf(xs, r[i]) < IndexOf(xs, r[j])
  {
    var r := FirstOccurrences(xs);
    forall x | x in r
      ensures x in xs
    {
      FirstOccurrencesKeeps(xs, x);
    }
    if xs != [] {
      var init := xs[..|xs| - 1];
      FirstOccurrencesInOrder(init);
      forall i, j | 0 <= i < j < |r|
        ensures r[i] != r[j] && IndexOf(xs, r[i]) < IndexOf(xs, r[j])
      {
        FirstOccurrencesKeeps(init, r[i]);
        IndexInPrefix(init, xs, r[i]);
        if j < |FirstOccurrences(init)| {
          FirstOccurrencesKeeps(init, r[j]);
          IndexInPrefix(init, xs, r[j]);
        }
      }
    }
  }

  lemma {:induction false} IndexInPrefix<T>(init: seq<T>, xs: seq<T>, x: T)
    requires init <= xs && x in init
    ensures IndexOf(xs, x) == IndexOf(init, x)
  {
    assert init[0] == xs[0];
    if init[0] != x {
      IndexInPrefix(init[1..], xs[1..], x);
    }
  }
}
