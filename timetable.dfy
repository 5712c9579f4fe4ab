/**
 * The study-schedule generator of timetable.py: over DAYS_AHEAD consecutive
 * dates from a start date it skips Sundays and emits a morning and an evening
 * VEVENT per remaining day into an iTIP PUBLISH calendar (section 3.2.1 of
 * RFC 5546), and a mirror CANCEL calendar (section 3.2.5 of RFC 5546) with
 * the same UIDs. The start date and the DTSTAMP instant are parameters.
 */
module Timetable {
  import opened Dates
  import opened Ics

  const DaysAhead := 40
  const MorningStart := Time(5, 0, 0)
  const MorningEnd := Time(7, 0, 0)
  const EveningStart := Time(19, 0, 0)
  const EveningEnd := Time(22, 0, 0)
  const CalendarName := "SetMyDay \U{2014} Study Timetable"
  const CourseLabel := "Generative AI course"
  const StudyLabel := "Study Session"
  /** The PRODID of both files, before the marker of the cancellation file. */
  const ProductId := "-//SetMyDay//Study Schedule"

  const PublishHeader: seq<string> := [
    "BEGIN:VCALENDAR",
    "PRODID:" + ProductId + "//EN",
    "VERSION:2.0",
    "CALSCALE:GREGORIAN",
    "X-WR-CALNAME:" + CalendarName,
    "METHOD:PUBLISH"]

  const CancelHeader: seq<string> := [
    "BEGIN:VCALENDAR",
    "PRODID:" + ProductId + " Cancel//EN",
    "VERSION:2.0",
    "CALSCALE:GREGORIAN",
    "X-WR-CALNAME:" + CalendarName + " (CANCELLATIONS)",
    "METHOD:CANCEL"]

  const Footer := "END:VCALENDAR"

  // ---------------------------------------------------------------------
  // The date range

  /** The last date of the range, `start + timedelta(days=DAYS_AHEAD - 1)`. */
  function EndDate(start: Date): Date
    requires ValidDate(start)
  {
    AddDays(start, DaysAhead - 1)
  }

  /**
   * Python runs a day loop to its end from start: the end of the range and
   * the day after it, which the loop's last step computes, are both dates
   * Python can represent (otherwise `timedelta` addition raises OverflowError).
   */
  predicate RangeInPython(start: Date) {
    ValidDate(start) && Ordinal(start) + DaysAhead <= Ordinal(MaxDate)
  }

  /**
   * The latest start Python runs to the end: from 9999-11-21 the loop's last
   * step reaches 9999-12-31, from 9999-11-22 it would step past it.
   */
  lemma RangeLimit()
    ensures RangeInPython(Date(9999, 11, 21)) && !RangeInPython(Date(9999, 11, 22))
  {
    assert Ordinal(Date(9999, 11, 21)) + 40 == Ordinal(MaxDate);
    assert Ordinal(Date(9999, 11, 22)) + 39 == Ordinal(MaxDate);
  }

  /** Python can represent the n consecutive dates from d on. */
  predicate Representable(d: Date, n: nat) {
    ValidDate(d) && Ordinal(d) + n <= Ordinal(MaxDate) + 1
  }

  /** The 40 days of the range are representable, and end_date is the 40th. */
  lemma RangeRepresentable(start: Date)
    requires RangeInPython(start)
    ensures Representable(start, DaysAhead)
    ensures Ordinal(EndDate(start)) == Ordinal(start) + DaysAhead - 1
  {
    AddDaysOrdinal(start, DaysAhead - 1);
  }

  /** The first of n >= 1 representable days is printable, and the rest follow it. */
  lemma RepresentableStep(d: Date, n: nat)
    requires Representable(d, n) && n >= 1
    ensures InPythonRange(d) && Representable(NextDay(d), n - 1)
  {
    UpToMaxDate(d);
    NextDayOrdinal(d);
  }

  // ---------------------------------------------------------------------
  // The study days

  /** The dates among the n days from d on that are not Sundays, in order. */
  function StudyDays(d: Date, n: nat): seq<Date>
    requires ValidDate(d)
    decreases n
  {
    if n == 0 then []
    else
      NextDayOrdinal(d);
      (if Weekday(d) == 6 then [] else [d]) + StudyDays(NextDay(d), n - 1)
  }

  /** x is one of the n days from d on, and not a Sunday. */
  predicate IsStudyDayOf(d: Date, n: nat, x: Date)
    requires ValidDate(d)
  {
    ValidDate(x) && Ordinal(d) <= Ordinal(x) < Ordinal(d) + n && Weekday(x) != 6
  }

  /** Every study day is a non-Sunday among the n days from d on. */
  lemma {:induction false} StudyDaysSound(d: Date, n: nat)
    requires ValidDate(d)
    ensures forall j | 0 <= j < |StudyDays(d, n)| :: IsStudyDayOf(d, n, StudyDays(d, n)[j])
    decreases n
  {
    if n > 0 {
      NextDayOrdinal(d);
      var next := NextDay(d);
      StudyDaysSound(next, n - 1);
      var head := if Weekday(d) == 6 then [] else [d];
      var rest, days := StudyDays(next, n - 1), StudyDays(d, n);
      assert days == head + rest;
      forall j | 0 <= j < |days| ensures IsStudyDayOf(d, n, days[j]) {
        if j >= |head| {
          assert days[j] == rest[j - |head|];
          assert IsStudyDayOf(next, n - 1, rest[j - |head|]);
        }
      }
    }
  }

  /** The study days come in strictly increasing order, as Python compares dates. */
  lemma {:induction false} StudyDaysIncreasing(d: Date, n: nat)
    requires ValidDate(d)
    ensures forall i, j | 0 <= i < j < |StudyDays(d, n)| :: DateLt(StudyDays(d, n)[i], StudyDays(d, n)[j])
    decreases n
  {
    if n > 0 {
      NextDayOrdinal(d);
      var next := NextDay(d);
      StudyDaysIncreasing(next, n - 1);
      var head := if Weekday(d) == 6 then [] else [d];
      var rest, days := StudyDays(next, n - 1), StudyDays(d, n);
      assert days == head + rest;
      if head != [] {
        forall j | 1 <= j < |days| ensures DateLt(days[0], days[j]) {
          StudyDayAfter(d, next, n - 1, rest, j - 1);
        }
        forall i, j | 1 <= i < j < |days| ensures DateLt(days[i], days[j]) {
          assert days[i] == rest[i - 1] && days[j] == rest[j - 1];
        }
      }
    }
  }

  /** A study day from the day after d on comes after d. */
  lemma StudyDayAfter(d: Date, next: Date, n: nat, rest: seq<Date>, k: nat)
    requires ValidDate(d) && next == NextDay(d) && ValidDate(next) && Ordinal(next) == Ordinal(d) + 1
    requires rest == StudyDays(next, n) && k < |rest|
    ensures DateLt(d, rest[k])
  {
    StudyDaysSound(next, n);
    assert IsStudyDayOf(next, n, rest[k]);
    DateLeIffOrdinalLe(d, rest[k]);
  }

  /** Every non-Sunday among the n days from d on is a study day. */
  lemma {:induction false} StudyDaysComplete(d: Date, n: nat, x: Date)
    requires ValidDate(d) && IsStudyDayOf(d, n, x)
    ensures x in StudyDays(d, n)
    decreases n
  {
    assert n >= 1;
    NextDayOrdinal(d);
    var next := NextDay(d);
    var head := if Weekday(d) == 6 then [] else [d];
    assert StudyDays(d, n) == head + StudyDays(next, n - 1);
    if Ordinal(x) == Ordinal(d) {
      OrdinalInjective(x, d);
    } else {
      StudyDaysComplete(next, n - 1, x);
    }
  }

  /** 1 for a day of weekday w that is not a Sunday, 0 for a Sunday. */
  function Skip(w: int): int {
    if w == 6 then 0 else 1
  }

  /** The weekday after weekday w. */
  function NextWeekday(w: int): int {
    if w == 6 then 0 else w + 1
  }

  /** The number of non-Sundays among n consecutive days, the first of weekday w. */
  function StudyCount(w: int, n: nat): int
    decreases n
  {
    if n == 0 then 0 else Skip(w) + StudyCount(NextWeekday(w), n - 1)
  }

  /** The number of study days depends only on the weekday of the first day. */
  lemma {:induction false} StudyDaysLength(d: Date, n: nat)
    requires ValidDate(d)
    ensures |StudyDays(d, n)| == StudyCount(Weekday(d), n)
    decreases n
  {
    if n > 0 {
      var e := NextDay(d);
      NextDayOrdinal(d);
      NextDayWeekday(d);
      var w, v := Weekday(d), Weekday(e);
      assert v == NextWeekday(w);
      assert |StudyDays(d, n)| == Skip(w) + |StudyDays(e, n - 1)|;
      StudyDaysLength(e, n - 1);
    }
  }

  /** Any seven consecutive days hold exactly one Sunday. */
  lemma WeekCount(w: int)
    requires 0 <= w < 7
    ensures StudyCount(w, 7) == 6
  {
    if w == 0 {
      assert StudyCount(0, 7) == 6;
    } else if w == 1 {
      assert StudyCount(1, 7) == 6;
    } else if w == 2 {
      assert StudyCount(2, 7) == 6;
    } else if w == 3 {
      assert StudyCount(3, 7) == 6;
    } else if w == 4 {
      assert StudyCount(4, 7) == 6;
    } else if w == 5 {
      assert StudyCount(5, 7) == 6;
    } else {
      assert StudyCount(6, 7) == 6;
    }
  }

  /** Seven more days add six study days. */
  lemma {:induction false} StudyCountPeriod(w: int, n: nat)
    requires 0 <= w < 7
    ensures StudyCount(w, n + 7) == StudyCount(w, n) + 6
    decreases n
  {
    if n == 0 {
      WeekCount(w);
    } else {
      StudyCountPeriod(NextWeekday(w), n - 1);
      assert StudyCount(w, n + 7) == Skip(w) + StudyCount(NextWeekday(w), n - 1 + 7);
    }
  }

  /** The study days among the first five days of weekday w. */
  lemma FirstFive(w: int)
    requires 0 <= w < 7
    ensures StudyCount(w, 5) == if w <= 1 then 5 else 4
  {
    if w == 0 {
      assert StudyCount(0, 5) == 5;
    } else if w == 1 {
      assert StudyCount(1, 5) == 5;
    } else if w == 2 {
      assert StudyCount(2, 5) == 4;
    } else if w == 3 {
      assert StudyCount(3, 5) == 4;
    } else if w == 4 {
      assert StudyCount(4, 5) == 4;
    } else if w == 5 {
      assert StudyCount(5, 5) == 4;
    } else {
      assert StudyCount(6, 5) == 4;
    }
  }

  /**
   * Forty consecutive days hold six Sundays when they start on a Wednesday
   * through a Sunday, and five when they start on a Monday or a Tuesday.
   */
  lemma StudyDaysCount(start: Date)
    requires ValidDate(start)
    ensures |StudyDays(start, DaysAhead)| == if Weekday(start) <= 1 then 35 else 34
  {
    StudyDaysLength(start, DaysAhead);
    FortyDays(Weekday(start));
  }

  /** The count of study days among forty days, by the weekday of the first. */
  lemma FortyDays(w: int)
    requires 0 <= w < 7
    ensures StudyCount(w, 40) == if w <= 1 then 35 else 34
  {
    StudyCountPeriod(w, 33);
    StudyCountPeriod(w, 26);
    StudyCountPeriod(w, 19);
    StudyCountPeriod(w, 12);
    StudyCountPeriod(w, 5);
    FirstFive(w);
  }

  // ---------------------------------------------------------------------
  // The events of one study day

  datatype Slot = Morning | Evening

  function SlotWord(s: Slot): string {
    match s
    case Morning => "morning"
    case Evening => "evening"
  }

  function SlotStart(s: Slot): Time {
    match s
    case Morning => MorningStart
    case Evening => EveningStart
  }

  function SlotEnd(s: Slot): Time {
    match s
    case Morning => MorningEnd
    case Evening => EveningEnd
  }

  /** The deterministic UID `study-YYYYMMDD-<slot>-setmyday@example.org`. */
  function Uid(d: Date, s: Slot): string
    requires InPythonRange(d)
  {
    match s
    case Morning => "study-" + DateStamp(d) + "-morning-setmyday@example.org"
    case Evening => "study-" + DateStamp(d) + "-evening-setmyday@example.org"
  }

  /** Distinct (date, slot) pairs have distinct UIDs. */
  lemma UidInjective(d1: Date, s1: Slot, d2: Date, s2: Slot)
    requires InPythonRange(d1) && InPythonRange(d2)
    requires Uid(d1, s1) == Uid(d2, s2)
    ensures d1 == d2 && s1 == s2
  {
    var u := Uid(d1, s1);
    UidLayout(d1, s1);
    UidLayout(d2, s2);
    assert u[6..14] == DateStamp(d1) && u[6..14] == DateStamp(d2);
    DateStampInjective(d1, d2);
  }

  /** The date stamp sits at positions 6 to 13 of a UID, the slot's initial at 15. */
  lemma UidLayout(d: Date, s: Slot)
    requires InPythonRange(d)
    ensures |Uid(d, s)| > 15
    ensures Uid(d, s)[6..14] == DateStamp(d)
    ensures Uid(d, s)[15] == (if s == Morning then 'm' else 'e')
  {
    var stamp := DateStamp(d);
    var rest := if s == Morning then "-morning-setmyday@example.org" else "-evening-setmyday@example.org";
    var u := "study-" + stamp + rest;
    assert Uid(d, s) == u;
    assert u[6..14] == stamp;
    assert u[15] == rest[1];
  }

  /** The first seven study days are course days, later ones study sessions. */
  function Label(counter: int): string {
    if counter <= 7 then CourseLabel else StudyLabel
  }

  function Summary(tag: string, s: Slot): string {
    match s
    case Morning => tag + " \U{2014} Morning Session"
    case Evening => tag + " \U{2014} Evening Session"
  }

  /** The DESCRIPTION text; `\\n` is a backslash and an `n`, not a line break. */
  function Description(summary: string, uid: string): string {
    summary + "\\nUID:" + uid + "\\nCalendar:" + CalendarName
  }


  function CancelSummary(s: Slot): string {
    match s
    case Morning => "Study Session \U{2014} Morning"
    case Evening => "Study Session \U{2014} Evening"
  }

  // ---------------------------------------------------------------------
  // The events of the range

  /** One VEVENT of the range: its day, its slot, and the number of its study day. */
  datatype Occurrence = Occurrence(day: Date, slot: Slot, number: int)

  /**
   * The events the day loop emits over the n days from d on, in order: a
   * morning and an evening event for each day that is not a Sunday, the
   * first such day numbered `number`.
   */
  function Occurrences(d: Date, n: nat, number: int): seq<Occurrence>
    requires ValidDate(d)
    decreases n
  {
    if n == 0 then []
    else
      NextDayOrdinal(d);
      if Weekday(d) == 6 then Occurrences(NextDay(d), n - 1, number)
      else [Occurrence(d, Morning, number), Occurrence(d, Evening, number)]
           + Occurrences(NextDay(d), n - 1, number + 1)
  }

  /** The events of both calendar files, study days numbered from 1. */
  function ScheduledEvents(start: Date): seq<Occurrence>
    requires ValidDate(start)
  {
    Occurrences(start, DaysAhead, 1)
  }

  /**
   * Event k falls on study day k / 2, in the morning for even k and in the
   * evening for odd k, and carries that study day's number.
   */
  lemma {:induction false} OccurrencesAt(d: Date, n: nat, number: int)
    requires ValidDate(d)
    ensures |Occurrences(d, n, number)| == 2 * |StudyDays(d, n)|
    ensures forall k | 0 <= k < |Occurrences(d, n, number)| ::
      Occurrences(d, n, number)[k]
      == Occurrence(StudyDays(d, n)[k / 2], if k % 2 == 0 then Morning else Evening, number + k / 2)
    decreases n
  {
    if n > 0 {
      NextDayOrdinal(d);
      var next := NextDay(d);
      if Weekday(d) == 6 {
        OccurrencesAt(next, n - 1, number);
        assert StudyDays(d, n) == StudyDays(next, n - 1);
      } else {
        OccurrencesAt(next, n - 1, number + 1);
        var rest, later := Occurrences(next, n - 1, number + 1), StudyDays(next, n - 1);
        assert Occurrences(d, n, number) == [Occurrence(d, Morning, number), Occurrence(d, Evening, number)] + rest;
        assert StudyDays(d, n) == [d] + later;
        EventsShift(d, number, rest, later);
      }
    }
  }

  /** The layout of OccurrencesAt survives putting one more study day in front. */
  lemma EventsShift(d: Date, number: int, rest: seq<Occurrence>, later: seq<Date>)
    requires |rest| == 2 * |later|
    requires forall k | 0 <= k < |rest| ::
      rest[k] == Occurrence(later[k / 2], if k % 2 == 0 then Morning else Evening, number + 1 + k / 2)
    ensures var occ, days := [Occurrence(d, Morning, number), Occurrence(d, Evening, number)] + rest, [d] + later;
      forall k | 0 <= k < |occ| ::
        occ[k] == Occurrence(days[k / 2], if k % 2 == 0 then Morning else Evening, number + k / 2)
  {
    var occ, days := [Occurrence(d, Morning, number), Occurrence(d, Evening, number)] + rest, [d] + later;
    forall k | 2 <= k < |occ|
      ensures occ[k] == Occurrence(days[k / 2], if k % 2 == 0 then Morning else Evening, number + k / 2)
    {
      assert occ[k] == rest[k - 2];
      assert (k - 2) / 2 == k / 2 - 1 && (k - 2) % 2 == k % 2;
      assert days[k / 2] == later[k / 2 - 1];
    }
  }

  /** Every event falls on a day Python can represent. */
  predicate Printable(occ: seq<Occurrence>) {
    forall k | 0 <= k < |occ| :: InPythonRange(occ[k].day)
  }

  lemma {:induction false} OccurrencesPrintable(d: Date, n: nat, number: int)
    requires Representable(d, n)
    ensures Printable(Occurrences(d, n, number))
    decreases n
  {
    if n > 0 {
      RepresentableStep(d, n);
      var c := if Weekday(d) == 6 then number else number + 1;
      OccurrencesPrintable(NextDay(d), n - 1, c);
    }
  }

  /** The content lines of the published VEVENT of an event. */
  function PublishedEvent(o: Occurrence, now: DateTime): seq<string>
    requires InPythonRange(o.day) && ValidDateTime(now)
  {
    var uid := Uid(o.day, o.slot);
    var summary := Summary(Label(o.number), o.slot);
    EventLines(uid, summary, DateTime(o.day, SlotStart(o.slot)), DateTime(o.day, SlotEnd(o.slot)),
               Description(summary, uid), 0, now)
  }

  /** The content lines of the cancelling VEVENT of an event. */
  function CancelledEvent(o: Occurrence, now: DateTime): seq<string>
    requires InPythonRange(o.day) && ValidDateTime(now)
  {
    CancelEventLines(Uid(o.day, o.slot), CancelSummary(o.slot), now)
  }

  /** The joined VEVENT texts the publish loop appends for the events occ. */
  function PublishedTexts(occ: seq<Occurrence>, now: DateTime): seq<string>
    requires Printable(occ) && ValidDateTime(now)
    decreases |occ|
  {
    if occ == [] then [] else [JoinLines(PublishedEvent(occ[0], now))] + PublishedTexts(occ[1..], now)
  }

  /** The content lines of the published VEVENTs of the events occ, one after the other. */
  function PublishedLines(occ: seq<Occurrence>, now: DateTime): seq<string>
    requires Printable(occ) && ValidDateTime(now)
    decreases |occ|
  {
    if occ == [] then [] else PublishedEvent(occ[0], now) + PublishedLines(occ[1..], now)
  }

  /** The joined VEVENT texts the cancel loop appends for the events occ. */
  function CancelledTexts(occ: seq<Occurrence>, now: DateTime): seq<string>
    requires Printable(occ) && ValidDateTime(now)
    decreases |occ|
  {
    if occ == [] then [] else [JoinLines(CancelledEvent(occ[0], now))] + CancelledTexts(occ[1..], now)
  }

  /** The content lines of the cancelling VEVENTs of the events occ. */
  function CancelledLines(occ: seq<Occurrence>, now: DateTime): seq<string>
    requires Printable(occ) && ValidDateTime(now)
    decreases |occ|
  {
    if occ == [] then [] else CancelledEvent(occ[0], now) + CancelledLines(occ[1..], now)
  }

  /** The published calendar as the list of its content lines. */
  function ScheduleLines(start: Date, now: DateTime): seq<string>
    requires RangeInPython(start) && ValidDateTime(now)
  {
    RangeRepresentable(start);
    OccurrencesPrintable(start, DaysAhead, 1);
    PublishHeader + PublishedLines(ScheduledEvents(start), now) + [Footer]
  }

  /** The cancellation calendar as the list of its content lines. */
  function CancelLines(start: Date, now: DateTime): seq<string>
    requires RangeInPython(start) && ValidDateTime(now)
  {
    RangeRepresentable(start);
    OccurrencesPrintable(start, DaysAhead, 1);
    CancelHeader + CancelledLines(ScheduledEvents(start), now) + [Footer]
  }

  /** One text per event. */
  lemma {:induction false} PublishedTextsLength(occ: seq<Occurrence>, now: DateTime)
    requires Printable(occ) && ValidDateTime(now)
    ensures |PublishedTexts(occ, now)| == |occ|
    decreases |occ|
  {
    if occ != [] {
      PublishedTextsLength(occ[1..], now);
    }
  }

  lemma {:induction false} CancelledTextsLength(occ: seq<Occurrence>, now: DateTime)
    requires Printable(occ) && ValidDateTime(now)
    ensures |CancelledTexts(occ, now)| == |occ|
    decreases |occ|
  {
    if occ != [] {
      CancelledTextsLength(occ[1..], now);
    }
  }

  /** Every VEVENT has at least its BEGIN line. */
  lemma EventsNonEmpty(o: Occurrence, now: DateTime)
    requires InPythonRange(o.day) && ValidDateTime(now)
    ensures |PublishedEvent(o, now)| >= 1 && |CancelledEvent(o, now)| >= 1
  {
  }

  /** One step of the join: a group's joined text next to the rest, or its lines. */
  lemma JoinStep(a: seq<string>, g: seq<string>, texts: seq<string>, lines: seq<string>, b: seq<string>)
    requires |a| >= 1 && |g| >= 1
    requires JoinLines(a + [JoinLines(g)] + texts + b) == JoinLines(a + [JoinLines(g)] + lines + b)
    ensures JoinLines(a + ([JoinLines(g)] + texts) + b) == JoinLines(a + (g + lines) + b)
  {
    assert a + ([JoinLines(g)] + texts) + b == a + [JoinLines(g)] + texts + b;
    assert a + [JoinLines(g)] + lines + b == a + [JoinLines(g)] + (lines + b);
    JoinGroup(a, g, lines + b);
    assert a + g + (lines + b) == a + (g + lines) + b;
  }

  /**
   * Joining the list that holds each event as one joined text, as
   * `"\n".join(lines)` does with the VEVENT strings, gives the text of the
   * flat list of content lines.
   */
  lemma {:induction false} PublishedJoin(a: seq<string>, occ: seq<Occurrence>, b: seq<string>, now: DateTime)
    requires |a| >= 1 && Printable(occ) && ValidDateTime(now)
    ensures JoinLines(a + PublishedTexts(occ, now) + b) == JoinLines(a + PublishedLines(occ, now) + b)
    decreases |occ|
  {
    if occ != [] {
      var g := PublishedEvent(occ[0], now);
      EventsNonEmpty(occ[0], now);
      PublishedJoin(a + [JoinLines(g)], occ[1..], b, now);
      JoinStep(a, g, PublishedTexts(occ[1..], now), PublishedLines(occ[1..], now), b);
    }
  }

  lemma {:induction false} CancelledJoin(a: seq<string>, occ: seq<Occurrence>, b: seq<string>, now: DateTime)
    requires |a| >= 1 && Printable(occ) && ValidDateTime(now)
    ensures JoinLines(a + CancelledTexts(occ, now) + b) == JoinLines(a + CancelledLines(occ, now) + b)
    decreases |occ|
  {
    if occ != [] {
      var g := CancelledEvent(occ[0], now);
      EventsNonEmpty(occ[0], now);
      CancelledJoin(a + [JoinLines(g)], occ[1..], b, now);
      JoinStep(a, g, CancelledTexts(occ[1..], now), CancelledLines(occ[1..], now), b);
    }
  }

  // ---------------------------------------------------------------------
  // The day loops of generate_schedule and generate_cancel_file

  /**
   * The publish loop's invariant: the lines so far, followed by the texts of
   * the events still to come from day d on, make the whole list.
   */
  predicate PublishPending(lines: seq<string>, d: Date, n: nat, number: int, now: DateTime, all: seq<string>) {
    Representable(d, n) && ValidDateTime(now) && Printable(Occurrences(d, n, number))
    && lines + PublishedTexts(Occurrences(d, n, number), now) == all
  }

  /** The cancel loop's invariant, in the same form. */
  predicate CancelPending(lines: seq<string>, d: Date, n: nat, number: int, now: DateTime, all: seq<string>) {
    Representable(d, n) && ValidDateTime(now) && Printable(Occurrences(d, n, number))
    && lines + CancelledTexts(Occurrences(d, n, number), now) == all
  }

  /** A Sunday emits no event. */
  lemma SundayStep(d: Date, n: nat, number: int)
    requires Representable(d, n) && n >= 1 && Weekday(d) == 6
    ensures Representable(NextDay(d), n - 1)
    ensures Occurrences(d, n, number) == Occurrences(NextDay(d), n - 1, number)
  {
    RepresentableStep(d, n);
  }

  /** A study day emits its morning and its evening event, then come the later days'. */
  lemma StudyDayStep(d: Date, n: nat, number: int)
    requires Representable(d, n) && n >= 1 && Weekday(d) != 6
    ensures InPythonRange(d) && Representable(NextDay(d), n - 1)
    ensures Occurrences(d, n, number)
            == [Occurrence(d, Morning, number)]
               + ([Occurrence(d, Evening, number)] + Occurrences(NextDay(d), n - 1, number + 1))
  {
    RepresentableStep(d, n);
    var m, e, rest := Occurrence(d, Morning, number), Occurrence(d, Evening, number),
                      Occurrences(NextDay(d), n - 1, number + 1);
    assert [m, e] + rest == [m] + ([e] + rest);
  }

  /** One unfolding of PublishedTexts on a list that starts with o. */
  lemma PublishedTextsCons(o: Occurrence, rest: seq<Occurrence>, now: DateTime)
    requires InPythonRange(o.day) && Printable(rest) && ValidDateTime(now)
    ensures Printable([o] + rest)
    ensures PublishedTexts([o] + rest, now) == [JoinLines(PublishedEvent(o, now))] + PublishedTexts(rest, now)
  {
    assert ([o] + rest)[1..] == rest;
  }

  lemma CancelledTextsCons(o: Occurrence, rest: seq<Occurrence>, now: DateTime)
    requires InPythonRange(o.day) && Printable(rest) && ValidDateTime(now)
    ensures Printable([o] + rest)
    ensures CancelledTexts([o] + rest, now) == [JoinLines(CancelledEvent(o, now))] + CancelledTexts(rest, now)
  {
    assert ([o] + rest)[1..] == rest;
  }

  /** Two unfoldings of PublishedTexts on a list that starts with the events m and e. */
  lemma PublishedTextsPair(m: Occurrence, e: Occurrence, rest: seq<Occurrence>, now: DateTime)
    requires InPythonRange(m.day) && InPythonRange(e.day) && Printable(rest) && ValidDateTime(now)
    ensures Printable([m] + ([e] + rest))
    ensures PublishedTexts([m] + ([e] + rest), now)
            == [JoinLines(PublishedEvent(m, now))] + ([JoinLines(PublishedEvent(e, now))] + PublishedTexts(rest, now))
  {
    PublishedTextsCons(e, rest, now);
    PublishedTextsCons(m, [e] + rest, now);
  }

  /** Two unfoldings of CancelledTexts on a list that starts with the events m and e. */
  lemma CancelledTextsPair(m: Occurrence, e: Occurrence, rest: seq<Occurrence>, now: DateTime)
    requires InPythonRange(m.day) && InPythonRange(e.day) && Printable(rest) && ValidDateTime(now)
    ensures Printable([m] + ([e] + rest))
    ensures CancelledTexts([m] + ([e] + rest), now)
            == [JoinLines(CancelledEvent(m, now))] + ([JoinLines(CancelledEvent(e, now))] + CancelledTexts(rest, now))
  {
    CancelledTextsCons(e, rest, now);
    CancelledTextsCons(m, [e] + rest, now);
  }

  lemma AppendPair(texts: seq<string>, all: seq<string>, x: string, y: string, r: seq<string>, t: seq<string>)
    requires texts + t == all && t == [x] + ([y] + r)
    ensures texts + [x] + [y] + r == all
  {
    assert texts + ([x] + ([y] + r)) == texts + [x] + [y] + r;
  }

  /** A Sunday pass of the publish loop emits nothing and keeps the day number. */
  lemma PublishSkip(texts: seq<string>, all: seq<string>, d: Date, n: nat, number: int, now: DateTime)
    requires PublishPending(texts, d, n, number, now, all) && n >= 1 && Weekday(d) == 6
    ensures PublishPending(texts, NextDay(d), n - 1, number, now, all)
  {
    SundayStep(d, n, number);
  }

  /** A study-day pass of the publish loop emits the day's two events. */
  lemma PublishEmit(texts: seq<string>, all: seq<string>, d: Date, n: nat, number: int, now: DateTime,
                    morning: string, evening: string)
    requires PublishPending(texts, d, n, number, now, all) && n >= 1 && Weekday(d) != 6
    requires InPythonRange(d)
    requires morning == JoinLines(PublishedEvent(Occurrence(d, Morning, number), now))
    requires evening == JoinLines(PublishedEvent(Occurrence(d, Evening, number), now))
    ensures PublishPending(texts + [morning] + [evening], NextDay(d), n - 1, number + 1, now, all)
  {
    PublishedTextsStep(d, n, number, now);
    var rest := Occurrences(NextDay(d), n - 1, number + 1);
    AppendPair(texts, all, morning, evening, PublishedTexts(rest, now), PublishedTexts(Occurrences(d, n, number), now));
  }

  /** The texts of the events from a study day on: its morning and evening event, then the rest. */
  lemma PublishedTextsStep(d: Date, n: nat, number: int, now: DateTime)
    requires Representable(d, n) && n >= 1 && Weekday(d) != 6 && ValidDateTime(now)
    ensures Printable(Occurrences(d, n, number))
    ensures Representable(NextDay(d), n - 1) && Printable(Occurrences(NextDay(d), n - 1, number + 1))
    ensures InPythonRange(d)
    ensures PublishedTexts(Occurrences(d, n, number), now)
            == [JoinLines(PublishedEvent(Occurrence(d, Morning, number), now))]
               + ([JoinLines(PublishedEvent(Occurrence(d, Evening, number), now))]
                  + PublishedTexts(Occurrences(NextDay(d), n - 1, number + 1), now))
  {
    var m, e := Occurrence(d, Morning, number), Occurrence(d, Evening, number);
    var rest := Occurrences(NextDay(d), n - 1, number + 1);
    StudyDayStep(d, n, number);
    OccurrencesPrintable(NextDay(d), n - 1, number + 1);
    assert m.day == d && e.day == d;
    PublishedTextsPair(m, e, rest, now);
  }

  /** A Sunday pass of the cancel loop emits nothing. */
  lemma CancelSkip(texts: seq<string>, all: seq<string>, d: Date, n: nat, number: int, now: DateTime)
    requires CancelPending(texts, d, n, number, now, all) && n >= 1 && Weekday(d) == 6
    ensures CancelPending(texts, NextDay(d), n - 1, number, now, all)
  {
    SundayStep(d, n, number);
  }

  /** A study-day pass of the cancel loop emits the day's two cancellations. */
  lemma CancelEmit(texts: seq<string>, all: seq<string>, d: Date, n: nat, number: int, now: DateTime,
                   morning: string, evening: string)
    requires CancelPending(texts, d, n, number, now, all) && n >= 1 && Weekday(d) != 6
    requires InPythonRange(d)
    requires morning == JoinLines(CancelledEvent(Occurrence(d, Morning, number), now))
    requires evening == JoinLines(CancelledEvent(Occurrence(d, Evening, number), now))
    ensures CancelPending(texts + [morning] + [evening], NextDay(d), n - 1, number + 1, now, all)
  {
    CancelledTextsStep(d, n, number, now);
    var rest := Occurrences(NextDay(d), n - 1, number + 1);
    AppendPair(texts, all, morning, evening, CancelledTexts(rest, now), CancelledTexts(Occurrences(d, n, number), now));
  }

  /** The texts of the events from a study day on: its morning and evening event, then the rest. */
  lemma CancelledTextsStep(d: Date, n: nat, number: int, now: DateTime)
    requires Representable(d, n) && n >= 1 && Weekday(d) != 6 && ValidDateTime(now)
    ensures Printable(Occurrences(d, n, number))
    ensures Representable(NextDay(d), n - 1) && Printable(Occurrences(NextDay(d), n - 1, number + 1))
    ensures InPythonRange(d)
    ensures CancelledTexts(Occurrences(d, n, number), now)
            == [JoinLines(CancelledEvent(Occurrence(d, Morning, number), now))]
               + ([JoinLines(CancelledEvent(Occurrence(d, Evening, number), now))]
                  + CancelledTexts(Occurrences(NextDay(d), n - 1, number + 1), now))
  {
    var m, e := Occurrence(d, Morning, number), Occurrence(d, Evening, number);
    var rest := Occurrences(NextDay(d), n - 1, number + 1);
    StudyDayStep(d, n, number);
    OccurrencesPrintable(NextDay(d), n - 1, number + 1);
    assert m.day == d && e.day == d;
    CancelledTextsPair(m, e, rest, now);
  }

  /**
   * The body of the publish loop for a study day: the morning and the
   * evening VEVENT of the day d, the number-th study day.
   */
  method StudyDayEvents(d: Date, number: int, now: DateTime) returns (morning: string, evening: string)
    requires InPythonRange(d) && ValidDateTime(now)
    ensures morning == JoinLines(PublishedEvent(Occurrence(d, Morning, number), now))
    ensures evening == JoinLines(PublishedEvent(Occurrence(d, Evening, number), now))
  {
    var tag := if number <= 7 then "Generative AI course" else "Study Session";
    var uidMorning := "study-" + DateStamp(d) + "-morning-setmyday@example.org";
    var summaryMorning := tag + " \U{2014} Morning Session";
    var description := summaryMorning + "\\nUID:" + uidMorning + "\\nCalendar:" + CalendarName;
    morning := MakeEvent(uidMorning, summaryMorning, DateTime(d, MorningStart), DateTime(d, MorningEnd),
                         description, 0, now);
    var uidEvening := "study-" + DateStamp(d) + "-evening-setmyday@example.org";
    var summaryEvening := tag + " \U{2014} Evening Session";
    description := summaryEvening + "\\nUID:" + uidEvening + "\\nCalendar:" + CalendarName;
    evening := MakeEvent(uidEvening, summaryEvening, DateTime(d, EveningStart), DateTime(d, EveningEnd),
                         description, 0, now);
  }

  /** The body of the cancel loop for a study day: the day's two cancellations. */
  method CancelDayEvents(d: Date, ghost number: int, now: DateTime) returns (morning: string, evening: string)
    requires InPythonRange(d) && ValidDateTime(now)
    ensures morning == JoinLines(CancelledEvent(Occurrence(d, Morning, number), now))
    ensures evening == JoinLines(CancelledEvent(Occurrence(d, Evening, number), now))
  {
    var uidMorning := "study-" + DateStamp(d) + "-morning-setmyday@example.org";
    var uidEvening := "study-" + DateStamp(d) + "-evening-setmyday@example.org";
    morning := MakeCancelEvent(uidMorning, "Study Session \U{2014} Morning", now);
    evening := MakeCancelEvent(uidEvening, "Study Session \U{2014} Evening", now);
  }

  /**
   * One pass of the publish loop over a study day: counts the day and
   * appends its morning and evening VEVENTs; next is the number the day
   * receives.
   */
  method ScheduleDay(lines0: seq<string>, scheduledDays0: nat, d: Date, now: DateTime,
                     ghost next: int, ghost rem: nat, ghost all: seq<string>)
    returns (lines: seq<string>, scheduledDays: nat)
    requires next == scheduledDays0 + 1
    requires PublishPending(lines0, d, rem, next, now, all) && rem >= 1 && Weekday(d) != 6
    ensures scheduledDays == next && |lines| == |lines0| + 2
    ensures PublishPending(lines, NextDay(d), rem - 1, next + 1, now, all)
  {
    RepresentableStep(d, rem);
    scheduledDays := scheduledDays0 + 1;
    var morning, evening := StudyDayEvents(d, scheduledDays, now);
    PublishEmit(lines0, all, d, rem, next, now, morning, evening);
    lines := lines0 + [morning];
    lines := lines + [evening];
  }

  /** One pass of the cancel loop over a study day. */
  method CancelDay(lines0: seq<string>, scheduledDays0: nat, d: Date, now: DateTime,
                   ghost next: int, ghost rem: nat, ghost all: seq<string>)
    returns (lines: seq<string>, scheduledDays: nat)
    requires next == scheduledDays0 + 1
    requires CancelPending(lines0, d, rem, next, now, all) && rem >= 1 && Weekday(d) != 6
    ensures scheduledDays == next && |lines| == |lines0| + 2
    ensures CancelPending(lines, NextDay(d), rem - 1, next + 1, now, all)
  {
    RepresentableStep(d, rem);
    scheduledDays := scheduledDays0 + 1;
    var morning, evening := CancelDayEvents(d, next, now);
    CancelEmit(lines0, all, d, rem, next, now, morning, evening);
    lines := lines0 + [morning];
    lines := lines + [evening];
  }

  /**
   * The day loop of `generate_schedule`: from the start date through the
   * end date, appends the two VEVENTs of each day that is not a Sunday,
   * numbering the study days from 1.
   */
  method ScheduleStudyDays(start: Date, now: DateTime, header: seq<string>)
    returns (lines: seq<string>, scheduledDays: nat)
    requires RangeInPython(start) && ValidDateTime(now)
    ensures PublishLoopDone(lines, header, start, now)
    ensures |lines| == |header| + 2 * scheduledDays
  {
    var endDate := AddDays(start, DaysAhead - 1);
    lines := header;
    scheduledDays := 0;
    var d := start;
    ghost var rem: nat := DaysAhead;
    ghost var next := 1;
    RangeRepresentable(start);
    UpToMaxDate(start);
    OccurrencesPrintable(start, DaysAhead, 1);
    ghost var all := lines + PublishedTexts(ScheduledEvents(start), now);
    DateLeIffOrdinalLe(start, endDate);
    while DateLe(d, endDate)
      invariant Representable(d, rem) && Ordinal(d) + rem == Ordinal(endDate) + 1 && InPythonRange(d)
      invariant DateLe(d, endDate) <==> rem > 0
      invariant |lines| == |header| + 2 * scheduledDays && next == scheduledDays + 1
      invariant PublishPending(lines, d, rem, next, now, all)
      decreases rem
    {
      RepresentableStep(d, rem);
      NextDayOrdinal(d);
      UpToMaxDate(NextDay(d));
      DateLeIffOrdinalLe(NextDay(d), endDate);
      if Weekday(d) == 6 {
        PublishSkip(lines, all, d, rem, next, now);
      } else {
        lines, scheduledDays := ScheduleDay(lines, scheduledDays, d, now, next, rem, all);
        next := next + 1;
      }
      d := NextDay(d);
      rem := rem - 1;
    }
    assert PublishedTexts(Occurrences(d, 0, next), now) == [];
  }

  /** The day loop of `generate_cancel_file`: two cancellations per day that is not a Sunday. */
  method CancelStudyDays(start: Date, now: DateTime, header: seq<string>)
    returns (lines: seq<string>, scheduledDays: nat)
    requires RangeInPython(start) && ValidDateTime(now)
    ensures CancelLoopDone(lines, header, start, now)
    ensures |lines| == |header| + 2 * scheduledDays
  {
    var endDate := AddDays(start, DaysAhead - 1);
    lines := header;
    scheduledDays := 0;
    var d := start;
    ghost var rem: nat := DaysAhead;
    ghost var next := 1;
    RangeRepresentable(start);
    UpToMaxDate(start);
    OccurrencesPrintable(start, DaysAhead, 1);
    ghost var all := lines + CancelledTexts(ScheduledEvents(start), now);
    DateLeIffOrdinalLe(start, endDate);
    while DateLe(d, endDate)
      invariant Representable(d, rem) && Ordinal(d) + rem == Ordinal(endDate) + 1 && InPythonRange(d)
      invariant DateLe(d, endDate) <==> rem > 0
      invariant |lines| == |header| + 2 * scheduledDays && next == scheduledDays + 1
      invariant CancelPending(lines, d, rem, next, now, all)
      decreases rem
    {
      RepresentableStep(d, rem);
      NextDayOrdinal(d);
      UpToMaxDate(NextDay(d));
      DateLeIffOrdinalLe(NextDay(d), endDate);
      if Weekday(d) == 6 {
        CancelSkip(lines, all, d, rem, next, now);
      } else {
        lines, scheduledDays := CancelDay(lines, scheduledDays, d, now, next, rem, all);
        next := next + 1;
      }
      d := NextDay(d);
      rem := rem - 1;
    }
    assert CancelledTexts(Occurrences(d, 0, next), now) == [];
  }

  /** After the publish loop: the header, then each event's text in order. */
  predicate PublishLoopDone(lines: seq<string>, header: seq<string>, start: Date, now: DateTime) {
    ValidDate(start) && ValidDateTime(now) && Printable(ScheduledEvents(start))
    && lines == header + PublishedTexts(ScheduledEvents(start), now)
  }

  /** After the cancel loop: the header, then each event's cancellation in order. */
  predicate CancelLoopDone(lines: seq<string>, header: seq<string>, start: Date, now: DateTime) {
    ValidDate(start) && ValidDateTime(now) && Printable(ScheduledEvents(start))
    && lines == header + CancelledTexts(ScheduledEvents(start), now)
  }

  /** The lines of the publish loop, closed with END:VCALENDAR, make the published calendar. */
  lemma ScheduleText(start: Date, now: DateTime, lines: seq<string>)
    requires RangeInPython(start) && PublishLoopDone(lines, PublishHeader, start, now)
    ensures JoinLines(lines + [Footer]) == JoinLines(ScheduleLines(start, now))
    ensures |lines| == |PublishHeader| + |ScheduledEvents(start)|
  {
    PublishedJoin(PublishHeader, ScheduledEvents(start), [Footer], now);
    PublishedTextsLength(ScheduledEvents(start), now);
  }

  /** The lines of the cancel loop, closed with END:VCALENDAR, make the cancellation calendar. */
  lemma CancelText(start: Date, now: DateTime, lines: seq<string>)
    requires RangeInPython(start) && CancelLoopDone(lines, CancelHeader, start, now)
    ensures JoinLines(lines + [Footer]) == JoinLines(CancelLines(start, now))
    ensures |lines| == |CancelHeader| + |ScheduledEvents(start)|
  {
    CancelledJoin(CancelHeader, ScheduledEvents(start), [Footer], now);
    CancelledTextsLength(ScheduledEvents(start), now);
  }

  /**
   * `generate_schedule` without the file write: whether it runs to the write
   * (ok), the text it writes, and the number of events its closing message
   * reports. When the range reaches past `date.max`, a `timedelta` addition
   * raises OverflowError before anything is written, and ok is false.
   */
  method GenerateSchedule(start: Date, now: DateTime) returns (ok: bool, text: string, eventCount: nat)
    requires InPythonRange(start) && ValidDateTime(now)
    ensures ok <==> RangeInPython(start)
    ensures ok ==> text == JoinLines(ScheduleLines(start, now))
    ensures ok ==> eventCount == |ScheduledEvents(start)|
  {
    if Ordinal(start) + DaysAhead > Ordinal(MaxDate) {
      return false, "", 0;
    }
    var lines: seq<string> := [];
    lines := lines + ["BEGIN:VCALENDAR"];
    lines := lines + ["PRODID:" + ProductId + "//EN"];
    lines := lines + ["VERSION:2.0"];
    lines := lines + ["CALSCALE:GREGORIAN"];
    lines := lines + ["X-WR-CALNAME:" + CalendarName];
    lines := lines + ["METHOD:PUBLISH"];
    assert lines == PublishHeader;
    var scheduledDays;
    lines, scheduledDays := ScheduleStudyDays(start, now, lines);
    ScheduleText(start, now, lines);
    lines := lines + ["END:VCALENDAR"];
    text := JoinLines(lines);
    eventCount := scheduledDays * 2;
    ok := true;
  }

  /** `generate_cancel_file` without the file write; ok is false where it raises OverflowError. */
  method GenerateCancelFile(start: Date, now: DateTime) returns (ok: bool, text: string, eventCount: nat)
    requires InPythonRange(start) && ValidDateTime(now)
    ensures ok <==> RangeInPython(start)
    ensures ok ==> text == JoinLines(CancelLines(start, now))
    ensures ok ==> eventCount == |ScheduledEvents(start)|
  {
    if Ordinal(start) + DaysAhead > Ordinal(MaxDate) {
      return false, "", 0;
    }
    var lines: seq<string> := [];
    lines := lines + ["BEGIN:VCALENDAR"];
    lines := lines + ["PRODID:" + ProductId + " Cancel//EN"];
    lines := lines + ["VERSION:2.0"];
    lines := lines + ["CALSCALE:GREGORIAN"];
    lines := lines + ["X-WR-CALNAME:" + CalendarName + " (CANCELLATIONS)"];
    lines := lines + ["METHOD:CANCEL"];
    assert lines == CancelHeader;
    var scheduledDays;
    lines, scheduledDays := CancelStudyDays(start, now, lines);
    CancelText(start, now, lines);
    lines := lines + ["END:VCALENDAR"];
    text := JoinLines(lines);
    eventCount := scheduledDays * 2;
    ok := true;
  }
}


