/**
 * What the two calendar files of timetable.py promise: which days carry
 * events, how the events are numbered and labelled, that their UIDs are
 * distinct, and that the cancellation file names exactly the UIDs of the
 * published one, so that a client receiving it removes every published event.
 */
module TimetableProperties {
  import opened Dates
  import opened Ics
  import opened Timetable

  /** The study days are exactly the non-Sundays among the n days from d on. */
  lemma StudyDaysExact(d: Date, n: nat, x: Date)
    requires ValidDate(d)
    ensures x in StudyDays(d, n) <==> IsStudyDayOf(d, n, x)
  {
    StudyDaysSound(d, n);
    if IsStudyDayOf(d, n, x) {
      StudyDaysComplete(d, n, x);
    }
  }

  /**
   * The events of the range: seventy when it starts on a Monday or a
   * Tuesday, sixty-eight otherwise; event k falls on the (k / 2)-th study
   * day, in the morning for even k, and that day is numbered k / 2 + 1.
   */
  lemma ScheduledEventsLayout(start: Date)
    requires ValidDate(start)
    ensures var ev := ScheduledEvents(start);
      && |ev| == (if Weekday(start) <= 1 then 70 else 68)
      && forall k | 0 <= k < |ev| ::
           && IsStudyDayOf(start, DaysAhead, ev[k].day)
           && ev[k].slot == (if k % 2 == 0 then Morning else Evening)
           && ev[k].number == k / 2 + 1
  {
    var ev, days := ScheduledEvents(start), StudyDays(start, DaysAhead);
    OccurrencesAt(start, DaysAhead, 1);
    StudyDaysCount(start);
    StudyDaysSound(start, DaysAhead);
    forall k | 0 <= k < |ev| ensures IsStudyDayOf(start, DaysAhead, ev[k].day) {
      assert ev[k].day == days[k / 2];
    }
  }

  /** The first seven study days, and only they, are labelled as course days. */
  lemma CourseDaysFirst(start: Date)
    requires ValidDate(start)
    ensures forall k | 0 <= k < |ScheduledEvents(start)| ::
      Label(ScheduledEvents(start)[k].number) == CourseLabel <==> k < 14
  {
    ScheduledEventsLayout(start);
  }

  /** Two different events differ in their day or in their slot. */
  lemma EventsDistinct(start: Date, i: nat, j: nat)
    requires ValidDate(start)
    requires i < j < |ScheduledEvents(start)|
    ensures ScheduledEvents(start)[i].day != ScheduledEvents(start)[j].day
            || ScheduledEvents(start)[i].slot != ScheduledEvents(start)[j].slot
  {
    var ev, days := ScheduledEvents(start), StudyDays(start, DaysAhead);
    OccurrencesAt(start, DaysAhead, 1);
    var a, b := i / 2, j / 2;
    assert ev[i].day == days[a] && ev[j].day == days[b];
    if a < b {
      StudyDaysIncreasing(start, DaysAhead);
      assert DateLt(days[a], days[b]);
    } else {
      assert i % 2 == 0 && j % 2 == 1;
      assert ev[i].slot == Morning && ev[j].slot == Evening;
    }
  }

  /** Every event of the range has its own UID. */
  lemma UidsDistinct(start: Date)
    requires RangeInPython(start)
    ensures Printable(ScheduledEvents(start))
    ensures forall i, j | 0 <= i < j < |ScheduledEvents(start)| ::
      Uid(ScheduledEvents(start)[i].day, ScheduledEvents(start)[i].slot)
      != Uid(ScheduledEvents(start)[j].day, ScheduledEvents(start)[j].slot)
  {
    var ev := ScheduledEvents(start);
    RangeRepresentable(start);
    OccurrencesPrintable(start, DaysAhead, 1);
    forall i, j | 0 <= i < j < |ev| ensures Uid(ev[i].day, ev[i].slot) != Uid(ev[j].day, ev[j].slot) {
      EventsDistinct(start, i, j);
      if Uid(ev[i].day, ev[i].slot) == Uid(ev[j].day, ev[j].slot) {
        UidInjective(ev[i].day, ev[i].slot, ev[j].day, ev[j].slot);
      }
    }
  }

  /**
   * A published VEVENT states its times as DTSTART and DTEND local times with
   * the zone's TZID: 05:00 to 07:00 for a morning event, 19:00 to 22:00 for
   * an evening one, both on the event's day, so the start comes before the
   * end. It is the event's first version (SEQUENCE:0) and is confirmed.
   */
  lemma PublishedEventTimes(o: Occurrence, now: DateTime)
    requires InPythonRange(o.day) && ValidDateTime(now)
    ensures var begin := DateTime(o.day, if o.slot == Morning then Time(5, 0, 0) else Time(19, 0, 0));
            var end := DateTime(o.day, if o.slot == Morning then Time(7, 0, 0) else Time(22, 0, 0));
            var ls := PublishedEvent(o, now);
            && ValidDateTime(begin) && ValidDateTime(end) && DateTimeLt(begin, end)
            && |ls| == 18
            && ls[2] == "SEQUENCE:0" && ls[3] == "STATUS:CONFIRMED"
            && ls[5] == "DTSTART;TZID=" + TzName + ":" + DtToIcs(begin)
            && ls[6] == "DTEND;TZID=" + TzName + ":" + DtToIcs(end)
  {
    var uid := Uid(o.day, o.slot);
    var summary := Summary(Label(o.number), o.slot);
    EventLinesAt(uid, summary, DateTime(o.day, SlotStart(o.slot)), DateTime(o.day, SlotEnd(o.slot)),
                 Description(summary, uid), 0, now);
    SequenceZero();
  }

  /**
   * Event k of the range is on a study day, from 05:00 to 07:00 when k is
   * even and from 19:00 to 22:00 when k is odd.
   */
  lemma EventTimes(start: Date, now: DateTime)
    requires RangeInPython(start) && ValidDateTime(now)
    ensures Printable(ScheduledEvents(start))
    ensures forall k | 0 <= k < |ScheduledEvents(start)| ::
      var o := ScheduledEvents(start)[k];
      var ls := PublishedEvent(o, now);
      && IsStudyDayOf(start, DaysAhead, o.day)
      && |ls| == 18
      && ls[5] == "DTSTART;TZID=" + TzName + ":"
                  + DtToIcs(DateTime(o.day, if k % 2 == 0 then Time(5, 0, 0) else Time(19, 0, 0)))
      && ls[6] == "DTEND;TZID=" + TzName + ":"
                  + DtToIcs(DateTime(o.day, if k % 2 == 0 then Time(7, 0, 0) else Time(22, 0, 0)))
  {
    var ev := ScheduledEvents(start);
    RangeRepresentable(start);
    OccurrencesPrintable(start, DaysAhead, 1);
    ScheduledEventsLayout(start);
    forall k | 0 <= k < |ev|
      ensures |PublishedEvent(ev[k], now)| == 18
      ensures PublishedEvent(ev[k], now)[5] == "DTSTART;TZID=" + TzName + ":"
                  + DtToIcs(DateTime(ev[k].day, if k % 2 == 0 then Time(5, 0, 0) else Time(19, 0, 0)))
      ensures PublishedEvent(ev[k], now)[6] == "DTEND;TZID=" + TzName + ":"
                  + DtToIcs(DateTime(ev[k].day, if k % 2 == 0 then Time(7, 0, 0) else Time(22, 0, 0)))
    {
      PublishedEventTimes(ev[k], now);
    }
  }

  /** The `UID:` lines the events occ contribute, in order. */
  function EventUids(occ: seq<Occurrence>): (r: seq<string>)
    requires Printable(occ)
    ensures |r| == |occ|
    ensures forall k | 0 <= k < |occ| :: r[k] == "UID:" + Uid(occ[k].day, occ[k].slot)
    decreases |occ|
  {
    if occ == [] then [] else ["UID:" + Uid(occ[0].day, occ[0].slot)] + EventUids(occ[1..])
  }

  /** The delimiters of a published VEVENT: one VEVENT block holding one VALARM block. */
  const PublishedBlock := ["BEGIN:VEVENT", "BEGIN:VALARM", "END:VALARM", "END:VEVENT"]

  /** The delimiters of a cancelling VEVENT: one VEVENT block. */
  const CancelledBlock := ["BEGIN:VEVENT", "END:VEVENT"]

  /** n copies of a block of lines, one after the other. */
  function Repeated(block: seq<string>, n: nat): (r: seq<string>)
    ensures |r| == n * |block|
  {
    if n == 0 then [] else block + Repeated(block, n - 1)
  }

  /** The only `UID:` line of each VEVENT is the UID of its event; its delimiters are its block's. */
  lemma EventFilters(o: Occurrence, now: DateTime)
    requires InPythonRange(o.day) && ValidDateTime(now)
    ensures UidLines(PublishedEvent(o, now)) == ["UID:" + Uid(o.day, o.slot)]
    ensures UidLines(CancelledEvent(o, now)) == ["UID:" + Uid(o.day, o.slot)]
    ensures Delimiters(PublishedEvent(o, now)) == PublishedBlock
    ensures Delimiters(CancelledEvent(o, now)) == CancelledBlock
  {
    var uid := Uid(o.day, o.slot);
    var summary := Summary(Label(o.number), o.slot);
    EventLinesFilters(uid, summary, DateTime(o.day, SlotStart(o.slot)), DateTime(o.day, SlotEnd(o.slot)),
                      Description(summary, uid), 0, now);
    CancelEventLinesFilters(uid, CancelSummary(o.slot), now);
  }

  /** The events' VEVENTs follow one another, none nested in another. */
  lemma {:induction false} PublishedDelimiters(occ: seq<Occurrence>, now: DateTime)
    requires Printable(occ) && ValidDateTime(now)
    ensures Delimiters(PublishedLines(occ, now)) == Repeated(PublishedBlock, |occ|)
    decreases |occ|
  {
    if occ != [] {
      var head, rest := PublishedEvent(occ[0], now), PublishedLines(occ[1..], now);
      EventFilters(occ[0], now);
      PublishedDelimiters(occ[1..], now);
      DelimitersStep(head, rest, PublishedBlock, |occ| - 1);
    }
  }

  /** One more block in front of n blocks. */
  lemma DelimitersStep(head: seq<string>, rest: seq<string>, block: seq<string>, n: nat)
    requires Delimiters(head) == block && Delimiters(rest) == Repeated(block, n)
    ensures Delimiters(head + rest) == Repeated(block, n + 1)
  {
    DelimitersAppend(head, rest);
  }

  lemma {:induction false} PublishedUids(occ: seq<Occurrence>, now: DateTime)
    requires Printable(occ) && ValidDateTime(now)
    ensures UidLines(PublishedLines(occ, now)) == EventUids(occ)
    decreases |occ|
  {
    if occ != [] {
      EventFilters(occ[0], now);
      PublishedUids(occ[1..], now);
      UidLinesAppend(PublishedEvent(occ[0], now), PublishedLines(occ[1..], now));
    }
  }

  /** The events' VEVENTs follow one another, none nested in another. */
  lemma {:induction false} CancelledDelimiters(occ: seq<Occurrence>, now: DateTime)
    requires Printable(occ) && ValidDateTime(now)
    ensures Delimiters(CancelledLines(occ, now)) == Repeated(CancelledBlock, |occ|)
    decreases |occ|
  {
    if occ != [] {
      var head, rest := CancelledEvent(occ[0], now), CancelledLines(occ[1..], now);
      EventFilters(occ[0], now);
      CancelledDelimiters(occ[1..], now);
      DelimitersStep(head, rest, CancelledBlock, |occ| - 1);
    }
  }

  lemma {:induction false} CancelledUids(occ: seq<Occurrence>, now: DateTime)
    requires Printable(occ) && ValidDateTime(now)
    ensures UidLines(CancelledLines(occ, now)) == EventUids(occ)
    decreases |occ|
  {
    if occ != [] {
      EventFilters(occ[0], now);
      CancelledUids(occ[1..], now);
      UidLinesAppend(CancelledEvent(occ[0], now), CancelledLines(occ[1..], now));
    }
  }

  /**
   * The header and the END:VCALENDAR line of both files carry no UID; the
   * header opens the VCALENDAR and holds no other delimiter.
   */
  lemma FramesHaveNoUid()
    ensures UidLines(PublishHeader) == [] && UidLines(CancelHeader) == [] && UidLines([Footer]) == []
    ensures Delimiters(PublishHeader) == ["BEGIN:VCALENDAR"] && Delimiters(CancelHeader) == ["BEGIN:VCALENDAR"]
    ensures Delimiters([Footer]) == [Footer]
  {
    UidLinesNone(PublishHeader);
    UidLinesNone(CancelHeader);
    UidLinesNone([Footer]);
    DelimiterLiterals();
    PublishHeaderLines();
    HeaderDelimiters(PublishHeader);
    CancelHeaderLines();
    HeaderDelimiters(CancelHeader);
    DelimitersSingle(Footer);
  }

  /** The first letters of the header lines: only the first line starts with B or E. */
  lemma PublishHeaderLines()
    ensures |PublishHeader| == 6 && PublishHeader[0] == "BEGIN:VCALENDAR" && IsDelimiter(PublishHeader[0])
    ensures forall i | 1 <= i < 6 ::
              |PublishHeader[i]| > 0 && PublishHeader[i][0] != 'B' && PublishHeader[i][0] != 'E'
  {
    DelimiterLiterals();
    var product, name := "PRODID:" + ProductId + "//EN", "X-WR-CALNAME:" + CalendarName;
    assert product[0] == 'P';
    assert name[0] == 'X';
    assert PublishHeader == ["BEGIN:VCALENDAR", product, "VERSION:2.0", "CALSCALE:GREGORIAN", name, "METHOD:PUBLISH"];
  }

  lemma CancelHeaderLines()
    ensures |CancelHeader| == 6 && CancelHeader[0] == "BEGIN:VCALENDAR" && IsDelimiter(CancelHeader[0])
    ensures forall i | 1 <= i < 6 ::
              |CancelHeader[i]| > 0 && CancelHeader[i][0] != 'B' && CancelHeader[i][0] != 'E'
  {
    DelimiterLiterals();
    var product, name := "PRODID:" + ProductId + " Cancel//EN", "X-WR-CALNAME:" + CalendarName;
    assert product[0] == 'P';
    assert (name + " (CANCELLATIONS)")[0] == name[0] == 'X';
    assert CancelHeader
           == ["BEGIN:VCALENDAR", product, "VERSION:2.0", "CALSCALE:GREGORIAN", name + " (CANCELLATIONS)", "METHOD:CANCEL"];
  }

  lemma HeaderDelimiters(header: seq<string>)
    requires |header| == 6 && header[0] == "BEGIN:VCALENDAR" && IsDelimiter(header[0])
    requires forall i | 1 <= i < 6 :: |header[i]| > 0 && header[i][0] != 'B' && header[i][0] != 'E'
    ensures Delimiters(header) == ["BEGIN:VCALENDAR"]
  {
    forall i | 0 <= i < 5 ensures !IsDelimiter(header[1..][i]) {
      PlainLine(header[1..][i]);
    }
    DelimitersNone(header[1..]);
    DelimitersSingle(header[0]);
    DelimitersAppend([header[0]], header[1..]);
    assert header == [header[0]] + header[1..];
  }

  /**
   * Each file is one VCALENDAR holding one VEVENT per event, in the order of
   * the events; a published VEVENT holds its VALARM.
   */
  lemma FileStructure(start: Date, now: DateTime)
    requires RangeInPython(start) && ValidDateTime(now)
    ensures Delimiters(ScheduleLines(start, now))
            == ["BEGIN:VCALENDAR"] + Repeated(PublishedBlock, |ScheduledEvents(start)|) + ["END:VCALENDAR"]
    ensures Delimiters(CancelLines(start, now))
            == ["BEGIN:VCALENDAR"] + Repeated(CancelledBlock, |ScheduledEvents(start)|) + ["END:VCALENDAR"]
  {
    var ev := ScheduledEvents(start);
    RangeRepresentable(start);
    OccurrencesPrintable(start, DaysAhead, 1);
    FramesHaveNoUid();
    var pub, can := PublishedLines(ev, now), CancelledLines(ev, now);
    PublishedDelimiters(ev, now);
    CancelledDelimiters(ev, now);
    DelimitersAppend(PublishHeader, pub);
    DelimitersAppend(PublishHeader + pub, [Footer]);
    DelimitersAppend(CancelHeader, can);
    DelimitersAppend(CancelHeader + can, [Footer]);
  }

  /**
   * The cancellation file carries the UIDs of the published file, in the
   * same order, one per event, all distinct: each of its VEVENTs cancels
   * exactly one published VEVENT (section 3.2.5 of RFC 5546).
   */
  lemma SameUids(start: Date, now: DateTime)
    requires RangeInPython(start) && ValidDateTime(now)
    ensures UidLines(CancelLines(start, now)) == UidLines(ScheduleLines(start, now))
    ensures var u := UidLines(ScheduleLines(start, now));
      && |u| == |ScheduledEvents(start)|
      && forall i, j | 0 <= i < j < |u| :: u[i] != u[j]
  {
    var ev := ScheduledEvents(start);
    RangeRepresentable(start);
    OccurrencesPrintable(start, DaysAhead, 1);
    FramesHaveNoUid();
    var pub, can := PublishedLines(ev, now), CancelledLines(ev, now);
    PublishedUids(ev, now);
    CancelledUids(ev, now);
    UidLinesAppend(PublishHeader, pub);
    UidLinesAppend(PublishHeader + pub, [Footer]);
    UidLinesAppend(CancelHeader, can);
    UidLinesAppend(CancelHeader + can, [Footer]);
    UidsDistinct(start);
    var u := EventUids(ev);
    forall i, j | 0 <= i < j < |u| ensures u[i] != u[j] {
      assert u[i][4..] == Uid(ev[i].day, ev[i].slot);
      assert u[j][4..] == Uid(ev[j].day, ev[j].slot);
    }
  }

  /** Both files open a VCALENDAR, declare their iTIP method, and close it. */
  lemma FileFraming(start: Date, now: DateTime)
    requires RangeInPython(start) && ValidDateTime(now)
    ensures var p := ScheduleLines(start, now);
      p[0] == "BEGIN:VCALENDAR" && p[5] == "METHOD:PUBLISH" && p[|p| - 1] == "END:VCALENDAR"
    ensures var c := CancelLines(start, now);
      c[0] == "BEGIN:VCALENDAR" && c[5] == "METHOD:CANCEL" && c[|c| - 1] == "END:VCALENDAR"
  {
    RangeRepresentable(start);
    OccurrencesPrintable(start, DaysAhead, 1);
    var ev := ScheduledEvents(start);
    Framed(PublishHeader, PublishedLines(ev, now), Footer);
    Framed(CancelHeader, CancelledLines(ev, now), Footer);
  }

  lemma Framed(header: seq<string>, body: seq<string>, footer: string)
    requires |header| == 6
    ensures var f := header + body + [footer];
      f[0] == header[0] && f[5] == header[5] && f[|f| - 1] == footer
  {
  }
}
