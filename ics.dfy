/**
 * The iCalendar text produced by timetable.py: the `YYYYMMDDTHHMMSS` local
 * DATE-TIME form (section 3.3.5 of RFC 5545, with the TZID parameter carried
 * on the property), content lines joined with a bare line feed, and the two
 * VEVENT builders `make_event` and `make_cancel_event`.
 */
module Ics {
  import opened Wrappers
  import opened Dates

  datatype Time = Time(hour: int, minute: int, second: int)
  datatype DateTime = DateTime(date: Date, time: Time)

  predicate ValidTime(t: Time) {
    0 <= t.hour < 24 && 0 <= t.minute < 60 && 0 <= t.second < 60
  }

  /** A `datetime` Python can represent (microseconds are not printed and not modelled). */
  predicate ValidDateTime(dt: DateTime) {
    InPythonRange(dt.date) && ValidTime(dt.time)
  }

  predicate TimeLt(a: Time, b: Time) {
    a.hour < b.hour
    || (a.hour == b.hour && a.minute < b.minute)
    || (a.hour == b.hour && a.minute == b.minute && a.second < b.second)
  }

  /** `a < b` for two datetimes in the same time zone. */
  predicate DateTimeLt(a: DateTime, b: DateTime) {
    DateLt(a.date, b.date) || (a.date == b.date && TimeLt(a.time, b.time))
  }

  const TzName := "Africa/Accra"
  const OrganizerEmail := "setmyday@example.org"
  const ReminderMinutes := 15

  // ---------------------------------------------------------------------
  // Decimal fields

  predicate IsDigit(c: char) {
    '0' <= c <= '9'
  }

  function DigitChar(n: int): (c: char)
    requires 0 <= n < 10
    ensures IsDigit(c) && DigitValue(c) == n
  {
    (48 + n) as char
  }

  function DigitValue(c: char): int
    requires IsDigit(c)
  {
    c as int - 48
  }

  predicate AllDigits(s: string) {
    forall i | 0 <= i < |s| :: IsDigit(s[i])
  }

  /** Value of a two-digit field. */
  function Value2(s: string): int
    requires |s| == 2 && AllDigits(s)
  {
    10 * DigitValue(s[0]) + DigitValue(s[1])
  }

  /** Value of a four-digit field. */
  function Value4(s: string): int
    requires |s| == 4 && AllDigits(s)
  {
    100 * Value2(s[..2]) + Value2(s[2..])
  }

  /** strftime's zero-padded two-digit field (`%m`, `%d`, `%H`, `%M`, `%S`). */
  function Pad2(n: int): (s: string)
    requires 0 <= n < 100
    ensures |s| == 2 && AllDigits(s) && Value2(s) == n
  {
    [DigitChar(n / 10), DigitChar(n % 10)]
  }

  /** strftime's four-digit year field `%Y`. */
  function Pad4(n: int): (s: string)
    requires 0 <= n < 10000
    ensures |s| == 4 && AllDigits(s) && Value4(s) == n
  {
    var s := Pad2(n / 100) + Pad2(n % 100);
    assert s[..2] == Pad2(n / 100) && s[2..] == Pad2(n % 100);
    s
  }

  /** The value of a string of decimal digits, most significant digit first. */
  function DecimalValue(s: string): nat
    requires AllDigits(s)
  {
    if s == [] then 0 else 10 * DecimalValue(s[..|s| - 1]) + DigitValue(s[|s| - 1])
  }

  /** Python's `str(n)` for a natural number: its decimal digits, without leading zeros. */
  function NatToString(n: nat): (s: string)
    ensures |s| >= 1 && AllDigits(s)
    ensures DecimalValue(s) == n
    ensures |s| > 1 ==> s[0] != '0'
  {
    if n < 10 then [DigitChar(n)]
    else
      var s := NatToString(n / 10) + [DigitChar(n % 10)];
      assert s[..|s| - 1] == NatToString(n / 10);
      s
  }

  // ---------------------------------------------------------------------
  // dt_to_ics and its inverse

  /** `d.strftime('%Y%m%d')`. */
  function DateStamp(d: Date): (s: string)
    requires InPythonRange(d)
    ensures |s| == 8 && AllDigits(s)
  {
    Pad4(d.year) + Pad2(d.month) + Pad2(d.day)
  }

  /** `dt_to_ics(dt)`: `dt.strftime("%Y%m%dT%H%M%S")`, no trailing `Z`. */
  function DtToIcs(dt: DateTime): (s: string)
    requires ValidDateTime(dt)
    ensures |s| == 15 && s[8] == 'T' && s[..8] == DateStamp(dt.date)
    ensures forall i | 0 <= i < 15 && i != 8 :: IsDigit(s[i])
  {
    DateStamp(dt.date) + "T" + Pad2(dt.time.hour) + Pad2(dt.time.minute) + Pad2(dt.time.second)
  }

  /** Reads an eight-digit `YYYYMMDD` stamp back. */
  function ParseDateStamp(s: string): Option<Date> {
    if |s| == 8 && AllDigits(s) then
      Some(Date(Value4(s[..4]), Value2(s[4..6]), Value2(s[6..])))
    else None
  }

  /** Reads a `YYYYMMDDTHHMMSS` value back. */
  function ParseIcs(s: string): Option<DateTime> {
    if |s| == 15 && s[8] == 'T' && AllDigits(s[..8]) && AllDigits(s[9..]) then
      match ParseDateStamp(s[..8])
      case Some(d) => Some(DateTime(d, Time(Value2(s[9..11]), Value2(s[11..13]), Value2(s[13..]))))
      case None => None
    else None
  }

  lemma DateStampRoundTrip(d: Date)
    requires InPythonRange(d)
    ensures ParseDateStamp(DateStamp(d)) == Some(d)
  {
    var s := DateStamp(d);
    assert s[..4] == Pad4(d.year);
    assert s[4..6] == Pad2(d.month);
    assert s[6..] == Pad2(d.day);
  }

  /** The DATE-TIME text determines the datetime it was printed from. */
  lemma IcsRoundTrip(dt: DateTime)
    requires ValidDateTime(dt)
    ensures ParseIcs(DtToIcs(dt)) == Some(dt)
  {
    var s := DtToIcs(dt);
    DateStampRoundTrip(dt.date);
    assert s[..8] == DateStamp(dt.date);
    assert s[9..11] == Pad2(dt.time.hour);
    assert s[11..13] == Pad2(dt.time.minute);
    assert s[13..] == Pad2(dt.time.second);
    assert AllDigits(s[9..]) by {
      forall i | 0 <= i < |s[9..]| ensures IsDigit(s[9..][i]) {
        assert s[9..][i] == s[9 + i];
      }
    }
  }

  lemma DateStampInjective(a: Date, b: Date)
    requires InPythonRange(a) && InPythonRange(b)
    requires DateStamp(a) == DateStamp(b)
    ensures a == b
  {
    DateStampRoundTrip(a);
    DateStampRoundTrip(b);
  }

  // ---------------------------------------------------------------------
  // Content lines

  /** Python's `"\n".join(lines)`. */
  function JoinLines(lines: seq<string>): string {
    if |lines| == 0 then ""
    else if |lines| == 1 then lines[0]
    else lines[0] + "\n" + JoinLines(lines[1..])
  }

  /** Python's `text.split("\n")`. */
  function SplitLines(text: string): (lines: seq<string>)
    ensures |lines| >= 1
  {
    if text == [] then [""]
    else
      var rest := SplitLines(text[1..]);
      if text[0] == '\n' then [""] + rest
      else [[text[0]] + rest[0]] + rest[1..]
  }

  predicate NoLineBreak(s: string) {
    forall i | 0 <= i < |s| :: s[i] != '\n'
  }

  predicate SingleLines(lines: seq<string>) {
    forall i | 0 <= i < |lines| :: NoLineBreak(lines[i])
  }

  /** Joining two non-empty lists puts one line feed between their texts. */
  lemma {:induction false} JoinAppend(a: seq<string>, b: seq<string>)
    requires |a| >= 1 && |b| >= 1
    ensures JoinLines(a + b) == JoinLines(a) + "\n" + JoinLines(b)
    decreases |a|
  {
    if |a| == 1 {
      assert (a + b)[1..] == b;
    } else {
      assert (a + b)[1..] == a[1..] + b;
      JoinAppend(a[1..], b);
    }
  }

  /** Joining the joined text of a group is joining the group's lines. */
  lemma JoinNested(a: seq<string>, g: seq<string>)
    requires |a| >= 1 && |g| >= 1
    ensures JoinLines(a + [JoinLines(g)]) == JoinLines(a + g)
  {
    JoinAppend(a, [JoinLines(g)]);
    JoinAppend(a, g);
  }

  /** The lines of a list of groups, one group after the other. */
  function Flatten(groups: seq<seq<string>>): seq<string> {
    if groups == [] then [] else groups[0] + Flatten(groups[1..])
  }

  lemma {:induction false} FlattenAppend(a: seq<seq<string>>, b: seq<seq<string>>)
    ensures Flatten(a + b) == Flatten(a) + Flatten(b)
    decreases |a|
  {
    if a == [] {
      assert a + b == b;
    } else {
      assert (a + b)[0] == a[0] && (a + b)[1..] == a[1..] + b;
      FlattenAppend(a[1..], b);
    }
  }

  /** Joining a group's text inside a list is joining its lines there. */
  lemma JoinGroup(a: seq<string>, g: seq<string>, b: seq<string>)
    requires |a| >= 1 && |g| >= 1
    ensures JoinLines(a + [JoinLines(g)] + b) == JoinLines(a + g + b)
  {
    JoinNested(a, g);
    if |b| >= 1 {
      JoinAppend(a + [JoinLines(g)], b);
      JoinAppend(a + g, b);
    } else {
      assert a + [JoinLines(g)] + b == a + [JoinLines(g)];
      assert a + g + b == a + g;
    }
  }

  /** Each group as its one joined text, in order. */
  function Joined(groups: seq<seq<string>>): seq<string> {
    seq(|groups|, k requires 0 <= k < |groups| => JoinLines(groups[k]))
  }

  lemma JoinedAppend(a: seq<seq<string>>, b: seq<seq<string>>)
    ensures Joined(a + b) == Joined(a) + Joined(b)
  {
    var l, r := Joined(a + b), Joined(a) + Joined(b);
    forall k | 0 <= k < |l| ensures l[k] == r[k] {
      if k < |a| {
        assert (a + b)[k] == a[k];
      } else {
        assert (a + b)[k] == b[k - |a|];
      }
    }
  }

  lemma JoinedPair(x: seq<string>, y: seq<string>)
    ensures Joined([x, y]) == [JoinLines(x), JoinLines(y)]
  {
  }

  /** Two more groups add their two joined texts. */
  lemma JoinedSnoc(groups: seq<seq<string>>, x: seq<string>, y: seq<string>)
    ensures Joined(groups + [x, y]) == Joined(groups) + [JoinLines(x), JoinLines(y)]
  {
    JoinedAppend(groups, [x, y]);
    JoinedPair(x, y);
  }

  predicate NonEmptyGroups(groups: seq<seq<string>>) {
    forall k | 0 <= k < |groups| :: |groups[k]| >= 1
  }

  /**
   * Appending each group as one joined text, as `"\n".join` of a list that
   * already holds joined VEVENTs does, gives the text of the flat list of lines.
   */
  lemma {:induction false} JoinFlatten(a: seq<string>, groups: seq<seq<string>>, b: seq<string>)
    requires |a| >= 1 && NonEmptyGroups(groups)
    ensures JoinLines(a + Joined(groups) + b) == JoinLines(a + Flatten(groups) + b)
    decreases |groups|
  {
    if groups == [] {
      assert Joined(groups) == [] && Flatten(groups) == [];
    } else {
      var g, rest := groups[0], Flatten(groups[1..]);
      var a' := a + [JoinLines(g)];
      assert Joined(groups) == [JoinLines(g)] + Joined(groups[1..]);
      assert a + Joined(groups) + b == a' + Joined(groups[1..]) + b;
      JoinFlatten(a', groups[1..], b);
      assert a' + rest + b == a + [JoinLines(g)] + (rest + b);
      JoinGroup(a, g, rest + b);
      assert a + g + (rest + b) == a + Flatten(groups) + b;
    }
  }

  lemma {:induction false} SplitLinePrefix(l: string, t: string)
    requires NoLineBreak(l)
    ensures SplitLines(l + t) == [l + SplitLines(t)[0]] + SplitLines(t)[1..]
    decreases |l|
  {
    if l != [] {
      assert (l + t)[0] == l[0] && (l + t)[1..] == l[1..] + t;
      assert NoLineBreak(l[1..]) by {
        forall i | 0 <= i < |l[1..]| ensures l[1..][i] != '\n' {
          assert l[1..][i] == l[i + 1];
        }
      }
      SplitLinePrefix(l[1..], t);
      var rest := SplitLines(l[1..] + t);
      assert SplitLines(l + t) == [[l[0]] + rest[0]] + rest[1..];
      assert rest[0] == l[1..] + SplitLines(t)[0];
      assert rest[1..] == SplitLines(t)[1..];
      assert [l[0]] + (l[1..] + SplitLines(t)[0]) == l + SplitLines(t)[0];
    } else {
      assert l + t == t;
      assert l + SplitLines(t)[0] == SplitLines(t)[0];
      assert [l + SplitLines(t)[0]] + SplitLines(t)[1..] == SplitLines(t);
    }
  }

  /** Splitting the joined text gives back the content lines. */
  lemma {:induction false} SplitJoin(lines: seq<string>)
    requires |lines| >= 1 && SingleLines(lines)
    ensures SplitLines(JoinLines(lines)) == lines
  {
    if |lines| == 1 {
      SplitLinePrefix(lines[0], "");
      assert lines[0] + "" == lines[0];
    } else {
      var rest := JoinLines(lines[1..]);
      assert SingleLines(lines[1..]) by {
        forall i | 0 <= i < |lines[1..]| ensures NoLineBreak(lines[1..][i]) {
          assert lines[1..][i] == lines[i + 1];
        }
      }
      SplitJoin(lines[1..]);
      assert lines[0] + "\n" + rest == lines[0] + ("\n" + rest);
      assert ("\n" + rest)[0] == '\n' && ("\n" + rest)[1..] == rest;
      assert SplitLines("\n" + rest) == [""] + lines[1..];
      SplitLinePrefix(lines[0], "\n" + rest);
      assert lines[0] + "" == lines[0];
      assert lines == [lines[0]] + lines[1..];
    }
  }

  predicate IsUidLine(l: string) {
    |l| >= 4 && l[0] == 'U' && l[1] == 'I' && l[2] == 'D' && l[3] == ':'
  }

  /** The `UID:` lines of a file, in order. */
  function UidLines(lines: seq<string>): (r: seq<string>)
    ensures forall i | 0 <= i < |r| :: IsUidLine(r[i])
  {
    if lines == [] then []
    else (if IsUidLine(lines[0]) then [lines[0]] else []) + UidLines(lines[1..])
  }

  lemma {:induction false} UidLinesAppend(a: seq<string>, b: seq<string>)
    ensures UidLines(a + b) == UidLines(a) + UidLines(b)
    decreases |a|
  {
    if a == [] {
      assert a + b == b;
    } else {
      assert (a + b)[0] == a[0] && (a + b)[1..] == a[1..] + b;
      UidLinesAppend(a[1..], b);
    }
  }

  /** A list whose only `UID:` line is at index k yields just that line. */
  lemma {:induction false} UidLinesSingle(lines: seq<string>, k: nat)
    requires k < |lines|
    requires forall i | 0 <= i < |lines| :: IsUidLine(lines[i]) <==> i == k
    ensures UidLines(lines) == [lines[k]]
  {
    if k == 0 {
      UidLinesNone(lines[1..]);
    } else {
      UidLinesSingle(lines[1..], k - 1);
    }
  }

  lemma {:induction false} UidLinesNone(lines: seq<string>)
    requires forall i | 0 <= i < |lines| :: !IsUidLine(lines[i])
    ensures UidLines(lines) == []
  {
    if lines != [] {
      UidLinesNone(lines[1..]);
    }
  }

  // ---------------------------------------------------------------------
  // make_event and make_cancel_event

  /** The content lines of `make_event`'s VEVENT. */
  function EventLines(uid: string, summary: string, dtstart: DateTime, dtend: DateTime,
                      description: string, sequence: nat, now: DateTime): seq<string>
    requires ValidDateTime(dtstart) && ValidDateTime(dtend) && ValidDateTime(now)
  {
    ["BEGIN:VEVENT"]
    + EventProperties(uid, summary, dtstart, dtend, description, sequence, now)
    + AlarmLines(summary)
    + ["END:VEVENT"]
  }

  /** The properties of a published VEVENT, UID through ORGANIZER. */
  function EventProperties(uid: string, summary: string, dtstart: DateTime, dtend: DateTime,
                           description: string, sequence: nat, now: DateTime): seq<string>
    requires ValidDateTime(dtstart) && ValidDateTime(dtend) && ValidDateTime(now)
  {
    [ "UID:" + uid,
      "SEQUENCE:" + NatToString(sequence),
      "STATUS:CONFIRMED",
      "DTSTAMP:" + DtToIcs(now),
      "DTSTART;TZID=" + TzName + ":" + DtToIcs(dtstart),
      "DTEND;TZID=" + TzName + ":" + DtToIcs(dtend),
      "SUMMARY:" + summary,
      "TRANSP:OPAQUE",
      "DESCRIPTION:" + description,
      "X-ALT-DESC;FMTTYPE=text/html:<b>" + summary + "</b><br/>" + description,
      "ORGANIZER:MAILTO:" + OrganizerEmail ]
  }

  /** The single display reminder of a published VEVENT. */
  function AlarmLines(summary: string): seq<string> {
    [ "BEGIN:VALARM",
      "ACTION:DISPLAY",
      "DESCRIPTION:Reminder - " + summary,
      "TRIGGER:-PT" + NatToString(ReminderMinutes) + "M",
      "END:VALARM" ]
  }

  /** The content lines of `make_cancel_event`'s VEVENT. */
  function CancelEventLines(uid: string, summary: string, now: DateTime): seq<string>
    requires ValidDateTime(now)
  {
    ["BEGIN:VEVENT"] + CancelProperties(uid, summary, now) + ["END:VEVENT"]
  }

  /** The properties of a cancelling VEVENT, UID through SUMMARY. */
  function CancelProperties(uid: string, summary: string, now: DateTime): seq<string>
    requires ValidDateTime(now)
  {
    [ "UID:" + uid,
      "SEQUENCE:1",
      "STATUS:CANCELLED",
      "DTSTAMP:" + DtToIcs(now),
      "SUMMARY:" + summary ]
  }

  /** `make_event`: appends the VEVENT's lines one by one and joins them. */
  method MakeEvent(uid: string, summary: string, dtstart: DateTime, dtend: DateTime,
                   description: string, sequence: nat, now: DateTime) returns (text: string)
    requires ValidDateTime(dtstart) && ValidDateTime(dtend) && ValidDateTime(now)
    ensures text == JoinLines(EventLines(uid, summary, dtstart, dtend, description, sequence, now))
  {
    var dtstartS := DtToIcs(dtstart);
    var dtendS := DtToIcs(dtend);
    var vevent: seq<string> := [];
    vevent := vevent + ["BEGIN:VEVENT"];
    vevent := vevent + ["UID:" + uid];
    vevent := vevent + ["SEQUENCE:" + NatToString(sequence)];
    vevent := vevent + ["STATUS:CONFIRMED"];
    vevent := vevent + ["DTSTAMP:" + DtToIcs(now)];
    vevent := vevent + ["DTSTART;TZID=" + TzName + ":" + dtstartS];
    vevent := vevent + ["DTEND;TZID=" + TzName + ":" + dtendS];
    vevent := vevent + ["SUMMARY:" + summary];
    vevent := vevent + ["TRANSP:OPAQUE"];
    vevent := vevent + ["DESCRIPTION:" + description];
    vevent := vevent + ["X-ALT-DESC;FMTTYPE=text/html:<b>" + summary + "</b><br/>" + description];
    vevent := vevent + ["ORGANIZER:MAILTO:" + OrganizerEmail];
    assert vevent == ["BEGIN:VEVENT"] + EventProperties(uid, summary, dtstart, dtend, description, sequence, now);
    ghost var head := vevent;
    vevent := vevent + ["BEGIN:VALARM"];
    vevent := vevent + ["ACTION:DISPLAY"];
    vevent := vevent + ["DESCRIPTION:Reminder - " + summary];
    vevent := vevent + ["TRIGGER:-PT" + NatToString(ReminderMinutes) + "M"];
    vevent := vevent + ["END:VALARM"];
    assert vevent == head + AlarmLines(summary);
    vevent := vevent + ["END:VEVENT"];
    text := JoinLines(vevent);
  }

  /** `make_cancel_event`: the minimal CANCELLED VEVENT, joined. */
  method MakeCancelEvent(uid: string, summary: string, now: DateTime) returns (text: string)
    requires ValidDateTime(now)
    ensures text == JoinLines(CancelEventLines(uid, summary, now))
  {
    var vevent: seq<string> := [];
    vevent := vevent + ["BEGIN:VEVENT"];
    vevent := vevent + ["UID:" + uid];
    vevent := vevent + ["SEQUENCE:1"];
    vevent := vevent + ["STATUS:CANCELLED"];
    vevent := vevent + ["DTSTAMP:" + DtToIcs(now)];
    vevent := vevent + ["SUMMARY:" + summary];
    vevent := vevent + ["END:VEVENT"];
    assert vevent == CancelEventLines(uid, summary, now);
    text := JoinLines(vevent);
  }

  /** The positions of a published VEVENT's SEQUENCE, STATUS, DTSTART and DTEND lines. */
  lemma EventLinesAt(uid: string, summary: string, dtstart: DateTime, dtend: DateTime,
                     description: string, sequence: nat, now: DateTime)
    requires ValidDateTime(dtstart) && ValidDateTime(dtend) && ValidDateTime(now)
    ensures var ls := EventLines(uid, summary, dtstart, dtend, description, sequence, now);
      && |ls| == 18
      && ls[2] == "SEQUENCE:" + NatToString(sequence) && ls[3] == "STATUS:CONFIRMED"
      && ls[5] == "DTSTART;TZID=" + TzName + ":" + DtToIcs(dtstart)
      && ls[6] == "DTEND;TZID=" + TzName + ":" + DtToIcs(dtend)
  {
    var props := EventProperties(uid, summary, dtstart, dtend, description, sequence, now);
    var ls := EventLines(uid, summary, dtstart, dtend, description, sequence, now);
    assert ls == ["BEGIN:VEVENT"] + props + AlarmLines(summary) + ["END:VEVENT"];
    assert ls[1..12] == props;
  }

  /** `f"SEQUENCE:{0}"`, the SEQUENCE line of a first version. */
  lemma SequenceZero()
    ensures "SEQUENCE:" + NatToString(0) == "SEQUENCE:0"
  {
  }

  /**
   * A published VEVENT opens with BEGIN:VEVENT and closes with END:VEVENT;
   * it carries its UID, its SEQUENCE number, STATUS:CONFIRMED, its summary
   * and its start and end as local DATE-TIME values with the TZID parameter.
   */
  lemma EventLinesFields(uid: string, summary: string, dtstart: DateTime, dtend: DateTime,
                         description: string, sequence: nat, now: DateTime)
    requires ValidDateTime(dtstart) && ValidDateTime(dtend) && ValidDateTime(now)
    ensures var ls := EventLines(uid, summary, dtstart, dtend, description, sequence, now);
      && ls[0] == "BEGIN:VEVENT" && ls[|ls| - 1] == "END:VEVENT"
      && "UID:" + uid in ls
      && "SEQUENCE:" + NatToString(sequence) in ls && "STATUS:CONFIRMED" in ls
      && "DTSTART;TZID=" + TzName + ":" + DtToIcs(dtstart) in ls
      && "DTEND;TZID=" + TzName + ":" + DtToIcs(dtend) in ls
      && "SUMMARY:" + summary in ls
  {
    var props := EventProperties(uid, summary, dtstart, dtend, description, sequence, now);
    var ls := EventLines(uid, summary, dtstart, dtend, description, sequence, now);
    forall l | l in props ensures l in ls {
      var k :| 0 <= k < |props| && props[k] == l;
      assert ls[1 + k] == l;
    }
  }

  /**
   * A published VEVENT holds a DISPLAY alarm triggered 15 minutes before the
   * start (section 3.6.6 of RFC 5545).
   */
  lemma EventLinesAlarm(uid: string, summary: string, dtstart: DateTime, dtend: DateTime,
                        description: string, sequence: nat, now: DateTime)
    requires ValidDateTime(dtstart) && ValidDateTime(dtend) && ValidDateTime(now)
    ensures var ls := EventLines(uid, summary, dtstart, dtend, description, sequence, now);
      && "BEGIN:VALARM" in ls && "ACTION:DISPLAY" in ls && "TRIGGER:-PT15M" in ls && "END:VALARM" in ls
  {
    var ls := EventLines(uid, summary, dtstart, dtend, description, sequence, now);
    var alarm := AlarmLines(summary);
    TriggerLiteral();
    assert ls[15] == alarm[3];
    assert ls[12] == alarm[0] && ls[13] == alarm[1] && ls[16] == alarm[4];
  }

  /** A `BEGIN:` line, opening a component (section 3.4 and 3.6 of RFC 5545). */
  predicate IsBegin(l: string) {
    |l| >= 6 && l[0] == 'B' && l[1] == 'E' && l[2] == 'G' && l[3] == 'I' && l[4] == 'N' && l[5] == ':'
  }

  /** An `END:` line, closing a component. */
  predicate IsEnd(l: string) {
    |l| >= 4 && l[0] == 'E' && l[1] == 'N' && l[2] == 'D' && l[3] == ':'
  }

  /** The TRIGGER value of the reminder: a duration of 15 minutes before the start. */
  lemma TriggerLiteral()
    ensures "TRIGGER:-PT" + NatToString(ReminderMinutes) + "M" == "TRIGGER:-PT15M"
  {
    assert NatToString(ReminderMinutes) == "15";
  }

  predicate IsDelimiter(l: string) {
    IsBegin(l) || IsEnd(l)
  }

  /** The BEGIN/END delimiter lines of a list of content lines, in order. */
  function Delimiters(lines: seq<string>): (r: seq<string>)
    ensures forall i | 0 <= i < |r| :: IsDelimiter(r[i])
  {
    if lines == [] then []
    else (if IsDelimiter(lines[0]) then [lines[0]] else []) + Delimiters(lines[1..])
  }

  lemma {:induction false} DelimitersAppend(a: seq<string>, b: seq<string>)
    ensures Delimiters(a + b) == Delimiters(a) + Delimiters(b)
    decreases |a|
  {
    if a == [] {
      assert a + b == b;
    } else {
      assert (a + b)[0] == a[0] && (a + b)[1..] == a[1..] + b;
      DelimitersAppend(a[1..], b);
    }
  }

  lemma {:induction false} DelimitersNone(lines: seq<string>)
    requires forall i | 0 <= i < |lines| :: !IsDelimiter(lines[i])
    ensures Delimiters(lines) == []
  {
    if lines != [] {
      DelimitersNone(lines[1..]);
    }
  }

  lemma DelimitersSingle(l: string)
    ensures Delimiters([l]) == if IsDelimiter(l) then [l] else []
  {
    assert [l][1..] == [];
  }

  /** The delimiters and the `UID:` lines of a list made of four parts. */
  lemma Filters4(w: seq<string>, x: seq<string>, y: seq<string>, z: seq<string>)
    ensures Delimiters(w + x + y + z) == Delimiters(w) + Delimiters(x) + Delimiters(y) + Delimiters(z)
    ensures UidLines(w + x + y + z) == UidLines(w) + UidLines(x) + UidLines(y) + UidLines(z)
  {
    DelimitersAppend(w, x);
    DelimitersAppend(w + x, y);
    DelimitersAppend(w + x + y, z);
    UidLinesAppend(w, x);
    UidLinesAppend(w + x, y);
    UidLinesAppend(w + x + y, z);
  }

  /** A line starting with neither `B` nor `E` is no delimiter, and one not starting with `U` no UID line. */
  lemma PlainLine(l: string)
    requires |l| > 0
    ensures l[0] != 'B' && l[0] != 'E' ==> !IsDelimiter(l)
    ensures l[0] != 'U' ==> !IsUidLine(l)
  {
  }

  /** The UID property is the only `UID:` line and no property line is a delimiter. */
  lemma PropertiesFilters(uid: string, summary: string, dtstart: DateTime, dtend: DateTime,
                          description: string, sequence: nat, now: DateTime)
    requires ValidDateTime(dtstart) && ValidDateTime(dtend) && ValidDateTime(now)
    ensures var props := EventProperties(uid, summary, dtstart, dtend, description, sequence, now);
      Delimiters(props) == [] && UidLines(props) == ["UID:" + uid]
  {
    var props := EventProperties(uid, summary, dtstart, dtend, description, sequence, now);
    forall i | 0 <= i < |props| ensures !IsDelimiter(props[i]) && (i != 0 ==> !IsUidLine(props[i])) {
      PlainLine(props[i]);
    }
    DelimitersNone(props);
    UidLinesSingle(props, 0);
  }

  /** The delimiter lines the generator writes are delimiters, and none is a `UID:` line. */
  lemma DelimiterLiterals()
    ensures IsDelimiter("BEGIN:VEVENT") && IsDelimiter("END:VEVENT")
    ensures IsDelimiter("BEGIN:VALARM") && IsDelimiter("END:VALARM")
    ensures IsDelimiter("BEGIN:VCALENDAR") && IsDelimiter("END:VCALENDAR")
    ensures !IsUidLine("BEGIN:VEVENT") && !IsUidLine("END:VEVENT")
    ensures !IsUidLine("BEGIN:VALARM") && !IsUidLine("END:VALARM")
    ensures !IsUidLine("BEGIN:VCALENDAR") && !IsUidLine("END:VCALENDAR")
    ensures ["BEGIN:VEVENT"] + ["BEGIN:VALARM", "END:VALARM"] + ["END:VEVENT"]
            == ["BEGIN:VEVENT", "BEGIN:VALARM", "END:VALARM", "END:VEVENT"]
  {
  }

  /** A component's delimiters: its BEGIN line, nothing from a flat body, its END line. */
  lemma Block(open: string, body: seq<string>, close: string)
    requires IsDelimiter(open) && IsDelimiter(close)
    requires forall i | 0 <= i < |body| :: !IsDelimiter(body[i])
    ensures Delimiters([open] + body + [close]) == [open, close]
  {
    DelimitersNone(body);
    DelimitersSingle(open);
    DelimitersSingle(close);
    DelimitersAppend([open], body);
    assert Delimiters([open] + body) == [open];
    DelimitersAppend([open] + body, [close]);
  }

  /** A component holding flat properties and then one inner component. */
  lemma Nest(open: string, props: seq<string>, inner: seq<string>, close: string)
    requires IsDelimiter(open) && IsDelimiter(close) && !IsUidLine(open) && !IsUidLine(close)
    requires Delimiters(props) == [] && UidLines(inner) == []
    ensures Delimiters([open] + props + inner + [close]) == [open] + Delimiters(inner) + [close]
    ensures UidLines([open] + props + inner + [close]) == UidLines(props)
  {
    DelimitersSingle(open);
    DelimitersSingle(close);
    UidLinesNone([open]);
    UidLinesNone([close]);
    Filters4([open], props, inner, [close]);
  }

  /** The alarm is one VALARM block without a `UID:` line. */
  lemma AlarmFilters(summary: string)
    ensures Delimiters(AlarmLines(summary)) == ["BEGIN:VALARM", "END:VALARM"]
    ensures UidLines(AlarmLines(summary)) == []
  {
    var alarm := AlarmLines(summary);
    var body := alarm[1..4];
    forall i | 0 <= i < |alarm| ensures !IsUidLine(alarm[i]) {
      PlainLine(alarm[i]);
    }
    forall i | 0 <= i < |body| ensures !IsDelimiter(body[i]) {
      PlainLine(body[i]);
    }
    UidLinesNone(alarm);
    DelimiterLiterals();
    Block("BEGIN:VALARM", body, "END:VALARM");
    assert alarm == ["BEGIN:VALARM"] + body + ["END:VALARM"];
  }

  /**
   * A published VEVENT is one VEVENT block holding one VALARM block, and
   * its only `UID:` line is its own UID.
   */
  lemma EventLinesFilters(uid: string, summary: string, dtstart: DateTime, dtend: DateTime,
                          description: string, sequence: nat, now: DateTime)
    requires ValidDateTime(dtstart) && ValidDateTime(dtend) && ValidDateTime(now)
    ensures var ls := EventLines(uid, summary, dtstart, dtend, description, sequence, now);
      && Delimiters(ls) == ["BEGIN:VEVENT", "BEGIN:VALARM", "END:VALARM", "END:VEVENT"]
      && UidLines(ls) == ["UID:" + uid]
  {
    var props := EventProperties(uid, summary, dtstart, dtend, description, sequence, now);
    PropertiesFilters(uid, summary, dtstart, dtend, description, sequence, now);
    AlarmFilters(summary);
    DelimiterLiterals();
    Nest("BEGIN:VEVENT", props, AlarmLines(summary), "END:VEVENT");
  }

  /**
   * A cancelling VEVENT is delimited like a published one and carries the
   * same UID, SEQUENCE:1 (greater than the published SEQUENCE:0, section
   * 3.8.7.4 of RFC 5545) and STATUS:CANCELLED.
   */
  lemma CancelEventLinesFields(uid: string, summary: string, now: DateTime)
    requires ValidDateTime(now)
    ensures var ls := CancelEventLines(uid, summary, now);
      && ls[0] == "BEGIN:VEVENT" && ls[|ls| - 1] == "END:VEVENT"
      && "UID:" + uid in ls && "SEQUENCE:1" in ls && "STATUS:CANCELLED" in ls
  {
    var ls := CancelEventLines(uid, summary, now);
    assert ls[1] == "UID:" + uid && ls[2] == "SEQUENCE:1" && ls[3] == "STATUS:CANCELLED";
  }

  /** A cancelling VEVENT is one VEVENT block without alarm, and its only `UID:` line is its UID. */
  lemma CancelEventLinesFilters(uid: string, summary: string, now: DateTime)
    requires ValidDateTime(now)
    ensures var ls := CancelEventLines(uid, summary, now);
      Delimiters(ls) == ["BEGIN:VEVENT", "END:VEVENT"] && UidLines(ls) == ["UID:" + uid]
  {
    var props := CancelProperties(uid, summary, now);
    forall i | 0 <= i < |props| ensures !IsDelimiter(props[i]) && (i != 0 ==> !IsUidLine(props[i])) {
      PlainLine(props[i]);
    }
    UidLinesSingle(props, 0);
    DelimiterLiterals();
    Block("BEGIN:VEVENT", props, "END:VEVENT");
    UidLinesNone(["BEGIN:VEVENT"]);
    UidLinesNone(["END:VEVENT"]);
    UidLinesAppend(["BEGIN:VEVENT"], props);
    UidLinesAppend(["BEGIN:VEVENT"] + props, ["END:VEVENT"]);
  }
}
