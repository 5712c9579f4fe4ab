# Nerd: the chat page and the study timetable, in Dafny

The repository has two cores. This project models both and proves properties
of each model.

**The Nerd AI chat page** (`src/components/NerdAi.jsx`). This is a React
component.
- Its state is a user name, a list of chats, the active chat's id, the text in
  the input field, a loading flag, a sidebar flag, and the browser's
  `localStorage`.
- Its handlers create, delete and select chats, record the user's name, and
  send a message to the completion service.
- An effect saves the chat list to `localStorage` whenever the list changes.

The page is the class `ChatController.NerdAI`:
- Each handler is a method whose `ensures` gives the whole new state as a step
  function of the old state (`NewChatStep`, `DeleteStep`, `NameStep`,
  `SendPage`, `SubmitPage` in module `ChatPage`).
- The pure expressions the handlers evaluate are functions of module
  `ChatModel`: `trim`, `toLowerCase`, the nickname aliases, the title
  rule, `updateActiveChat`, the delete filter, the request payload and the
  save effect.
- The lemmas beside them say what each step keeps and changes. It keeps the
  active id naming a chat of the list, keeps chat ids distinct, and keeps the
  store holding the list. It also says exactly which chat gains which
  messages and title, and what request is posted.

**The study timetable** (`timetable.py`). This is a script that writes two
iCalendar files:
- A PUBLISH calendar, as in section 3.2.1 of RFC 5546. For each of the 40 days
  from today, except Sundays, it holds a morning event (05:00–07:00) and an
  evening event (19:00–22:00). The events of the first seven study days are
  labelled as course sessions.
- A CANCEL calendar, as in section 3.2.5 of RFC 5546, which cancels the same
  events through the same UIDs.

How the timetable is modelled:
- The two day loops are the methods `Timetable.ScheduleStudyDays` and
  `Timetable.CancelStudyDays`. Their invariants tie the lines built so far to
  a reference list of events, `Timetable.ScheduledEvents`.
- The generators `Timetable.GenerateSchedule` and `Timetable.GenerateCancelFile`
  return whether Python runs to the end, the file text and the number of
  events. On success the text is proved equal to the line-joined reference
  calendar. They fail exactly when a date step would overflow Python's `date`.
- Module `TimetableProperties` proves what the file promises:
  - the count and order of the events;
  - which events carry the course label;
  - each event's DTSTART and DTEND, and that the start comes before the end
    (`Ics.DateTimeLt`);
  - that UIDs are distinct, and the same in both files;
  - the BEGIN/END nesting of each file.
- `Dates` models Python's proleptic Gregorian `date`: ordinals, `weekday()`
  and `timedelta` days.
- `Ics` models `dt_to_ics`, proves it can be parsed back, and models the
  VEVENT builders as methods.

The clock is a parameter:
- For the chat page, `Date.now()` becomes the `freshId` argument.
- For the timetable, `datetime.now(tz)` becomes the `start` date and the
  `now` DTSTAMP instant.

The completion service's answer is a `Completion` argument: the reply text,
or `Failure`.

## Model

| member | source | states |
|---|---|---|
| Dates.Ordinal | timetable.py:97 | `toordinal()`: the days from 0001-01-01, which is day 1 |
| Dates.DateLe | timetable.py:97 | `d <= end_date`: year, then month, then day |
| Dates.NextDay | timetable.py:101 | `d + timedelta(days=1)`: the next day of the month, else the 1st of the next month, else 1 January of the next year |
| Dates.DaysInMonth | timetable.py:101 | a month has 28 to 31 days, and 29 exactly for February of a leap year (Gregorian rule, as Python's `date`) |
| Dates.Weekday | timetable.py:98 | `weekday()` is in 0..6 (Monday 0, Sunday 6) |
| Dates.AddDays | timetable.py:83 | adding days to a valid date gives a valid date |
| Dates.AddDaysOrdinal | timetable.py:83 | `date + timedelta(days=n)` moves the date's ordinal by exactly n |
| Dates.NextDayOrdinal | timetable.py:101 | the next day is a valid date whose ordinal is one more |
| Dates.AddDaysWeekday | timetable.py:98 | n days later the weekday has advanced by n modulo 7 |
| Dates.NextDayWeekday | timetable.py:125 | the day after has the next weekday modulo 7 |
| Dates.DateLeIffOrdinalLe | timetable.py:97 | `d <= end_date` holds exactly when the ordinals compare so (both directions) |
| Dates.DateLtOrdinal | timetable.py:97 | an earlier date has a smaller ordinal |
| Dates.OrdinalInjective | timetable.py:97 | two valid dates with the same ordinal are the same date |
| Dates.OrdinalWithinYear | timetable.py:83 | a date's ordinal lies within its year's block of days |
| Dates.DaysBeforeMonthGrows | timetable.py:83 | the days before a later month include the whole of an earlier month |
| Dates.DaysBeforeYearGrows | timetable.py:83 | the days before a later year include the whole of an earlier year |
| Dates.UpToMaxDate | timetable.py:83 | a date no later than 9999-12-31 is representable in Python |
| Ics.DigitChar | timetable.py:37 | a digit below 10 prints as the decimal character of that value |
| Ics.Pad2 | timetable.py:37 | a `%m`/`%d`/`%H`/`%M`/`%S` field is two digits whose value is n |
| Ics.Pad4 | timetable.py:37 | a `%Y` field is four digits whose value is n |
| Ics.NatToString | timetable.py:47 | `str(n)` of a natural is a non-empty string of decimal digits whose value is n, without a leading zero |
| Ics.DateStamp | timetable.py:113 | `strftime('%Y%m%d')` is eight digits |
| Ics.DtToIcs | timetable.py:34-37 | `%Y%m%dT%H%M%S` is 15 characters: the date stamp, `T`, then six digits |
| Ics.IcsRoundTrip | timetable.py:34-37 | parsing `dt_to_ics(dt)` back gives dt: the format loses nothing |
| Ics.DateStampRoundTrip | timetable.py:113 | parsing the `%Y%m%d` stamp back gives the date |
| Ics.DateStampInjective | timetable.py:113 | distinct dates have distinct stamps |
| Ics.SplitJoin | timetable.py:66 | splitting the `"\n".join` of single-line strings on line feeds gives the lines back |
| Ics.JoinAppend | timetable.py:127 | joining two non-empty lists puts one line feed between their two texts |
| Ics.JoinFlatten | timetable.py:116-127 | joining a list that holds joined VEVENT texts gives the text of the flat list of content lines |
| Ics.UidLinesAppend | timetable.py:46 | the UID lines of a concatenation are those of each part, in order |
| Ics.DelimitersAppend | timetable.py:45-65 | the BEGIN/END lines of a concatenation are those of each part, in order |
| Ics.JoinLines | timetable.py:66 | `"\n".join`: the lines with one line feed between neighbours and none at the end |
| Ics.EventLines | timetable.py:44-65 | the 18 lines `make_event` appends, in order: the VEVENT properties, then the VALARM |
| Ics.CancelEventLines | timetable.py:70-77 | the 7 lines `make_cancel_event` appends, in order |
| Ics.EventLinesAt | timetable.py:47-51 | a VEVENT has 18 lines; its 3rd is SEQUENCE with the number given, its 4th `STATUS:CONFIRMED`, its 6th and 7th DTSTART and DTEND with TZID and the formatted times |
| Ics.SequenceZero | timetable.py:39 | the default sequence 0 prints as `SEQUENCE:0` |
| Ics.MakeEvent | timetable.py:39-66 | the VEVENT text is the line-joined list of its 18 content lines |
| Ics.EventLinesFields | timetable.py:45-52 | the VEVENT opens with BEGIN and closes with END, and has the UID, SEQUENCE, CONFIRMED status, DTSTART/DTEND with TZID, and SUMMARY lines |
| Ics.EventLinesAlarm | timetable.py:60-64 | the VEVENT holds a DISPLAY alarm triggered 15 minutes before the start |
| Ics.EventLinesFilters | timetable.py:45-65 | a VEVENT's delimiters are VEVENT(VALARM) in that nesting, and it has exactly one UID line |
| Ics.MakeCancelEvent | timetable.py:68-78 | the cancelling VEVENT text is the line-joined list of its 7 content lines |
| Ics.CancelEventLinesFields | timetable.py:71-77 | the cancelling VEVENT opens and closes the component, and has the UID, `SEQUENCE:1` and CANCELLED status |
| Ics.CancelEventLinesFilters | timetable.py:71-77 | a cancelling VEVENT is one flat component with exactly one UID line |
| Timetable.RangeRepresentable | timetable.py:83 | `end_date` is the 40th day of the range; every day of it and the day after it are representable |
| Timetable.RangeLimit | timetable.py:83-125 | 9999-11-21 is the latest start from which the loops run to the end: a start one day later makes the last step overflow |
| Timetable.StudyDaysSound | timetable.py:96-125 | every day the loop schedules lies in the range and is not a Sunday |
| Timetable.StudyDaysComplete | timetable.py:96-125 | every non-Sunday of the range is scheduled |
| Timetable.StudyDaysIncreasing | timetable.py:96-125 | the study days come in strictly increasing date order |
| Timetable.StudyDaysLength | timetable.py:96-125 | the number of study days is the number of non-Sundays, counted from the start weekday |
| Timetable.StudyCountPeriod | timetable.py:99-102 | every further 7 days hold exactly 6 study days |
| Timetable.StudyDaysCount | timetable.py:20 | 40 days hold 35 study days when the start is a Monday or Tuesday, 34 otherwise |
| Timetable.Uid | timetable.py:113 | the UID `study-YYYYMMDD-morning-setmyday@example.org`, or `-evening-` for the evening (line 120) |
| Timetable.Label | timetable.py:106-109 | the first seven study days are labelled "Generative AI course", later ones "Study Session" |
| Timetable.Summary | timetable.py:114 | the label, a dash, and "Morning Session" or "Evening Session" (line 121) |
| Timetable.Description | timetable.py:115 | the summary, the UID and the calendar name, joined by the two characters `\n` |
| Timetable.UidLayout | timetable.py:113 | a UID holds the date stamp at positions 6 to 13 and the slot's initial at 15 |
| Timetable.UidInjective | timetable.py:113-120 | two events share a UID only when they have the same date and the same slot |
| Timetable.OccurrencesAt | timetable.py:104-123 | event k is on study day k / 2, in the morning for even k and the evening for odd k, with day counter `number + k / 2` |
| Timetable.PublishedTextsLength | timetable.py:116-123 | the loop appends one text per event |
| Timetable.ScheduleStudyDays | timetable.py:96-125 | on a range Python runs to the end, every date the loop computes is representable, and the loop appends exactly the joined VEVENTs of the reference events after the header, two per study day counted |
| Timetable.CancelStudyDays | timetable.py:148-160 | on a range Python runs to the end, every date the loop computes is representable, and the cancel loop appends exactly the joined cancelling VEVENTs of the reference events, two per study day counted |
| Timetable.ScheduleDay | timetable.py:104-123 | one study day bumps the counter and appends its morning and then its evening VEVENT |
| Timetable.CancelDay | timetable.py:153-159 | one study day of the cancel loop appends its morning and then its evening cancellation |
| Timetable.StudyDayEvents | timetable.py:106-123 | the two VEVENTs of a study day carry its label, slot times, UIDs and descriptions |
| Timetable.CancelDayEvents | timetable.py:154-159 | the two cancellations of a study day carry its UIDs and fixed summaries |
| Timetable.ScheduleText | timetable.py:126-127 | appending the footer and joining the loop's lines gives the text of the reference calendar |
| Timetable.CancelText | timetable.py:161-162 | the same for the cancellation calendar |
| Timetable.GenerateSchedule | timetable.py:80-131 | it succeeds exactly when the range and the day after it are representable (otherwise Python raises OverflowError before writing); then the file text is the line-joined PUBLISH calendar of the reference events, and the event count printed is their number |
| Timetable.GenerateCancelFile | timetable.py:133-166 | it succeeds on the same starts as the schedule; then the file text is the line-joined CANCEL calendar of the same events, and the count is their number |
| TimetableProperties.StudyDaysExact | timetable.py:96-125 | a date is scheduled exactly when it lies in the 40 days and is not a Sunday (both directions) |
| TimetableProperties.ScheduledEventsLayout | timetable.py:96-125 | 70 or 68 events; event k is on a study day of the range, morning for even k, with counter k / 2 + 1 |
| TimetableProperties.CourseDaysFirst | timetable.py:106-109 | an event carries the course label exactly when it is among the first 14 (the first seven study days) |
| TimetableProperties.EventsDistinct | timetable.py:96-125 | no two events share a date and a slot |
| TimetableProperties.UidsDistinct | timetable.py:10-11 | the UIDs of the published events are pairwise distinct |
| TimetableProperties.PublishedEventTimes | timetable.py:111-123 | a published VEVENT starts at 05:00 and ends at 07:00 in the morning, 19:00 and 22:00 in the evening; start before end; `SEQUENCE:0` and `STATUS:CONFIRMED` |
| TimetableProperties.EventTimes | timetable.py:104-123 | event k of the file has DTSTART and DTEND at the morning times of its study day for even k and the evening times for odd k |
| TimetableProperties.EventUids | timetable.py:113-120 | the UID line of each event, in event order |
| TimetableProperties.SameUids | timetable.py:133-136 | the cancellation file carries the same UID lines, in the same order, as the published file, one per event and all distinct |
| TimetableProperties.FileStructure | timetable.py:89-126 | each file is one VCALENDAR holding, in order, one VEVENT(VALARM) block or one flat cancellation VEVENT per event |
| TimetableProperties.FileFraming | timetable.py:89-94 | each file starts with `BEGIN:VCALENDAR`, its sixth line is its METHOD (PUBLISH or CANCEL), and it ends with `END:VCALENDAR` |
| TimetableProperties.PublishedUids | timetable.py:116-123 | the UID lines of the published VEVENTs are the event UIDs, in order |
| TimetableProperties.CancelledUids | timetable.py:158-159 | the UID lines of the cancellations are the event UIDs, in order |
| TimetableProperties.PublishedDelimiters | timetable.py:116-123 | the published VEVENTs' delimiters are one VEVENT(VALARM) block per event |
| TimetableProperties.CancelledDelimiters | timetable.py:158-159 | the cancellations' delimiters are one VEVENT block per event |
| ChatModel.TrimStart | src/components/NerdAi.jsx:404 | the left-trimmed string is a suffix, preceded only by white space and not starting with it |
| ChatModel.TrimEnd | src/components/NerdAi.jsx:404 | the right-trimmed string is a prefix, followed only by white space and not ending with it |
| ChatModel.Trim | src/components/NerdAi.jsx:404 | `trim()` is no longer than its input and neither starts nor ends with white space |
| ChatModel.TrimSlice | src/components/NerdAi.jsx:404 | `trim()` is the slice of the input left once white space on both sides is removed |
| ChatModel.TrimUnchanged | src/components/NerdAi.jsx:404 | a string with no white space at either end trims to itself |
| ChatModel.TrimIdempotent | src/components/NerdAi.jsx:404 | trimming twice is trimming once |
| ChatModel.TrimBlank | src/components/NerdAi.jsx:478 | `!userInput.trim()` holds exactly when the input is all white space (both directions) |
| ChatModel.LowerChar | src/components/NerdAi.jsx:405-406 | an upper-case ASCII letter maps to the lower-case letter 32 code points above it; every other character maps to itself |
| ChatModel.ToLower | src/components/NerdAi.jsx:405-406 | `toLowerCase()` keeps the length and lowers each character |
| ChatModel.LowerEqualsToLower | src/components/NerdAi.jsx:405-406 | comparing character by character agrees with `s.toLowerCase() === key` (both directions) |
| ChatModel.NicknameCases | src/components/NerdAi.jsx:403-406 | "derborah" in any case becomes Derby, "blessing" becomes lessy, any other name is kept trimmed |
| ChatModel.NicknameNonEmpty | src/components/NerdAi.jsx:404-408 | the stored nickname is non-empty exactly when the submitted name is not all white space |
| ChatModel.Nickname | src/components/NerdAi.jsx:403-406 | the trimmed name, with "derborah" in any case replaced by "Derby" and then "blessing" in any case by "lessy" |
| ChatModel.Greeting | src/components/NerdAi.jsx:411 | the greeting: "Hey ", the nickname, then the fixed invitation |
| ChatModel.DeriveTitle | src/components/NerdAi.jsx:441 | a title of at most 30 characters is the input itself; a longer input gives its first 30 characters and `...` |
| ChatModel.TitleBounds | src/components/NerdAi.jsx:441 | a derived title has at most 33 characters and is empty only for an empty input |
| ChatModel.NewTitle | src/components/NerdAi.jsx:440-441 | a title is proposed exactly when the chat holds no user message, and is the derived title |
| ChatModel.TitleSetOnce | src/components/NerdAi.jsx:440-443 | after one send, a later send proposes no title |
| ChatModel.Added | src/components/NerdAi.jsx:419 | `updateActiveChat` adds one message exactly when one is given, and it is the given one |
| ChatModel.UpdateActiveChat | src/components/NerdAi.jsx:415-430 | the mapped list has the same length |
| ChatModel.UpdateActiveChatShape | src/components/NerdAi.jsx:417-427 | ids keep their places; chats with another id are unchanged; chats with the id gain the message, and the title when one non-empty is given |
| ChatModel.UpdateKeepsActive | src/components/NerdAi.jsx:415-430 | updating keeps any id naming a chat exactly when it named one before (both directions) |
| ChatModel.UpdateKeepsUniqueIds | src/components/NerdAi.jsx:415-430 | updating keeps chat ids distinct |
| ChatModel.SendChatsShape | src/components/NerdAi.jsx:440-470 | a send leaves other chats alone; the active chat gains the user message and then the reply, and takes the derived title exactly when it held no user message and the input is non-empty |
| ChatModel.SendChatsKeeps | src/components/NerdAi.jsx:443-470 | a send keeps the active id naming a chat, and keeps ids distinct |
| ChatModel.RemoveChat | src/components/NerdAi.jsx:391 | the filtered list is no longer |
| ChatModel.RemoveChatMembers | src/components/NerdAi.jsx:391 | the survivors are exactly the chats whose id is not the deleted one |
| ChatModel.RemoveChatAppend | src/components/NerdAi.jsx:391 | filtering distributes over concatenation |
| ChatModel.RemoveChatAbsent | src/components/NerdAi.jsx:391 | filtering out an id no chat has changes nothing |
| ChatModel.RemoveChatUnique | src/components/NerdAi.jsx:391 | filtering keeps ids distinct |
| ChatModel.Opening | src/components/NerdAi.jsx:374-377 | a new chat opens with "Alright", the name and the fresh-topic line when a name is known, and with the introduction otherwise |
| ChatModel.FreshChat | src/components/NerdAi.jsx:371-379 | a new chat has the given id, the title "New Conversation", and one bot message, and no user message |
| ChatModel.ChatsAfterDelete | src/components/NerdAi.jsx:391-399 | after a delete, no chat has the deleted id |
| ChatModel.DeleteKeepsActive | src/components/NerdAi.jsx:394-399 | after a delete, the active id still names a chat: unchanged, the first survivor, or the new chat |
| ChatModel.DeleteKeepsUniqueIds | src/components/NerdAi.jsx:391-399 | a delete keeps ids distinct |
| ChatModel.ChatsAfterDeleteAsWritten | src/components/NerdAi.jsx:381-398 | as the handler is written, deleting the only, active chat gives the new chat followed by the old list |
| ChatModel.DeletedChatReappears | src/components/NerdAi.jsx:381-398 | as written, the deleted chat is still in the list afterwards; the corrected delete removes it |
| ChatModel.FindChat | src/components/NerdAi.jsx:437-438 | the search finds nothing exactly when no chat has the active id; what it finds has that id |
| ChatModel.FindChatFirst | src/components/NerdAi.jsx:437 | the chat found is the first one with the active id |
| ChatModel.RequestRole | src/components/NerdAi.jsx:456 | the payload role is "user" exactly for user messages, "model" for all others |
| ChatModel.ToContents | src/components/NerdAi.jsx:455-458 | one payload entry per message, in order, with its mapped role and its text |
| ChatModel.ToContentsAppend | src/components/NerdAi.jsx:455-458 | the payload of a concatenation is the concatenation of the payloads |
| ChatModel.SystemPrompt | src/components/NerdAi.jsx:448 | the instruction holds the user name between its two fixed phrases |
| ChatModel.Reply | src/components/NerdAi.jsx:465-470 | the bot's answer is the service's text on success and the apology naming the user on failure |
| ChatModel.FailureText | src/components/NerdAi.jsx:470 | the apology: "Oh no, ", the user name, then the fixed advice |
| ChatModel.StoredName | src/components/NerdAi.jsx:342 | the stored name, or the empty string when none is stored |
| ChatModel.SavedChats | src/components/NerdAi.jsx:345 | the stored chats, or the empty list when none are stored |
| ChatModel.Sync | src/components/NerdAi.jsx:355-361 | the chats key holds the list when the list is non-empty and is absent otherwise; every other key is untouched |
| ChatModel.SyncPersists | src/components/NerdAi.jsx:355-361 | after the save effect the store holds the list, and a second save changes nothing |
| ChatPage.NewChatStep | src/components/NerdAi.jsx:370-387 | `handleNewChat`: the new chat in front of the list or alone, active, the sidebar closed, the list saved |
| ChatPage.DeleteStep | src/components/NerdAi.jsx:389-401 | `handleDeleteChat` with the corrected write: the survivors, or a new chat alone when the active last chat goes |
| ChatPage.BootStep | src/components/NerdAi.jsx:341-352 | the load effect: nothing when the chats entry does not parse; else the stored name and the stored chats, or one new chat |
| ChatPage.NameStep | src/components/NerdAi.jsx:403-413 | `handleNameSubmission`: the nickname set and stored, the greeting added to the active chat, the list saved |
| ChatPage.SendPage | src/components/NerdAi.jsx:433-474 | `handleSendMessage`: loading only when no chat is active; else the message, the title and the reply added, loading cleared, the list saved |
| ChatPage.SubmitPage | src/components/NerdAi.jsx:476-486 | `handleSubmit`: nothing for blank input or a pending reply; else the name step or the send, then the input cleared |
| ChatPage.KeysDistinct | src/components/NerdAi.jsx:342-345 | the name key and the chats key differ, so saving chats never touches the name |
| ChatPage.NewChatStepFacts | src/components/NerdAi.jsx:370-387 | the new chat is first, the others follow when saving (none otherwise), it is active, the sidebar is closed, the page is valid, and ids stay distinct |
| ChatPage.DeleteStepFacts | src/components/NerdAi.jsx:389-401 | the deleted id is gone; survivors keep their order; the active id moves only when it was deleted; the store is saved; validity and distinct ids are kept |
| ChatPage.DeleteStepRestart | src/components/NerdAi.jsx:394-399 | deleting the only, active chat is a saving new chat on the emptied list |
| ChatPage.BootStepFacts | src/components/NerdAi.jsx:341-352 | the load fails exactly when the chats entry does not parse; otherwise it restores the name, and either the stored chats with the first active or one new chat, leaving a valid page |
| ChatPage.NameStepFacts | src/components/NerdAi.jsx:403-413 | the nickname is stored and kept, non-empty exactly for a non-blank name; the active chat gains the greeting, and nothing else changes |
| ChatPage.NameStepKeeps | src/components/NerdAi.jsx:403-413 | the name step keeps the page valid and ids distinct |
| ChatPage.SendRequestFacts | src/components/NerdAi.jsx:437-458 | a request is posted exactly when the active chat exists; it carries the user name and the conversation so far followed by the user's message |
| ChatPage.SendPageNoChat | src/components/NerdAi.jsx:434-438 | with no active chat the send only sets the loading flag, which stays set |
| ChatPage.SendPageChats | src/components/NerdAi.jsx:440-470 | the chats after a send: other chats are unchanged, and the active one gains the message, the reply and the title |
| ChatPage.SendPageFields | src/components/NerdAi.jsx:469-472 | after a send that found its chat, loading is cleared, the store is saved, and the name, active id, input and sidebar are unchanged |
| ChatPage.SendPageKeeps | src/components/NerdAi.jsx:433-474 | on a valid page the send finds the chat and keeps the page valid, and ids stay distinct |
| ChatPage.SubmitFacts | src/components/NerdAi.jsx:476-486 | a submit does nothing exactly when the input is blank or a reply is pending; otherwise it takes the name path (no request, a name is set) or the send path, and clears the input |
| ChatPage.SubmitKeeps | src/components/NerdAi.jsx:476-486 | on a valid page a submit keeps it valid and leaves the loading flag as it was; it posts a request exactly when the input is not blank, nothing is pending and a name is known |
| ChatController.NerdAI.constructor | src/components/NerdAi.jsx:332-337 | the initial state: no name, no chats, no active id, empty input, not loading, sidebar closed |
| ChatController.NerdAI.Boot | src/components/NerdAi.jsx:341-352 | the load effect leaves the state BootStep describes, reports whether the chats entry parsed, and a successful load leaves a valid page |
| ChatController.NerdAI.NewChat | src/components/NerdAi.jsx:370-387 | the new state is NewChatStep of the old, and the page is valid afterwards |
| ChatController.NerdAI.DeleteChat | src/components/NerdAi.jsx:389-401 | the new state is DeleteStep of the old (the corrected delete); when the active id named a chat, the page is valid afterwards |
| ChatController.NerdAI.SelectChat | src/components/NerdAi.jsx:513 | the clicked chat becomes active, the sidebar closes, nothing else changes, and a saved page becomes valid |
| ChatController.NerdAI.ToggleSidebar | src/components/NerdAi.jsx:493 | the sidebar flag flips and nothing else changes |
| ChatController.NerdAI.SetUserInput | src/components/NerdAi.jsx:548 | the input holds the typed text and nothing else changes |
| ChatController.NerdAI.NameSubmission | src/components/NerdAi.jsx:403-413 | the new state is NameStep of the old; a valid page stays valid |
| ChatController.NerdAI.SendMessage | src/components/NerdAi.jsx:433-474 | the new state is SendPage of the old, and the request posted is SendRequest of the old; a valid page stays valid and ends not loading |
| ChatController.NerdAI.Submit | src/components/NerdAi.jsx:476-486 | the new state is SubmitPage of the old, and the request posted is SubmitRequest of the old; a valid page stays valid |

## Left out

- The HTTP call to the completion service, its JSON body and its response parsing are left out. The outcome is a `Completion` argument, covering success or any thrown error. The request is the value `ChatModel.Request`.
- ChatModel.Request: stores the user name in place of the instruction text. The text is `ChatModel.SystemPrompt` of that name.
- `Date.now()` is the `freshId` argument. The API key, `console.error`, scrolling, navigation and rendering are left out.
- Asynchrony is left out. Each handler runs to completion before the next one starts, and the save effect runs as part of it. Interleavings of an awaited send with other clicks are not modelled.
- `JSON.stringify`/`JSON.parse` of the chat list is left out: `ChatList(chats)` stands for its text. A `Text` value under the chats key stands for text that does not parse, where `JSON.parse` throws. JSON `null` is the absent key.
- ChatController.NerdAI.Boot: requires the name entry, when present, to be text. The page only ever writes text there.
- ChatController.NerdAI.DeleteChat: requires a fresh id no chat already has, which `Date.now()` gives in practice. It also models the corrected delete; the code as written is under Findings.
- String lengths count Unicode scalar values rather than UTF-16 code units. The two differ only outside the Basic Multilingual Plane, where the 30-character title cut can fall differently.
- ChatModel.LowerChar: lowers ASCII letters only. Of the characters outside ASCII, only the Kelvin sign lowercases into `a`–`z` (to `k`), and `k` is in neither alias key, so the alias tests are unaffected. Lowered text is only compared, never stored.
- `datetime.now(tz)` is the `start` date and the `now` instant. One `now` is used for every DTSTAMP of a file, where the script samples the clock per event. Time zones (`ZoneInfo`) are left out: all times are wall-clock times in the named zone.
- The loops' last step computes the day after `end_date`, so Python raises `OverflowError` unless the range ends before 9999-12-31 (start at most 9999-11-21). The generators then return `ok` false and write nothing, which stands for that exception. A start year beyond 9999 is excluded by their requires, because Python cannot build such a date at all.
- Ics.Pad4: pads years below 1000 to four digits. Some platforms' `strftime('%Y')` print such years unpadded; the timetable only formats dates near today.
- Writing the files, the `print` calls and the `__main__` driver are left out. The generators return the text and the event count that is printed.
- `uuid` is imported by the script but never used.

## Findings

| source | as written | input that shows it | evidently intended | confidence | as-written member | corrected member |
|---|---|---|---|---|---|---|
| src/components/NerdAi.jsx:381-398 | `handleDeleteChat` stores the filtered list. When the active chat was the last one, it then calls `handleNewChat(userName)`, which stores `[newChat, ...allChats]` with the list from before the delete, and that later write wins. | deleting the only chat while it is active | the deleted chat is gone and the new chat stands alone | not executed | ChatModel.DeletedChatReappears | ChatController.NerdAI.DeleteChat |
