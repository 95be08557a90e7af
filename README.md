# hyperschedule core data model, in Dafny

Hyperschedule's scraper library describes what a college publishes about its
courses: when and where each course meets, and which part of the term it runs.
This project models the library's data-model file, `hyperschedule/__init__.py`,
and proves what its classes promise:

- **Clock** — `Date` and `Time` values, the calendar and clock order that the
  meeting checks rely on, and `Time.__str__`. The rendering is shown to be
  injective and is inverted by a parser.
- **Subterms** — `Subterm`: the two construction errors, the eight named
  subterms, and `__str__`. The rendering lists exactly the included parts, in
  ascending order, and is inverted by a parser.
- **Days** — `Weekdays`: the day-letter check, `add_day`, the constructor,
  `is_empty` and `__str__`. `__str__` is proved to be the one listing of the set
  in calendar order.
- **Meetings** — `Meeting`: the seven fields, their setters, the ordering checks
  `_check_dates` and `_check_times`, and construction from keyword arguments.
- **Results** — `ScraperResult`: the term and the code-keyed course dictionary,
  where the last course with a code wins.
- **Text** and **Wrappers** — Python's string operations as the library uses
  them, and the error results.

How the Python is stated in Dafny:

- Every `raise MaintainerError(...)` becomes an `Err`/`Fail` value naming the
  reason. A `log.warn` becomes a returned `duplicate` flag.
- `Weekdays`, `Meeting` and `ScraperResult` update their fields in place. Each is
  a `class`, and its setters `modifies this` and state the whole new state.
  `Date`, `Time` and `Subterm` are never mutated after construction, so they are
  datatypes.
- The library never defines `Location` or `Term`, and `Course` is a stub. These
  are abstract types, and a course is its code plus abstract details.
- `Date` and `Time` define no comparison, yet `_check_dates` and `_check_times`
  compare them with `>=`. The model gives them the calendar and clock order,
  which is lexicographic on their fields. The code as written is logged under
  "## Findings".
- `Subterm(*subterms)` keeps `map(bool, subterms)`, so the model takes the
  arguments as their truth values.
- `str.upper` on one character maps `a`–`z` to `A`–`Z`, `ı` (U+0131) to `I` and
  `ſ` (U+017F) to `S`. Those are the only characters whose upper case can be a day
  letter.
- Every error the library raises on purpose is a `MaintainerError`, and the
  setters check only what the code checks. The as-written members also return
  the `NameError` and `TypeError` that Python raises for the defects logged
  under "## Findings". In two places the code contradicts its own docstrings: `add_day`
  accepts any run of day letters, not just one character, and `is_empty` holds
  when there ARE days. In both places the model states the code as written
  (`Days.AcceptedAsWritten`, `Days.Weekdays.IsEmpty`) and the documented
  behaviour (`Days.CheckDay`, `Days.Weekdays.HasNoDays`). The rest of the model
  uses the documented behaviour (see "## Findings").

## Model

| member | source | states |
|---|---|---|
| Clock.DateBeforeIsOrdinalOrder | hyperschedule/__init__.py:291-298 | the date order used by `_check_dates` is the order of the day ordinal `(year*13+month)*32+day` |
| Clock.DateBeforeIsStrictTotalOrder | hyperschedule/__init__.py:293 | the date order is irreflexive, transitive and total, so `start >= end` is exactly "start not before end" |
| Clock.TimeBeforeIsMinuteOrder | hyperschedule/__init__.py:300-307 | the time order used by `_check_times` is the order of minutes since midnight |
| Clock.TimeBeforeIsStrictTotalOrder | hyperschedule/__init__.py:302 | the time order is irreflexive, transitive and total |
| Clock.DaysInMonth | hyperschedule/__init__.py:65-67 | every month has 28 to 31 days, the bound on a `Date`'s day |
| Clock.DateBefore | hyperschedule/__init__.py:293 | the order `>=` is assumed to negate: (year, month, day) lexicographically; `DateBeforeIsOrdinalOrder` and `DateBeforeIsStrictTotalOrder` state what it is |
| Clock.TimeBefore | hyperschedule/__init__.py:302 | the order `>=` is assumed to negate: (hour, minute) lexicographically; `TimeBeforeIsMinuteOrder` and `TimeBeforeIsStrictTotalOrder` state what it is |
| Clock.TimeToString | hyperschedule/__init__.py:93-97 | `Time.__str__`; its partners `TimeStringRoundTrip` and `TimeToStringInjective` state that the text determines the time |
| Clock.DisplayHour | hyperschedule/__init__.py:94 | `(hour - 1) % 12 + 1` is between 1 and 12, is 12 exactly at midnight and noon, equals the hour from 1 to 12 and hour-12 from 13 to 23 |
| Clock.DisplayHourInverse | hyperschedule/__init__.py:94-96 | the display hour together with AM/PM determines the 24-hour hour |
| Clock.TimeStringRoundTrip | hyperschedule/__init__.py:93-97 | parsing `"{h}:{m} {AM/PM}"` gives back the time, for every time |
| Clock.TimeToStringInjective | hyperschedule/__init__.py:93-97 | two different times never print the same |
| Subterms.NewSubterm | hyperschedule/__init__.py:165-169 | `Subterm(*args)` succeeds exactly when some argument is truthy, with a `ValidSubterm`; with no arguments it fails with "no arguments", with no truthy ones with "no truthy arguments"; on success it keeps the truth values in order |
| Subterms.NamedSubtermsConstruct | hyperschedule/__init__.py:180-202 | all eight named subterms construct without error, with the documented parts |
| Subterms.IncludedFrom | hyperschedule/__init__.py:174-175 | the enumerated indices kept are exactly the included ones, strictly ascending |
| Subterms.SubtermToString | hyperschedule/__init__.py:171-177 | `Subterm.__str__`; its partners `IncludedPartIsPrinted`, `FractionsAscending` and `SubtermStringRoundTrip` state what it lists and that it loses nothing |
| Subterms.IncludedPartIsPrinted | hyperschedule/__init__.py:171-177 | part k is included exactly when `"{k+1}/{n}"` appears in the fractions listed |
| Subterms.FractionsAscending | hyperschedule/__init__.py:172-176 | the fractions are listed with strictly ascending numerators over the same denominator |
| Subterms.ValidSubtermPrints | hyperschedule/__init__.py:171-177 | a subterm that constructs prints at least one fraction |
| Subterms.SubtermStringRoundTrip | hyperschedule/__init__.py:171-177 | parsing the `", "`-joined fractions gives back the subterm, for every subterm that constructs |
| Subterms.NamedSubtermStrings | hyperschedule/__init__.py:181-199 | `FullTerm` prints `1/1`, `SecondHalfTerm` `2/2`, `FirstAndMiddleThirdTerms` `1/3, 2/3` |
| Days.CharsAreTheDayLetters | hyperschedule/__init__.py:106 | `CHARS` holds seven distinct letters, Monday to Sunday |
| Days.AcceptedAsWritten | hyperschedule/__init__.py:124-125 | the check as written, a substring test of the upper-cased day against `MTWRFSU`; `AcceptedAsWrittenLetsNonDaysThrough` and `CheckDayAgreesOnOneChar` state how it differs from a day check |
| Days.AcceptedAsWrittenLetsNonDaysThrough | hyperschedule/__init__.py:124-125 | the substring test accepts the empty string and `"mt"`, neither of them a day |
| Days.CheckDay | hyperschedule/__init__.py:124-126 | a day is accepted exactly when it is one character whose upper case is one of `MTWRFSU`; otherwise the error carries the upper-cased text |
| Days.CheckDayAgreesOnOneChar | hyperschedule/__init__.py:124-125 | on one-character input the substring test and the day check agree |
| Days.AddDayAsWritten | hyperschedule/__init__.py:124-129 | as written, `add_day` never succeeds: an invalid day raises, a valid one reaches the undefined name `days` |
| Days.AddDayAsWrittenRejectsMonday | hyperschedule/__init__.py:127 | as written, `add_day("M")` fails on the name `days` |
| Days.AddAll | hyperschedule/__init__.py:114-117 | the constructor's loop of `add_day` calls on a set; `AddAllAddsTheLetters` and `AddAllTwice` state its result |
| Days.AddAllAddsTheLetters | hyperschedule/__init__.py:114-117 | adding items in turn succeeds exactly when each is a day, and the result is the old set plus their upper-case letters |
| Days.AddAllTwice | hyperschedule/__init__.py:127-129 | adding the same days again changes nothing (a repeated day only warns) |
| Days.Weekdays.Empty | hyperschedule/__init__.py:108-114 | `Weekdays()` has no days |
| Days.Weekdays.New | hyperschedule/__init__.py:108-117 | `Weekdays(items)` succeeds exactly when every item is a day, holds exactly their letters, and otherwise raises the first invalid item's error |
| Days.Weekdays.AddDay | hyperschedule/__init__.py:119-129 | a valid day adds its upper-case letter and warns exactly when it was already there; an invalid day raises and changes nothing |
| Days.DaysString | hyperschedule/__init__.py:138 | the days sorted by their position in `CHARS`; `DaysStringListsEachDayOnce` and `DaysStringIsTheOnlyCalendarListing` state that it is the one such listing |
| Days.DaysStringListsEachDayOnce | hyperschedule/__init__.py:137-138 | the string lists each day of the set once, no other letter, in `CHARS` order |
| Days.DaysStringIsTheOnlyCalendarListing | hyperschedule/__init__.py:137-138 | any string that lists the set's days once each in `CHARS` order is that string |
| Days.Weekdays.ToString | hyperschedule/__init__.py:137-138 | `__str__` is a subsequence of `MTWRFSU` with the set's letters and as many characters as days |
| Days.Weekdays.IsEmpty | hyperschedule/__init__.py:131-135 | `is_empty` as written, `bool(self.days)`; `IsEmptyIsInverted` states that it holds exactly when there are days |
| Days.Weekdays.HasNoDays | hyperschedule/__init__.py:131-134 | `is_empty` as documented; `IsEmptyIsInverted` states that it is the negation of `IsEmpty`, and `Meetings.Meeting.SetWeekdays` refuses exactly the sets for which it holds |
| Days.IsEmptyIsInverted | hyperschedule/__init__.py:131-135 | `is_empty` as written holds exactly when the set has days |
| Meetings.DateCheck | hyperschedule/__init__.py:291-298 | `_check_dates` raises exactly when both dates are set and the start is not before the end |
| Meetings.TimeCheck | hyperschedule/__init__.py:300-307 | `_check_times` raises exactly when both times are set and the start is not before the end |
| Meetings.DateCheckFailsOnInvertedOrEqual | hyperschedule/__init__.py:293 | equal dates, and a start after the end, are both refused |
| Meetings.TimeCheckFailsOnInvertedOrEqual | hyperschedule/__init__.py:302 | equal times, and a start after the end, are both refused |
| Meetings.DateCheckAsWritten | hyperschedule/__init__.py:291-298 | as written, comparing two `Date`s raises whenever both are set |
| Meetings.TimeCheckAsWritten | hyperschedule/__init__.py:300-307 | as written, comparing two `Time`s raises whenever both are set |
| Meetings.ChecksAsWrittenRejectOrderedPairs | hyperschedule/__init__.py:293-302 | as written, 1 January to 1 February and 9:00 to 10:00 are refused; with the calendar and clock orders they pass |
| Meetings.Construction | hyperschedule/__init__.py:227-240 | construction passes exactly when the dates are ordered, the weekdays (if given) have days and the times are ordered |
| Meetings.Meeting.Blank | hyperschedule/__init__.py:220-226 | every field starts unset |
| Meetings.Meeting.New | hyperschedule/__init__.py:210-240 | `Meeting(...)` succeeds exactly when construction passes, holds exactly the arguments given, and its dates and times are ordered; otherwise it raises the first failing setter's error |
| Meetings.Meeting.InitDates | hyperschedule/__init__.py:227-230 | the date arguments given are stored, and construction fails here exactly when the pair is out of order |
| Meetings.Meeting.InitTimes | hyperschedule/__init__.py:233-236 | the time arguments given are stored, and construction fails here exactly when the pair is out of order |
| Meetings.Meeting.SetStartDate | hyperschedule/__init__.py:250-254 | stores the start date, changes nothing else, and raises exactly when the dates are then out of order |
| Meetings.Meeting.SetEndDate | hyperschedule/__init__.py:256-260 | stores the end date, changes nothing else, and raises exactly when the dates are then out of order |
| Meetings.Meeting.SetWeekdays | hyperschedule/__init__.py:262-267 | refuses a set without days and changes nothing; otherwise stores that very object |
| Meetings.Meeting.SetStartTime | hyperschedule/__init__.py:269-273 | stores the start time, changes nothing else, and raises exactly when the times are then out of order |
| Meetings.Meeting.SetEndTime | hyperschedule/__init__.py:275-279 | stores the end time, changes nothing else, and raises exactly when the times are then out of order |
| Meetings.Meeting.SetSubterm | hyperschedule/__init__.py:281-284 | stores the subterm and changes nothing else |
| Meetings.Meeting.SetLocation | hyperschedule/__init__.py:286-289 | stores the location and changes nothing else |
| Meetings.Meeting.SetDates | hyperschedule/__init__.py:242-244 | as written: if the new start is not before the old end, it raises with only the start stored; otherwise both are stored and the new pair is checked |
| Meetings.Meeting.SetTimes | hyperschedule/__init__.py:246-248 | as written: the same for times |
| Meetings.Meeting.SetDatesTogether | hyperschedule/__init__.py:242-244 | as intended: stores both dates and passes exactly when the start is before the end |
| Meetings.Meeting.SetTimesTogether | hyperschedule/__init__.py:246-248 | as intended: stores both times and passes exactly when the start is before the end |
| Meetings.SetDatesRejectsOrderedPair | hyperschedule/__init__.py:242-244 | a January meeting moved to 1 March – 30 April: the as-written `set_dates` raises, the intended one passes |
| Meetings.SetTimesRejectsOrderedPair | hyperschedule/__init__.py:246-248 | a 9–10 meeting moved to 11–12: the as-written `set_times` raises, the intended one passes |
| Results.Insert | hyperschedule/__init__.py:374-377 | the course is stored under its code, the codes are the old ones plus that code, and every other code keeps its course |
| Results.FromList | hyperschedule/__init__.py:367-369 | the dictionary after adding the courses in order; `FromListKeepsLast` and `FromListSize` state its keys, values and size |
| Results.LastWithCode | hyperschedule/__init__.py:367-369 | reference definition: present exactly when some course has that code, and then it is a course of the list with that code after which no course has that code |
| Results.FromListKeepsLast | hyperschedule/__init__.py:367-377 | after adding courses in order, a code is present exactly when some course had it, and maps to the last such course |
| Results.FromListSize | hyperschedule/__init__.py:367-377 | there are at most as many entries as courses, and exactly as many when the codes are distinct |
| Results.ScraperResult.constructor | hyperschedule/__init__.py:362-369 | holds the term given and the courses added in order |
| Results.ScraperResult.AddCourse | hyperschedule/__init__.py:371-377 | stores the course under its code, warns exactly when the code was present, and leaves the term alone |
| Results.ScraperResult.SetTerm | hyperschedule/__init__.py:379-382 | stores the term and leaves the courses alone |

## Left out

- `Log` (lines 12-31) prints timestamped messages to standard output (line 21). It is I/O, so each warning is returned as a `duplicate` flag instead.
- `Date` and `Time` parsing from strings (lines 53-67 and 78-91) goes through the third-party `dateparser` and `datetime`, which are not part of this model. Dates and times are built from their fields, in the ranges `datetime` admits: years 1 to 9999, and days bounded by the month's length in the Gregorian calendar (`Clock.DaysInMonth`).
- `Date.__str__` (lines 69-70) prints the three fields joined by `-`. It is used only to build error messages, and their formatting is left out (see below).
- The `isinstance` checks of every setter (lines 251-288, 372-381) are enforced by the parameter types. An object that passes `isinstance(subterm, Subterm)` (line 282) was built by the constructor at lines 165-169, so a meeting's subterm has type `Subterms.ValidSubterm`: at least one part, and at least one part included. `MaintainerError`'s message formatting is left out, and only the reason for each error is kept.
- Lines 287 and 380 name `Location` and `Term`, which the library never defines. As written, `set_location` and `set_term` would fail with `NameError`. The model takes both as abstract types that are defined.
- `Meeting._is_valid`, `Schedule`, `Course` (whose constructor stores none of its arguments), the `Scraper` abstract base class and the refinement entry point are empty stubs in the library. There is nothing to model.
- Results.ScraperResult.AddCourse: line 374 calls `course.get_code()`, but `Course` (lines 325-352) defines no such method. As written, `add_course` raises `AttributeError` for every course, and so does `ScraperResult(courses=[...])` whose first item is a `Course` (any other first item raises `MaintainerError` at line 373 first). The model gives each course the code that `get_code` is evidently meant to return, and models the dictionary update that follows.
- Days.Weekdays.New: the items are a sequence of strings. A Python string argument is its sequence of one-character strings, and other iterables are not modelled.
- Days.CheckDay: `str.upper` is modelled only on `a`–`z`, `ı` and `ſ`. Every other character keeps its case, which cannot change whether it is accepted. Unicode case expansions that change the length, such as `ß` to `SS`, are not modelled.
- Meetings.Meeting.New: on failure the partly built meeting is discarded, so the contract says nothing about it.
- Meetings.Meeting.SetWeekdays stores a reference to the caller's `Weekdays`. Later `add_day` calls on that object change the meeting's weekdays too, and no invariant about that sharing is stated.
- Meetings.Meeting.SetWeekdays uses the emptiness test as documented, not `is_empty` as written (see "## Findings").

## Findings

| source | as written | input that shows it | evidently intended | confidence | as-written member | corrected member |
|---|---|---|---|---|---|---|
| hyperschedule/__init__.py:127-129 | `add_day` reads and updates `days`, a name defined nowhere, instead of `self.days` | `Weekdays("M")` raises `NameError`, and so does every `Weekdays` built from an iterable whose first item passes the check at line 125 | check and update `self.days` | high, not executed | Days.AddDayAsWritten | Days.Weekdays.AddDay |
| hyperschedule/__init__.py:124-125 | `day not in CHARS` is a substring test, which accepts any run of consecutive day letters | `add_day("")` and `add_day("mt")` pass the check | accept exactly one day letter | medium, not executed | Days.AcceptedAsWritten | Days.CheckDay |
| hyperschedule/__init__.py:131-135 | `is_empty` returns `bool(self.days)`, which is true when there are days | `set_weekdays` (line 265) refuses a `Weekdays` with the day `M`, and accepts one with no days | true exactly when there are no days | high, not executed | Days.Weekdays.IsEmpty | Days.Weekdays.HasNoDays |
| hyperschedule/__init__.py:291-307 | `Date` and `Time` define no ordering, so `>=` between two of them raises `TypeError` | `Meeting(start_date=1 January 2024, end_date=1 February 2024)` raises | compare in calendar and clock order | high, not executed | Meetings.DateCheckAsWritten | Meetings.DateCheck |
| hyperschedule/__init__.py:242-248 | `set_dates` stores and checks the new start against the old end before it stores the new end | a meeting from 1 to 31 January given `set_dates(1 March, 30 April)` raises, and is left starting 1 March and ending 31 January | store both, then check the new pair | medium, not executed | Meetings.Meeting.SetDates | Meetings.Meeting.SetDatesTogether |

The as-written behaviour of each row is exhibited by `Days.AddDayAsWrittenRejectsMonday`, `Days.AcceptedAsWrittenLetsNonDaysThrough`, `Days.IsEmptyIsInverted`, `Meetings.ChecksAsWrittenRejectOrderedPairs` and `Meetings.SetDatesRejectsOrderedPair` respectively. `set_times` has the same defect as `set_dates` (`Meetings.Meeting.SetTimes`, corrected by `Meetings.Meeting.SetTimesTogether`). The rest of the model uses the corrected members. `Meetings.Meeting.SetWeekdays` tests with `HasNoDays`, and the meeting checks use the calendar and clock order.
