/** `Meeting`: one recurring time block of a course. Seven optional fields, each
    set by its own setter; the date and time setters re-check that the start is
    before the end once both are set. A setter stores its value BEFORE the check,
    so a call that fails leaves the offending value in the meeting. */
module Meetings {
  import opened Wrappers
  import opened Clock
  import opened Subterms
  import opened Days

  /** The library never defines `Location`; its values are taken as they come. */
  type Location(==)

  /** All seven fields of a meeting at one moment, `None` for a field not set. */
  datatype Fields = Fields(
    startDate: Option<Date>,
    endDate: Option<Date>,
    weekdays: Option<Weekdays>,
    startTime: Option<Time>,
    endTime: Option<Time>,
    subterm: Option<ValidSubterm>,
    location: Option<Location>)

  const NoFields := Fields(None, None, None, None, None, None, None)

  /** `_check_dates` on a start and an end: fails only when both are set and the
      start is not before the end. */
  function DateCheck(start: Option<Date>, end: Option<Date>): (r: Outcome)
    ensures r.Fail? <==> start.Some? && end.Some? && !DateBefore(start.value, end.value)
    ensures r.Fail? ==> r.error == DatesNotOrdered
  {
    if start.Some? && end.Some? && !DateBefore(start.value, end.value) then Fail(DatesNotOrdered) else Pass
  }

  /** `_check_times`, the same check on times. */
  function TimeCheck(start: Option<Time>, end: Option<Time>): (r: Outcome)
    ensures r.Fail? <==> start.Some? && end.Some? && !TimeBefore(start.value, end.value)
    ensures r.Fail? ==> r.error == TimesNotOrdered
  {
    if start.Some? && end.Some? && !TimeBefore(start.value, end.value) then Fail(TimesNotOrdered) else Pass
  }

  /** `_check_dates` as written: `Date` defines no comparison, so once both dates
      are set, `start_date >= end_date` raises TypeError whatever the dates are. */
  function DateCheckAsWritten(start: Option<Date>, end: Option<Date>): (r: Outcome)
    ensures r.Fail? <==> start.Some? && end.Some?
  {
    if start.Some? && end.Some? then Fail(NotComparable) else Pass
  }

  /** `_check_times` as written: `Time` defines no comparison either. */
  function TimeCheckAsWritten(start: Option<Time>, end: Option<Time>): (r: Outcome)
    ensures r.Fail? <==> start.Some? && end.Some?
  {
    if start.Some? && end.Some? then Fail(NotComparable) else Pass
  }

  /** As written, a meeting from 1 January to 1 February, or from 9:00 to 10:00,
      cannot be built; with the calendar and clock orders it can. */
  lemma ChecksAsWrittenRejectOrderedPairs()
    ensures DateCheckAsWritten(Some(Date(2024, 1, 1)), Some(Date(2024, 2, 1))) == Fail(NotComparable)
    ensures DateCheck(Some(Date(2024, 1, 1)), Some(Date(2024, 2, 1))) == Pass
    ensures TimeCheckAsWritten(Some(Time(9, 0)), Some(Time(10, 0))) == Fail(NotComparable)
    ensures TimeCheck(Some(Time(9, 0)), Some(Time(10, 0))) == Pass
  {
  }

  /** With the order a strict total order, "start >= end" (the failing case) is
      exactly "the end is before or equal to the start". */
  lemma DateCheckFailsOnInvertedOrEqual(start: Date, end: Date)
    ensures DateCheck(Some(start), Some(end)).Fail? <==> start == end || DateBefore(end, start)
  {
    DateBeforeIsStrictTotalOrder(start, end, start);
  }

  lemma TimeCheckFailsOnInvertedOrEqual(start: Time, end: Time)
    ensures TimeCheck(Some(start), Some(end)).Fail? <==> start == end || TimeBefore(end, start)
  {
    TimeBeforeIsStrictTotalOrder(start, end, start);
  }

  /** The outcome of `Meeting(...)` on the given arguments: the setters run in the
      order start date, end date, weekdays, start time, end time, subterm, location,
      and the first that raises decides the error. */
  function Construction(f: Fields, weekdaysEmpty: bool): (r: Outcome)
    ensures r.Pass? <==> DateCheck(f.startDate, f.endDate).Pass? && !weekdaysEmpty
                         && TimeCheck(f.startTime, f.endTime).Pass?
  {
    if DateCheck(f.startDate, f.endDate).Fail? then Fail(DatesNotOrdered)
    else if weekdaysEmpty then Fail(EmptyWeekdays)
    else TimeCheck(f.startTime, f.endTime)
  }

  class Meeting {
    var startDate: Option<Date>
    var endDate: Option<Date>
    var weekdays: Option<Weekdays>
    var startTime: Option<Time>
    var endTime: Option<Time>
    var subterm: Option<ValidSubterm>
    var location: Option<Location>

    function State(): Fields
      reads this
    {
      Fields(startDate, endDate, weekdays, startTime, endTime, subterm, location)
    }

    /** What `_check_dates` demands of the current state. */
    predicate DatesOrdered()
      reads this
    {
      DateCheck(startDate, endDate).Pass?
    }

    /** What `_check_times` demands of the current state. */
    predicate TimesOrdered()
      reads this
    {
      TimeCheck(startTime, endTime).Pass?
    }

    /** The first half of `__init__`: every field `None`. */
    constructor Blank()
      ensures State() == NoFields
    {
      startDate, endDate, weekdays := None, None, None;
      startTime, endTime, subterm, location := None, None, None, None;
    }

    /** `Meeting(start_date=..., ...)`: a blank meeting, then the setter of every
        argument given, in declaration order; a setter that raises aborts construction. */
    static method New(
      startDate: Option<Date>, endDate: Option<Date>, weekdays: Option<Weekdays>,
      startTime: Option<Time>, endTime: Option<Time>, subterm: Option<ValidSubterm>,
      location: Option<Location>)
      returns (r: Result<Meeting>)
      ensures var f := Fields(startDate, endDate, weekdays, startTime, endTime, subterm, location);
              var outcome := Construction(f, weekdays.Some? && weekdays.value.HasNoDays());
              && (r.Ok? <==> outcome.Pass?)
              && (r.Ok? ==> fresh(r.value) && r.value.State() == f)
              && (r.Ok? ==> r.value.DatesOrdered() && r.value.TimesOrdered())
              && (!r.Ok? ==> r.error == outcome.error)
    {
      ghost var f := Fields(startDate, endDate, weekdays, startTime, endTime, subterm, location);
      ghost var expected := Construction(f, weekdays.Some? && weekdays.value.HasNoDays());
      var m := new Meeting.Blank();
      var outcome := m.InitDates(startDate, endDate);
      if outcome.Fail? {
        assert expected == outcome;
        return Err(outcome.error);
      }
      if weekdays.Some? {
        outcome := m.SetWeekdays(weekdays.value);
        if outcome.Fail? {
          assert expected == outcome;
          return Err(outcome.error);
        }
      }
      outcome := m.InitTimes(startTime, endTime);
      if outcome.Fail? {
        assert expected == outcome;
        return Err(outcome.error);
      }
      assert expected == Pass;
      if subterm.Some? {
        m.SetSubterm(subterm.value);
      }
      if location.Some? {
        m.SetLocation(location.value);
      }
      return Ok(m);
    }

    /** The date arguments of `__init__`, each passed to its setter when given. The
        start date is set while the end is still unset, so only the second check can
        fail, and both dates are stored by then. */
    method InitDates(start: Option<Date>, end: Option<Date>) returns (r: Outcome)
      requires startDate.None? && endDate.None?
      modifies this
      ensures State() == old(State()).(startDate := start, endDate := end)
      ensures r == DateCheck(start, end)
    {
      r := Pass;
      if start.Some? {
        r := SetStartDate(start.value);
      }
      if end.Some? {
        r := SetEndDate(end.value);
      }
    }

    /** The time arguments of `__init__`, in the same way. */
    method InitTimes(start: Option<Time>, end: Option<Time>) returns (r: Outcome)
      requires startTime.None? && endTime.None?
      modifies this
      ensures State() == old(State()).(startTime := start, endTime := end)
      ensures r == TimeCheck(start, end)
    {
      r := Pass;
      if start.Some? {
        r := SetStartTime(start.value);
      }
      if end.Some? {
        r := SetEndTime(end.value);
      }
    }

    /** `set_start_date`: stores the date, then runs `_check_dates`. */
    method SetStartDate(d: Date) returns (r: Outcome)
      modifies this
      ensures State() == old(State()).(startDate := Some(d))
      ensures r == DateCheck(Some(d), endDate)
      ensures r.Pass? <==> DatesOrdered()
    {
      startDate := Some(d);
      r := DateCheck(startDate, endDate);
    }

    /** `set_end_date`: stores the date, then runs `_check_dates`. */
    method SetEndDate(d: Date) returns (r: Outcome)
      modifies this
      ensures State() == old(State()).(endDate := Some(d))
      ensures r == DateCheck(startDate, Some(d))
      ensures r.Pass? <==> DatesOrdered()
    {
      endDate := Some(d);
      r := DateCheck(startDate, endDate);
    }

    /** `set_weekdays`: refuses a set without days, else stores it (the object
        itself, not a copy). The emptiness test is `is_empty` as documented. */
    method SetWeekdays(w: Weekdays) returns (r: Outcome)
      modifies this
      ensures r.Fail? <==> w.HasNoDays()
      ensures r.Fail? ==> r == Fail(EmptyWeekdays) && State() == old(State())
      ensures r.Pass? ==> State() == old(State()).(weekdays := Some(w))
    {
      if w.HasNoDays() {
        return Fail(EmptyWeekdays);
      }
      weekdays := Some(w);
      return Pass;
    }

    /** `set_start_time`: stores the time, then runs `_check_times`. */
    method SetStartTime(t: Time) returns (r: Outcome)
      modifies this
      ensures State() == old(State()).(startTime := Some(t))
      ensures r == TimeCheck(Some(t), endTime)
      ensures r.Pass? <==> TimesOrdered()
    {
      startTime := Some(t);
      r := TimeCheck(startTime, endTime);
    }

    /** `set_end_time`: stores the time, then runs `_check_times`. */
    method SetEndTime(t: Time) returns (r: Outcome)
      modifies this
      ensures State() == old(State()).(endTime := Some(t))
      ensures r == TimeCheck(startTime, Some(t))
      ensures r.Pass? <==> TimesOrdered()
    {
      endTime := Some(t);
      r := TimeCheck(startTime, endTime);
    }

    /** `set_subterm`: stores the subterm; nothing else changes and nothing is checked. */
    method SetSubterm(s: ValidSubterm)
      modifies this
      ensures State() == old(State()).(subterm := Some(s))
    {
      subterm := Some(s);
    }

    /** `set_location`: stores the location; nothing else changes and nothing is checked. */
    method SetLocation(l: Location)
      modifies this
      ensures State() == old(State()).(location := Some(l))
    {
      location := Some(l);
    }

    /** `set_dates` as written: `set_start_date`, then `set_end_date`. The first call
        checks the new start against the OLD end, so it can fail, storing the new
        start and leaving the old end, even when the new pair is in order. */
    method SetDates(start: Date, end: Date) returns (r: Outcome)
      modifies this
      ensures DateCheck(Some(start), old(endDate)).Fail? ==>
                r == Fail(DatesNotOrdered) && State() == old(State()).(startDate := Some(start))
      ensures DateCheck(Some(start), old(endDate)).Pass? ==>
                r == DateCheck(Some(start), Some(end))
                && State() == old(State()).(startDate := Some(start), endDate := Some(end))
    {
      r := SetStartDate(start);
      if r.Fail? {
        return;
      }
      r := SetEndDate(end);
    }

    /** `set_times` as written: `set_start_time`, then `set_end_time`, with the same
        intermediate check against the old end time. */
    method SetTimes(start: Time, end: Time) returns (r: Outcome)
      modifies this
      ensures TimeCheck(Some(start), old(endTime)).Fail? ==>
                r == Fail(TimesNotOrdered) && State() == old(State()).(startTime := Some(start))
      ensures TimeCheck(Some(start), old(endTime)).Pass? ==>
                r == TimeCheck(Some(start), Some(end))
                && State() == old(State()).(startTime := Some(start), endTime := Some(end))
    {
      r := SetStartTime(start);
      if r.Fail? {
        return;
      }
      r := SetEndTime(end);
    }

    /** `set_dates` as evidently intended: both dates stored, then one check of the
        new pair, whatever the meeting held before. */
    method SetDatesTogether(start: Date, end: Date) returns (r: Outcome)
      modifies this
      ensures State() == old(State()).(startDate := Some(start), endDate := Some(end))
      ensures r.Pass? <==> DateBefore(start, end)
      ensures r.Pass? <==> DatesOrdered()
    {
      startDate, endDate := Some(start), Some(end);
      r := DateCheck(startDate, endDate);
    }

    /** `set_times` as evidently intended. */
    method SetTimesTogether(start: Time, end: Time) returns (r: Outcome)
      modifies this
      ensures State() == old(State()).(startTime := Some(start), endTime := Some(end))
      ensures r.Pass? <==> TimeBefore(start, end)
      ensures r.Pass? <==> TimesOrdered()
    {
      startTime, endTime := Some(start), Some(end);
      r := TimeCheck(startTime, endTime);
    }
  }

  /** A meeting running 1 to 31 January, moved to 1 March to 30 April with
      `set_dates`: the new pair is in order, yet the call fails, because 1 March is
      checked against the old end, 31 January. The corrected setter accepts it. */
  method SetDatesRejectsOrderedPair() returns (asWritten: Outcome, corrected: Outcome)
    ensures DateBefore(Date(2024, 3, 1), Date(2024, 4, 30))
    ensures asWritten == Fail(DatesNotOrdered)
    ensures corrected == Pass
  {
    var m := new Meeting.Blank();
    var _ := m.SetDatesTogether(Date(2024, 1, 1), Date(2024, 1, 31));
    asWritten := m.SetDates(Date(2024, 3, 1), Date(2024, 4, 30));
    var n := new Meeting.Blank();
    var _ := n.SetDatesTogether(Date(2024, 1, 1), Date(2024, 1, 31));
    corrected := n.SetDatesTogether(Date(2024, 3, 1), Date(2024, 4, 30));
  }

  /** The same for times: 9:00 to 10:00 moved to 11:00 to 12:00 with `set_times`. */
  method SetTimesRejectsOrderedPair() returns (asWritten: Outcome, corrected: Outcome)
    ensures TimeBefore(Time(11, 0), Time(12, 0))
    ensures asWritten == Fail(TimesNotOrdered)
    ensures corrected == Pass
  {
    var m := new Meeting.Blank();
    var _ := m.SetTimesTogether(Time(9, 0), Time(10, 0));
    asWritten := m.SetTimes(Time(11, 0), Time(12, 0));
    var n := new Meeting.Blank();
    var _ := n.SetTimesTogether(Time(9, 0), Time(10, 0));
    corrected := n.SetTimesTogether(Time(11, 0), Time(12, 0));
  }
}
