/** `Weekdays`: a set of days of the week, each written as one letter of
    "MTWRFSU" (Monday to Sunday, R for Thursday, U for Sunday). The set is
    mutated in place by `add_day`, so the entity is a class. */
module Days {
  import opened Wrappers
  import opened Text

  /** `Weekdays.CHARS`: the day letters, in calendar order. */
  const CHARS := "MTWRFSU"

  /** The letters of CHARS as a set. */
  const DayLetters: set<char> := {'M', 'T', 'W', 'R', 'F', 'S', 'U'}

  predicate Distinct(s: string) {
    forall i, j :: 0 <= i < j < |s| ==> s[i] != s[j]
  }

  lemma CharsAreTheDayLetters()
    ensures Distinct(CHARS)
    ensures forall c :: c in CHARS <==> c in DayLetters
  {
  }

  // ---------------------------------------------------------------------------
  // Checking one day.

  /** The check of `add_day` as written: the upper-cased argument must occur in
      CHARS, and Python's `in` between two strings is a substring test. */
  function AcceptedAsWritten(day: string): bool {
    IsSubstring(Upper(day), CHARS)
  }

  /** The substring test lets through arguments that are not one day letter:
      the empty string, and two consecutive day letters such as "mt". */
  lemma AcceptedAsWrittenLetsNonDaysThrough()
    ensures AcceptedAsWritten("") && AcceptedAsWritten("mt")
    ensures |Upper("")| != 1 && |Upper("mt")| != 1
  {
    assert OccursAt(Upper(""), CHARS, 0);
    assert Upper("mt") == "MT";
    assert OccursAt("MT", CHARS, 0);
  }

  /** The check of `add_day` as its documentation states it: one character whose
      upper case is a day letter. Gives the letter to store. */
  function CheckDay(day: string): (r: Result<char>)
    ensures r.Ok? <==> |day| == 1 && UpperChar(day[0]) in DayLetters
    ensures r.Ok? ==> r.value == UpperChar(day[0]) && r.value in CHARS
    ensures !r.Ok? ==> r == Err(InvalidDay(Upper(day)))
  {
    var u := Upper(day);
    if |u| == 1 && u[0] in CHARS then Ok(u[0]) else Err(InvalidDay(u))
  }

  /** On a single character, which is all the constructor ever passes, the
      intended check and the check as written agree. */
  lemma CheckDayAgreesOnOneChar(c: char)
    ensures CheckDay([c]).Ok? <==> AcceptedAsWritten([c])
  {
    var u := Upper([c]);
    if u[0] in CHARS {
      var i := IndexOf(CHARS, u[0]);
      assert CHARS[i..i + 1] == [u[0]] == u;
      assert OccursAt(u, CHARS, i);
    }
    if AcceptedAsWritten([c]) {
      var i :| OccursAt(u, CHARS, i);
      assert u[0] == CHARS[i..i + 1][0];
    }
  }

  /** `add_day` as written: past the check, `days` (meant to be `self.days`) is
      a name nothing defines, so the call raises NameError. */
  function AddDayAsWritten(days: set<char>, day: string): (r: Result<set<char>>)
    ensures !r.Ok?
    ensures AcceptedAsWritten(day) <==> r == Err(UndefinedName("days"))
  {
    if !AcceptedAsWritten(day) then Err(InvalidDay(Upper(day))) else Err(UndefinedName("days"))
  }

  /** As written, not even a valid day letter can be added. */
  lemma AddDayAsWrittenRejectsMonday(days: set<char>)
    ensures AddDayAsWritten(days, "M") == Err(UndefinedName("days"))
  {
    CheckDayAgreesOnOneChar('M');
  }

  // ---------------------------------------------------------------------------
  // Building a set of days from an iterable, as the constructor does.

  /** The outcome of adding the items one by one to `days`: the first invalid item's
      error, or the set with every item's day letter added. */
  function AddAll(days: set<char>, items: seq<string>): Result<set<char>>
    decreases |items|
  {
    if items == [] then Ok(days)
    else
      match CheckDay(items[0])
      case Err(e) => Err(e)
      case Ok(c) => AddAll(days + {c}, items[1..])
  }

  /** AddAll succeeds exactly when every item is a day, and then adds exactly their letters. */
  lemma {:induction false} AddAllAddsTheLetters(days: set<char>, items: seq<string>)
    ensures AddAll(days, items).Ok? <==> forall i :: 0 <= i < |items| ==> CheckDay(items[i]).Ok?
    ensures AddAll(days, items).Ok? ==>
              forall c :: c in AddAll(days, items).value <==>
                c in days || exists i :: 0 <= i < |items| && CheckDay(items[i]) == Ok(c)
    decreases |items|
  {
    if items != [] {
      AddAllAddsTheLetters(days + (if CheckDay(items[0]).Ok? then {CheckDay(items[0]).value} else {}), items[1..]);
      if CheckDay(items[0]).Ok? {
        var c0 := CheckDay(items[0]).value;
        if AddAll(days, items).Ok? {
          forall c | c in AddAll(days, items).value
            ensures c in days || exists i :: 0 <= i < |items| && CheckDay(items[i]) == Ok(c)
          {
            if c !in days && c != c0 {
              var i :| 0 <= i < |items[1..]| && CheckDay(items[1..][i]) == Ok(c);
              assert CheckDay(items[i + 1]) == Ok(c);
            }
          }
          forall c, i | 0 <= i < |items| && CheckDay(items[i]) == Ok(c)
            ensures c in AddAll(days, items).value
          {
            if i > 0 {
              assert CheckDay(items[1..][i - 1]) == Ok(c);
            }
          }
        }
        forall i | 0 <= i < |items[1..]| ensures items[1..][i] == items[i + 1] {}
      }
    }
  }

  /** Adding days again that are already there changes nothing: giving the
      constructor the same days twice gives the same set as giving them once. */
  lemma {:induction false} AddAllTwice(days: set<char>, items: seq<string>)
    requires AddAll(days, items).Ok?
    ensures AddAll(AddAll(days, items).value, items) == AddAll(days, items)
  {
    AddAllAddsTheLetters(days, items);
    var once := AddAll(days, items).value;
    AddAllAddsTheLetters(once, items);
    var twice := AddAll(once, items).value;
    assert twice == once;
  }

  // ---------------------------------------------------------------------------
  // Printing: `Weekdays.__str__`.

  /** The characters of `cs` that are in `days`, in the order of `cs`. */
  function Keep(cs: string, days: set<char>): (r: string)
    ensures forall c :: c in r <==> c in cs && c in days
    ensures Distinct(cs) ==> Distinct(r)
  {
    if cs == [] then []
    else
      var rest := Keep(cs[1..], days);
      if cs[0] in days then
        assert Distinct(cs) ==> cs[0] !in cs[1..];
        [cs[0]] + rest
      else rest
  }

  /** `r` can be obtained from `cs` by deleting characters. */
  predicate IsSubsequence(r: string, cs: string) {
    if r == [] then true
    else if cs == [] then false
    else if r[0] == cs[0] then IsSubsequence(r[1..], cs[1..])
    else IsSubsequence(r, cs[1..])
  }

  lemma {:induction false} KeepIsSubsequence(cs: string, days: set<char>)
    ensures IsSubsequence(Keep(cs, days), cs)
  {
    if cs != [] {
      KeepIsSubsequence(cs[1..], days);
      var rest := Keep(cs[1..], days);
      if cs[0] !in days && rest != [] {
        assert rest[0] in cs[1..];
        assert rest[0] != cs[0];
      }
    }
  }

  /** A string without repeated characters is as long as its set of characters. */
  lemma {:induction false} DistinctLength(r: string)
    requires Distinct(r)
    ensures |set c | c in r| == |r|
  {
    if r != [] {
      DistinctLength(r[1..]);
      assert (set c | c in r) == {r[0]} + (set c | c in r[1..]);
      assert r[0] !in r[1..];
    }
  }

  /** `Weekdays.__str__`: the days sorted by their position in CHARS. */
  function DaysString(days: set<char>): string {
    Keep(CHARS, days)
  }

  /** The printed days are each member once, in calendar order: a subsequence of
      CHARS with exactly the members as its characters and their number as its length. */
  lemma DaysStringListsEachDayOnce(days: set<char>)
    requires days <= DayLetters
    ensures IsSubsequence(DaysString(days), CHARS)
    ensures forall c :: c in DaysString(days) <==> c in days
    ensures Distinct(DaysString(days))
    ensures |DaysString(days)| == |days|
  {
    var r := DaysString(days);
    CharsAreTheDayLetters();
    KeepIsSubsequence(CHARS, days);
    DistinctLength(r);
    assert (set c | c in r) == days;
  }

  /** Keeping a set of letters of `cs` keeps no more than what `r` holds when `r`
      already is a subsequence of `cs` with those letters. */
  lemma {:induction false} SubsequenceIsKeep(r: string, cs: string)
    requires Distinct(cs) && IsSubsequence(r, cs)
    ensures r == Keep(cs, set c | c in r)
  {
    var letters := set c | c in r;
    if cs == [] {
    } else if r != [] && r[0] == cs[0] {
      SubsequenceIsKeep(r[1..], cs[1..]);
      SubsequenceLetters(r[1..], cs[1..]);
      assert cs[0] !in cs[1..];
      KeepSameOnCommon(cs[1..], (set c | c in r[1..]), letters);
      assert r == [r[0]] + r[1..];
    } else {
      SubsequenceIsKeep(r, cs[1..]);
      SubsequenceLetters(r, cs[1..]);
      assert cs[0] !in cs[1..];
    }
  }

  lemma {:induction false} SubsequenceLetters(r: string, cs: string)
    requires IsSubsequence(r, cs)
    ensures forall c :: c in r ==> c in cs
  {
    if r != [] && cs != [] {
      if r[0] == cs[0] {
        SubsequenceLetters(r[1..], cs[1..]);
        assert forall c :: c in r ==> c == r[0] || c in r[1..];
      } else {
        SubsequenceLetters(r, cs[1..]);
      }
    }
  }

  /** Keep only looks at the letters of `cs`. */
  lemma {:induction false} KeepSameOnCommon(cs: string, a: set<char>, b: set<char>)
    requires forall c :: c in cs ==> (c in a <==> c in b)
    ensures Keep(cs, a) == Keep(cs, b)
  {
    if cs != [] {
      KeepSameOnCommon(cs[1..], a, b);
    }
  }

  /** Calendar order is the only order `__str__` may print: any listing of the days
      that follows CHARS is the printed string. */
  lemma DaysStringIsTheOnlyCalendarListing(days: set<char>, r: string)
    requires IsSubsequence(r, CHARS)
    requires forall c :: c in r <==> c in days
    ensures r == DaysString(days)
  {
    CharsAreTheDayLetters();
    SubsequenceIsKeep(r, CHARS);
    KeepSameOnCommon(CHARS, (set c | c in r), days);
  }

  // ---------------------------------------------------------------------------
  // The class.

  class Weekdays {
    /** `self.days`: the day letters, upper case. */
    var days: set<char>

    ghost predicate Valid()
      reads this
    {
      days <= DayLetters
    }

    /** `Weekdays()` with no argument: the empty set. */
    constructor Empty()
      ensures Valid() && days == {}
    {
      days := {};
    }

    /** `Weekdays(items)`: adds the items one by one, failing on the first that is not
      a day. A string argument is the sequence of its one-character strings. */
    static method New(items: seq<string>) returns (r: Result<Weekdays>)
      ensures r.Ok? <==> AddAll({}, items).Ok?
      ensures r.Ok? ==> fresh(r.value) && r.value.Valid() && r.value.days == AddAll({}, items).value
      ensures !r.Ok? ==> r.error == AddAll({}, items).error
    {
      var w := new Weekdays.Empty();
      var i := 0;
      while i < |items|
        invariant 0 <= i <= |items|
        invariant w.Valid() && fresh(w)
        invariant AddAll({}, items) == AddAll(w.days, items[i..])
      {
        assert items[i..][1..] == items[i + 1..];
        var outcome, _ := w.AddDay(items[i]);
        if outcome.Fail? {
          return Err(outcome.error);
        }
        i := i + 1;
      }
      return Ok(w);
    }

    /** `add_day`, with `self.days` as intended: checks the day, warns (returns
        `duplicate`) when it is already present, and adds it. */
    method AddDay(day: string) returns (r: Outcome, duplicate: bool)
      requires Valid()
      modifies this
      ensures Valid()
      ensures r.Pass? <==> CheckDay(day).Ok?
      ensures r.Fail? ==> r.error == CheckDay(day).error && days == old(days) && !duplicate
      ensures r.Pass? ==> days == old(days) + {CheckDay(day).value}
      ensures r.Pass? ==> (duplicate <==> CheckDay(day).value in old(days))
      ensures duplicate ==> days == old(days)
    {
      match CheckDay(day)
      case Err(e) =>
        return Fail(e), false;
      case Ok(c) =>
        duplicate := c in days;
        days := days + {c};
        return Pass, duplicate;
    }

    /** `is_empty` as written: `bool(self.days)`, true when there ARE days. */
    function IsEmpty(): bool
      reads this
    {
      |days| != 0
    }

    /** `is_empty` as its documentation states it: true when there are no days. */
    function HasNoDays(): bool
      reads this
    {
      days == {}
    }

    /** `__str__`. */
    function ToString(): (s: string)
      reads this
      requires Valid()
      ensures IsSubsequence(s, CHARS) && |s| == |days|
      ensures forall c :: c in s <==> c in days
    {
      DaysStringListsEachDayOnce(days);
      DaysString(days)
    }
  }

  /** `is_empty` answers the opposite of its documentation: it holds exactly when
      the set is not empty. */
  lemma IsEmptyIsInverted(w: Weekdays)
    ensures w.IsEmpty() <==> !w.HasNoDays()
    ensures w.IsEmpty() <==> |w.days| > 0
  {
  }
}
