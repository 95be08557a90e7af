/** `ScraperResult`: what a scraper run returns, a term and the courses keyed by
    their code. The dictionary is updated in place, so the entity is a class. */
module Results {
  import opened Wrappers

  /** The library never defines `Term`; its values are taken as they come. */
  type Term(==)

  /** Everything of a course except its code: `Course` is still a stub in the
      library, so these are left abstract. */
  type CourseDetails(==)

  /** A course, as far as a result is concerned: its code (`get_code()`) and the rest. */
  datatype Course = Course(code: string, details: CourseDetails)

  /** `self.courses[code] = course`: last write wins. */
  function Insert(courses: map<string, Course>, c: Course): (m: map<string, Course>)
    ensures m.Keys == courses.Keys + {c.code}
    ensures m[c.code] == c
    ensures forall k :: k in courses && k != c.code ==> m[k] == courses[k]
  {
    courses[c.code := c]
  }

  /** The dictionary the constructor builds: the courses inserted in list order. */
  function FromList(cs: seq<Course>): map<string, Course> {
    if cs == [] then map[] else Insert(FromList(cs[..|cs| - 1]), cs[|cs| - 1])
  }

  /** One more course of the list is one more insertion. */
  lemma FromListPrefix(cs: seq<Course>, i: nat)
    requires i < |cs|
    ensures FromList(cs[..i + 1]) == Insert(FromList(cs[..i]), cs[i])
  {
    assert cs[..i + 1][..i] == cs[..i];
  }

  /** Reference definition: the last course of the list with that code, if any. */
  function LastWithCode(cs: seq<Course>, code: string): (r: Option<Course>)
    ensures r.Some? <==> exists i :: 0 <= i < |cs| && cs[i].code == code
    ensures r.Some? ==> r.value.code == code && r.value in cs
    ensures r.Some? ==> exists i :: 0 <= i < |cs| && cs[i] == r.value
                                   && forall j :: i < j < |cs| ==> cs[j].code != code
  {
    if cs == [] then None
    else if cs[|cs| - 1].code == code then Some(cs[|cs| - 1])
    else
      var r := LastWithCode(cs[..|cs| - 1], code);
      assert forall i :: 0 <= i < |cs| - 1 ==> cs[..|cs| - 1][i] == cs[i];
      r
  }

  /** The constructor keeps, for every code, the last course given with it, and
      has a key for exactly the codes given. */
  lemma {:induction false} FromListKeepsLast(cs: seq<Course>, code: string)
    ensures code in FromList(cs) <==> LastWithCode(cs, code).Some?
    ensures code in FromList(cs) ==> FromList(cs)[code] == LastWithCode(cs, code).value
  {
    if cs != [] {
      FromListKeepsLast(cs[..|cs| - 1], code);
    }
  }

  /** One course per code: there are never more entries than courses given,
      and exactly as many when no two courses share a code. */
  lemma {:induction false} FromListSize(cs: seq<Course>)
    ensures |FromList(cs)| <= |cs|
    ensures (forall i, j :: 0 <= i < j < |cs| ==> cs[i].code != cs[j].code) ==> |FromList(cs)| == |cs|
  {
    if cs != [] {
      var init := cs[..|cs| - 1];
      FromListSize(init);
      assert |FromList(cs)| == |FromList(init)| + (if cs[|cs| - 1].code in FromList(init) then 0 else 1);
      if forall i, j :: 0 <= i < j < |cs| ==> cs[i].code != cs[j].code {
        FromListKeepsLast(init, cs[|cs| - 1].code);
        assert forall i :: 0 <= i < |init| ==> init[i].code != cs[|cs| - 1].code;
      }
    }
  }

  class ScraperResult {
    var term: Option<Term>
    var courses: map<string, Course>

    /** `ScraperResult(term, courses)`: the term if given, then `add_course` for
        each course in order. No course is given when `courses` is `None`, the same as an empty list. */
    constructor (term: Option<Term>, cs: seq<Course>)
      ensures this.term == term
      ensures courses == FromList(cs)
    {
      this.term := None;
      courses := map[];
      new;
      if term.Some? {
        SetTerm(term.value);
      }
      var i := 0;
      while i < |cs|
        invariant 0 <= i <= |cs|
        invariant this.term == term
        invariant courses == FromList(cs[..i])
      {
        FromListPrefix(cs, i);
        var _ := AddCourse(cs[i]);
        i := i + 1;
      }
      assert cs[..i] == cs;
    }

    /** `add_course`: stores the course under its code, replacing any course with
        that code; `duplicate` is the warning logged when one was replaced. */
    method AddCourse(c: Course) returns (duplicate: bool)
      modifies this
      ensures courses == Insert(old(courses), c)
      ensures duplicate <==> c.code in old(courses)
      ensures term == old(term)
    {
      duplicate := c.code in courses;
      courses := courses[c.code := c];
    }

    /** `set_term`: stores the term; the courses are untouched. */
    method SetTerm(t: Term)
      modifies this
      ensures term == Some(t)
      ensures courses == old(courses)
    {
      term := Some(t);
    }
  }
}
