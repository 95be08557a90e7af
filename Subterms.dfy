/** `Subterm`: which of the equal parts of an academic term a meeting runs in,
    as one boolean per part. Immutable, so a value here. */
module Subterms {
  import opened Wrappers
  import opened Text

  /** The arguments of `Subterm(*subterms)` are modelled by their truth values,
      which is all the constructor keeps of them (`tuple(map(bool, subterms))`). */
  datatype Subterm = Subterm(slots: seq<bool>) {
    /** What construction guarantees: at least one part, at least one part included. */
    predicate Valid() {
      |slots| >= 1 && true in slots
    }
  }

  /** The subterms a Python `Subterm` object can hold: every one was built by the
      constructor below, which refuses the others. */
  type ValidSubterm = s: Subterm | s.Valid() witness Subterm([true])

  /** `Subterm(*subterms)`: fails with no arguments, then with no truthy argument. */
  function NewSubterm(args: seq<bool>): (r: Result<ValidSubterm>)
    ensures r.Ok? <==> |args| >= 1 && exists k :: 0 <= k < |args| && args[k]
    ensures r.Ok? ==> r.value.slots == args && r.value.Valid()
    ensures |args| == 0 ==> r == Err(NoArguments)
    ensures |args| >= 1 && !r.Ok? ==> r == Err(NoTruthyArguments)
  {
    if |args| == 0 then Err(NoArguments)
    else if true !in args then Err(NoTruthyArguments)
    else Ok(Subterm(args))
  }

  // The named subterms of the library, each built by the constructor above.
  const FullTerm := Subterm([true])
  const FirstHalfTerm := Subterm([true, false])
  const SecondHalfTerm := Subterm([false, true])
  const FirstThirdTerm := Subterm([true, false, false])
  const MiddleThirdTerm := Subterm([false, true, false])
  const LastThirdTerm := Subterm([false, false, true])
  const FirstAndMiddleThirdTerms := Subterm([true, true, false])
  const MiddleAndLastThirdTerms := Subterm([false, true, true])

  /** Every named subterm is what the constructor returns for its arguments,
      so none of them raises when the library is imported. */
  lemma NamedSubtermsConstruct()
    ensures NewSubterm([true]) == Ok(FullTerm)
    ensures NewSubterm([true, false]) == Ok(FirstHalfTerm)
    ensures NewSubterm([false, true]) == Ok(SecondHalfTerm)
    ensures NewSubterm([true, false, false]) == Ok(FirstThirdTerm)
    ensures NewSubterm([false, true, false]) == Ok(MiddleThirdTerm)
    ensures NewSubterm([false, false, true]) == Ok(LastThirdTerm)
    ensures NewSubterm([true, true, false]) == Ok(FirstAndMiddleThirdTerms)
    ensures NewSubterm([false, true, true]) == Ok(MiddleAndLastThirdTerms)
  {
  }

  /** The positions at or after `from` whose slot is included, in ascending order:
      the `if included` filter of the comprehension in `Subterm.__str__`. */
  function IncludedFrom(slots: seq<bool>, from: nat): (ks: seq<nat>)
    requires from <= |slots|
    ensures forall i :: 0 <= i < |ks| ==> from <= ks[i] < |slots| && slots[ks[i]]
    ensures forall k {:trigger k in ks} :: from <= k < |slots| && slots[k] ==> k in ks
    ensures forall i, j :: 0 <= i < j < |ks| ==> ks[i] < ks[j]
    decreases |slots| - from
  {
    if from == |slots| then []
    else if slots[from] then [from] + IncludedFrom(slots, from + 1)
    else IncludedFrom(slots, from + 1)
  }

  function Included(s: Subterm): seq<nat> {
    IncludedFrom(s.slots, 0)
  }

  /** "k/n", as `"{}/{}".format(idx + 1, len(self.subterms))` prints it. */
  function Fraction(k: nat, n: nat): string {
    NatToString(k) + "/" + NatToString(n)
  }

  /** The fraction for each position of `ks`, numbered from 1, out of `n`. */
  function FractionList(ks: seq<nat>, n: nat): (fs: seq<string>)
    ensures |fs| == |ks|
    ensures forall i :: 0 <= i < |ks| ==> fs[i] == Fraction(ks[i] + 1, n)
  {
    if ks == [] then [] else [Fraction(ks[0] + 1, n)] + FractionList(ks[1..], n)
  }

  /** The list comprehension of `Subterm.__str__`: one fraction per included part. */
  function Fractions(s: Subterm): (fs: seq<string>)
    ensures |fs| == |Included(s)|
  {
    FractionList(Included(s), |s.slots|)
  }

  /** `Subterm.__str__`: the fractions joined by ", ". */
  function SubtermToString(s: Subterm): string {
    Join(Fractions(s), ", ")
  }

  /** Part k (counted from 0) is printed iff it is included. */
  lemma IncludedPartIsPrinted(s: Subterm, k: nat)
    requires k < |s.slots|
    ensures s.slots[k] <==> Fraction(k + 1, |s.slots|) in Fractions(s)
  {
    var ks, fs, n := Included(s), Fractions(s), |s.slots|;
    assert s.slots[k] ==> Fraction(k + 1, n) in fs by {
      if s.slots[k] {
        assert k in ks;
        var i :| 0 <= i < |ks| && ks[i] == k;
        assert fs[i] == Fraction(k + 1, n);
      }
    }
    assert Fraction(k + 1, n) in fs ==> s.slots[k] by {
      if Fraction(k + 1, n) in fs {
        var i :| 0 <= i < |fs| && fs[i] == Fraction(k + 1, n);
        FractionInjective(k + 1, n, ks[i] + 1, n);
      }
    }
  }

  /** The printed fractions are in ascending order of their part, hence all different. */
  lemma FractionsAscending(s: Subterm, i: nat, j: nat)
    requires i < j < |Fractions(s)|
    ensures Fractions(s)[i] == Fraction(Included(s)[i] + 1, |s.slots|)
    ensures Included(s)[i] < Included(s)[j]
    ensures Fractions(s)[i] != Fractions(s)[j]
  {
    var ks, fs, n := Included(s), Fractions(s), |s.slots|;
    if fs[i] == fs[j] {
      FractionInjective(ks[i] + 1, n, ks[j] + 1, n);
    }
  }

  /** A valid subterm never prints as the empty string. */
  lemma ValidSubtermPrints(s: Subterm)
    requires s.Valid()
    ensures |Fractions(s)| >= 1 && SubtermToString(s) != ""
  {
    var k :| 0 <= k < |s.slots| && s.slots[k];
    assert k in Included(s);
    var f := Fractions(s);
    assert |f[0]| >= 1;
    if |f| >= 2 {
      assert SubtermToString(s) == f[0] + ", " + Join(f[1..], ", ");
    }
  }

  // Reading a printed subterm back.

  /** Reads "k/n" back into (k, n). */
  function ParseFraction(p: string): Option<(nat, nat)> {
    var parts := Split(p, '/');
    if |parts| != 2 || parts[0] == [] || parts[1] == [] || !IsDigits(parts[0]) || !IsDigits(parts[1])
    then None
    else Some((ParseDigits(parts[0]), ParseDigits(parts[1])))
  }

  lemma ParseFractionOf(k: nat, n: nat)
    ensures ParseFraction(Fraction(k, n)) == Some((k, n))
  {
    var a, b := NatToString(k), NatToString(n);
    assert '/' !in a && '/' !in b by {
      DigitsHaveNo(a, '/');
      DigitsHaveNo(b, '/');
    }
    assert Fraction(k, n) == a + ['/'] + b;
    SplitAt(a, '/', b);
    assert Split(b, '/') == [b];
    ParseNatToString(k);
    ParseNatToString(n);
  }

  lemma FractionInjective(k: nat, n: nat, k': nat, n': nat)
    requires Fraction(k, n) == Fraction(k', n')
    ensures k == k' && n == n'
  {
    ParseFractionOf(k, n);
    ParseFractionOf(k', n');
  }

  /** Drops the leading space of every piece; fails on a piece without one. */
  function DropLeadingSpaces(pieces: seq<string>): Option<seq<string>> {
    if pieces == [] then Some([])
    else if |pieces[0]| == 0 || pieces[0][0] != ' ' then None
    else
      match DropLeadingSpaces(pieces[1..])
      case None => None
      case Some(rest) => Some([pieces[0][1..]] + rest)
  }

  function ParseFractions(ps: seq<string>): Option<seq<(nat, nat)>> {
    if ps == [] then Some([])
    else
      match ParseFraction(ps[0])
      case None => None
      case Some(f) =>
        match ParseFractions(ps[1..])
        case None => None
        case Some(rest) => Some([f] + rest)
  }

  function Numerators(fs: seq<(nat, nat)>): (ns: seq<nat>)
    ensures |ns| == |fs| && forall i :: 0 <= i < |fs| ==> ns[i] == fs[i].0
  {
    if fs == [] then [] else [fs[0].0] + Numerators(fs[1..])
  }

  /** Cuts printed text into its fractions: at the commas, then without the
      space that follows each comma. */
  function FractionTexts(text: string): Option<seq<string>> {
    var pieces := Split(text, ',');
    match DropLeadingSpaces(pieces[1..])
    case None => None
    case Some(rest) => Some([pieces[0]] + rest)
  }

  /** The subterm whose included parts are the numerators: every fraction must have
      the same denominator n >= 1 and a numerator in 1..n. */
  function SubtermOfFractions(fs: seq<(nat, nat)>): Option<Subterm> {
    if fs == [] then None
    else
      var n := fs[0].1;
      if n == 0 || exists i :: 0 <= i < |fs| && (fs[i].1 != n || fs[i].0 < 1 || n < fs[i].0) then None
      else Some(Subterm(SlotsOf(fs, n)))
  }

  /** Part i (from 0) is included iff some fraction has numerator i + 1. */
  function SlotsOf(fs: seq<(nat, nat)>, n: nat): (slots: seq<bool>)
    ensures |slots| == n
    ensures forall i :: 0 <= i < n ==> (slots[i] <==> i + 1 in Numerators(fs))
  {
    seq(n, i requires 0 <= i < n => i + 1 in Numerators(fs))
  }

  /** Reads the output of `Subterm.__str__` back into a subterm. */
  function ParseSubterm(text: string): Option<Subterm> {
    match FractionTexts(text)
    case None => None
    case Some(ps) =>
      match ParseFractions(ps)
      case None => None
      case Some(fs) => SubtermOfFractions(fs)
  }

  lemma {:induction false} DropLeadingSpacesOf(ps: seq<string>)
    ensures DropLeadingSpaces(PrefixAll(" ", ps)) == Some(ps)
  {
    if ps != [] {
      var qs := PrefixAll(" ", ps);
      assert qs[1..] == PrefixAll(" ", ps[1..]);
      assert qs[0] == " " + ps[0] && qs[0][0] == ' ' && qs[0][1..] == ps[0];
      DropLeadingSpacesOf(ps[1..]);
      assert [ps[0]] + ps[1..] == ps;
    }
  }

  function PairList(ks: seq<nat>, n: nat): (ps: seq<(nat, nat)>)
    ensures |ps| == |ks|
    ensures forall i :: 0 <= i < |ks| ==> ps[i] == (ks[i] + 1, n)
  {
    if ks == [] then [] else [(ks[0] + 1, n)] + PairList(ks[1..], n)
  }

  /** Parsing a list of fractions is parsing its first and then the rest. */
  lemma ParseFractionsCons(p: string, ps: seq<string>, f: (nat, nat), rest: seq<(nat, nat)>)
    requires ParseFraction(p) == Some(f) && ParseFractions(ps) == Some(rest)
    ensures ParseFractions([p] + ps) == Some([f] + rest)
  {
    assert ([p] + ps)[1..] == ps;
  }

  lemma {:induction false} ParseFractionsOf(ks: seq<nat>, n: nat)
    ensures ParseFractions(FractionList(ks, n)) == Some(PairList(ks, n))
  {
    if ks != [] {
      var p, ps := Fraction(ks[0] + 1, n), FractionList(ks[1..], n);
      assert ParseFraction(p) == Some((ks[0] + 1, n)) by {
        ParseFractionOf(ks[0] + 1, n);
      }
      ParseFractionsOf(ks[1..], n);
      ParseFractionsCons(p, ps, (ks[0] + 1, n), PairList(ks[1..], n));
      assert FractionList(ks, n) == [p] + ps;
    }
  }

  /** Cutting the printed text at its commas gives the fractions, each but the first
      behind the space of the separator. */
  lemma SplitSubtermString(s: Subterm)
    requires s.Valid()
    ensures |Fractions(s)| >= 1
    ensures Split(SubtermToString(s), ',') == [Fractions(s)[0]] + PrefixAll(" ", Fractions(s)[1..])
  {
    var fs := Fractions(s);
    ValidSubtermPrints(s);
    forall i | 0 <= i < |fs| ensures ',' !in fs[i] {
      FractionHasNoComma(Included(s)[i] + 1, |s.slots|);
    }
    assert SubtermToString(s) == "" + Join(fs, [','] + " ") by {
      assert [','] + " " == ", ";
      assert "" + Join(fs, ", ") == Join(fs, ", ");
    }
    SplitJoin("", fs, ',', " ");
    assert Split(SubtermToString(s), ',') == ["" + fs[0]] + PrefixAll(" ", fs[1..]);
    assert "" + fs[0] == fs[0];
  }

  lemma FractionHasNoComma(k: nat, n: nat)
    ensures ',' !in Fraction(k, n)
  {
    DigitsHaveNo(NatToString(k), ',');
    DigitsHaveNo(NatToString(n), ',');
  }

  lemma FractionTextsOf(s: Subterm)
    requires s.Valid()
    ensures FractionTexts(SubtermToString(s)) == Some(Fractions(s))
  {
    var fs := Fractions(s);
    ValidSubtermPrints(s);
    SplitSubtermString(s);
    var pieces := Split(SubtermToString(s), ',');
    assert pieces[1..] == PrefixAll(" ", fs[1..]);
    DropLeadingSpacesOf(fs[1..]);
    assert [pieces[0]] + fs[1..] == fs;
  }

  lemma NumeratorsOfPairList(ks: seq<nat>, n: nat, k: nat)
    ensures k + 1 in Numerators(PairList(ks, n)) <==> k in ks
  {
    var nums := Numerators(PairList(ks, n));
    if k in ks {
      var j :| 0 <= j < |ks| && ks[j] == k;
      assert nums[j] == k + 1;
    }
  }

  /** The parts named by the numerators of the printed fractions are the included ones. */
  lemma SlotsOfIncluded(s: Subterm)
    ensures SlotsOf(PairList(Included(s), |s.slots|), |s.slots|) == s.slots
  {
    var ks, n := Included(s), |s.slots|;
    var slots := SlotsOf(PairList(ks, n), n);
    forall i | 0 <= i < n ensures slots[i] == s.slots[i] {
      NumeratorsOfPairList(ks, n, i);
    }
  }

  lemma SubtermOfFractionsOf(s: Subterm)
    requires s.Valid()
    ensures SubtermOfFractions(PairList(Included(s), |s.slots|)) == Some(s)
  {
    var ks, n := Included(s), |s.slots|;
    var parsed := PairList(ks, n);
    assert parsed != [] by {
      var k :| 0 <= k < n && s.slots[k];
      assert k in ks;
    }
    assert parsed[0].1 == n;
    assert !exists i :: 0 <= i < |parsed| && (parsed[i].1 != n || parsed[i].0 < 1 || n < parsed[i].0);
    SlotsOfIncluded(s);
  }

  /** Printing a subterm and reading it back gives the same subterm:
      `Subterm.__str__` loses nothing, so no two subterms print alike. */
  lemma SubtermStringRoundTrip(s: Subterm)
    requires s.Valid()
    ensures ParseSubterm(SubtermToString(s)) == Some(s)
  {
    FractionTextsOf(s);
    ParseFractionsOf(Included(s), |s.slots|);
    SubtermOfFractionsOf(s);
  }

  /** The examples the library's documentation gives: the whole term prints as
      "1/1", the second half as "2/2", the first two thirds as "1/3, 2/3". */
  lemma NamedSubtermStrings()
    ensures SubtermToString(FullTerm) == "1/1"
    ensures SubtermToString(SecondHalfTerm) == "2/2"
    ensures SubtermToString(FirstAndMiddleThirdTerms) == "1/3, 2/3"
  {
    FullTermString();
    SecondHalfTermString();
    FirstAndMiddleThirdTermsString();
  }

  lemma FullTermString()
    ensures SubtermToString(FullTerm) == "1/1"
  {
    assert Included(FullTerm) == [0];
  }

  lemma SecondHalfTermString()
    ensures SubtermToString(SecondHalfTerm) == "2/2"
  {
    assert Included(SecondHalfTerm) == [1];
  }

  lemma FirstAndMiddleThirdTermsString()
    ensures SubtermToString(FirstAndMiddleThirdTerms) == "1/3, 2/3"
  {
    FirstAndMiddleThirdFractions();
    assert Join(["1/3", "2/3"], ", ") == "1/3" + ", " + Join(["2/3"], ", ");
  }

  lemma FirstAndMiddleThirdFractions()
    ensures Fractions(FirstAndMiddleThirdTerms) == ["1/3", "2/3"]
  {
    assert Included(FirstAndMiddleThirdTerms) == [0, 1];
    assert Fraction(1, 3) == "1/3" && Fraction(2, 3) == "2/3";
  }
}
