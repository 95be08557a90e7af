/** The few Python string built-ins the library relies on: `"{}".format(n)` of a
    non-negative int, `str.join`, `str.split`, `str.upper` and `in` on strings,
    each with the inverse or reference definition that pins down what it means. */
module Text {

  predicate IsDigit(c: char) {
    '0' <= c <= '9'
  }

  predicate IsDigits(s: string) {
    forall i :: 0 <= i < |s| ==> IsDigit(s[i])
  }

  function DigitChar(d: nat): (c: char)
    requires d < 10
    ensures IsDigit(c) && c as int - '0' as int == d
  {
    (d + '0' as int) as char
  }

  function DigitValue(c: char): (d: nat)
    requires IsDigit(c)
    ensures d < 10 && DigitChar(d) == c
  {
    c as int - '0' as int
  }

  /** `"{}".format(n)` for a non-negative integer: its decimal digits, no padding. */
  function NatToString(n: nat): (s: string)
    ensures |s| >= 1 && IsDigits(s)
    ensures s[0] == '0' ==> n == 0 && s == "0"
  {
    if n < 10 then [DigitChar(n)] else NatToString(n / 10) + [DigitChar(n % 10)]
  }

  /** The value of a string of decimal digits (`int(s)`), the inverse of NatToString. */
  function ParseDigits(s: string): (n: nat)
    requires IsDigits(s)
  {
    if s == [] then 0 else ParseDigits(s[..|s| - 1]) * 10 + DigitValue(s[|s| - 1])
  }

  lemma {:induction false} ParseNatToString(n: nat)
    ensures ParseDigits(NatToString(n)) == n
  {
    var s := NatToString(n);
    if n >= 10 {
      ParseNatToString(n / 10);
      assert s[..|s| - 1] == NatToString(n / 10);
    }
  }

  /** A string of digits holds no other character, such as a separator. */
  lemma DigitsHaveNo(s: string, c: char)
    requires IsDigits(s) && !IsDigit(c)
    ensures c !in s
  {
  }

  /** `sep.join(parts)`. */
  function Join(parts: seq<string>, sep: string): string {
    if |parts| == 0 then ""
    else if |parts| == 1 then parts[0]
    else parts[0] + sep + Join(parts[1..], sep)
  }

  /** The position of the first `c` in `s`, or `|s|` when there is none. */
  function IndexOf(s: string, c: char): (i: nat)
    ensures i <= |s|
    ensures i < |s| <==> c in s
    ensures i < |s| ==> s[i] == c
    ensures c !in s[..i]
  {
    if s == [] then 0
    else if s[0] == c then 0
    else
      var k := IndexOf(s[1..], c);
      assert s[1..][..k] == s[1..k + 1];
      assert s[..k + 1] == [s[0]] + s[1..k + 1];
      k + 1
  }

  /** `s.split(c)` for a one-character separator: the pieces between the
      occurrences of `c`, so one more piece than there are occurrences. */
  function Split(s: string, c: char): (pieces: seq<string>)
    ensures |pieces| >= 1
    decreases |s|
  {
    if c !in s then [s]
    else
      var i := IndexOf(s, c);
      [s[..i]] + Split(s[i + 1..], c)
  }

  lemma {:induction false} IndexOfAfter(a: string, c: char, b: string)
    requires c !in a
    ensures IndexOf(a + [c] + b, c) == |a|
  {
    if a != [] {
      assert (a + [c] + b)[1..] == a[1..] + [c] + b;
      IndexOfAfter(a[1..], c, b);
    }
  }

  lemma SplitAt(a: string, c: char, b: string)
    requires c !in a
    ensures Split(a + [c] + b, c) == [a] + Split(b, c)
  {
    var s := a + [c] + b;
    IndexOfAfter(a, c, b);
    assert s[..|a|] == a;
    assert s[|a| + 1..] == b;
  }

  /** Every string of `parts` with `t` in front of it. */
  function PrefixAll(t: string, parts: seq<string>): (r: seq<string>)
    ensures |r| == |parts|
    ensures forall i :: 0 <= i < |parts| ==> r[i] == t + parts[i]
  {
    if parts == [] then [] else [t + parts[0]] + PrefixAll(t, parts[1..])
  }

  /** Splitting a join on the first character of its separator gives back the parts,
      each after the first still carrying the rest of the separator. */
  lemma {:induction false} SplitJoin(pre: string, parts: seq<string>, c: char, tail: string)
    requires |parts| >= 1
    requires c !in pre && c !in tail
    requires forall i :: 0 <= i < |parts| ==> c !in parts[i]
    ensures Split(pre + Join(parts, [c] + tail), c)
         == [pre + parts[0]] + PrefixAll(tail, parts[1..])
    decreases |parts|
  {
    var sep := [c] + tail;
    if |parts| == 1 {
      assert c !in pre + parts[0];
    } else {
      var rest := tail + Join(parts[1..], sep);
      assert pre + Join(parts, sep) == (pre + parts[0]) + [c] + rest;
      assert c !in pre + parts[0];
      SplitAt(pre + parts[0], c, rest);
      SplitJoin(tail, parts[1..], c, tail);
      assert Join(parts[1..], sep) == Join(parts[1..], [c] + tail);
    }
  }

  /** `str.upper()` on one character, for the characters whose upper case is a
      single character of "MTWRFSU" or of the ASCII letters: a-z, the dotless
      i (U+0131, upper case I) and the long s (U+017F, upper case S). */
  function UpperChar(c: char): char {
    if 'a' <= c <= 'z' then (c as int - 32) as char
    else if c == '\U{0131}' then 'I'
    else if c == '\U{017F}' then 'S'
    else c
  }

  function Upper(s: string): (u: string)
    ensures |u| == |s|
    ensures forall i :: 0 <= i < |s| ==> u[i] == UpperChar(s[i])
  {
    seq(|s|, i requires 0 <= i < |s| => UpperChar(s[i]))
  }

  /** `a` occurs in `b` starting at position `i`. */
  predicate OccursAt(a: string, b: string, i: int) {
    0 <= i <= |b| - |a| && b[i..i + |a|] == a
  }

  /** Python's `a in b` on two strings: `a` occurs as a contiguous piece of `b`. */
  function IsSubstring(a: string, b: string): (r: bool)
    ensures r <==> exists i :: OccursAt(a, b, i)
    decreases |b|
  {
    if |a| <= |b| && b[..|a|] == a then
      assert OccursAt(a, b, 0);
      true
    else if |b| == 0 then
      false
    else
      var r := IsSubstring(a, b[1..]);
      if r then
        var i :| OccursAt(a, b[1..], i);
        assert OccursAt(a, b, i + 1) by {
          assert b[i + 1..i + 1 + |a|] == b[1..][i..i + |a|];
        }
        r
      else
        assert forall i :: OccursAt(a, b, i) ==> OccursAt(a, b[1..], i - 1) by {
          forall i | OccursAt(a, b, i) ensures OccursAt(a, b[1..], i - 1) {
            assert b[i..i + |a|] == b[1..][i - 1..i - 1 + |a|];
          }
        }
        r
  }
}
