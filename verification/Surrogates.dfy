/** The UTF-16 sanitiser of src/agent/assistant.ts. A JavaScript string is a sequence of code units. */
module Surrogates {

  type Unit = u: int | 0 <= u < 0x1_0000

  predicate High(u: Unit) { 0xD800 <= u <= 0xDBFF }

  predicate Low(u: Unit) { 0xDC00 <= u <= 0xDFFF }

  /** The upper six bits tell: 110110 for a leading surrogate, 110111 for a trailing one. */
  lemma SurrogatesByTheirBits(u: Unit)
    ensures High(u) <==> u / 1024 == 54
    ensures Low(u) <==> u / 1024 == 55
  {
  }

  const REPLACEMENT: Unit := 0xFFFD

  /** The regular expression matches at position `i`: one unit, judged by its two neighbours alone. */
  predicate Matches(s: seq<Unit>, i: nat)
    requires i < |s|
  {
    || (High(s[i]) && !(i + 1 < |s| && Low(s[i + 1])))
    || (Low(s[i]) && !(i > 0 && High(s[i - 1])))
  }

  /** stripLoneSurrogates: every match replaced, in one global pass. */
  function Strip(s: seq<Unit>): (r: seq<Unit>)
    ensures |r| == |s|
  {
    seq(|s|, i requires 0 <= i < |s| => if Matches(s, i) then REPLACEMENT else s[i])
  }

  /** Well-formed UTF-16 (section 3.9 of The Unicode Standard, D91): units outside the surrogate range, and pairs. */
  predicate WellFormed(s: seq<Unit>) {
    s == []
    || (!High(s[0]) && !Low(s[0]) && WellFormed(s[1..]))
    || (|s| >= 2 && High(s[0]) && Low(s[1]) && WellFormed(s[2..]))
  }

  /** A decoder reading left to right, one character at a time, that substitutes what it cannot decode. */
  function Decode(s: seq<Unit>): (r: seq<Unit>)
    ensures |r| == |s| && WellFormed(r)
  {
    if s == [] then []
    else if |s| >= 2 && High(s[0]) && Low(s[1]) then
      var r := [s[0], s[1]] + Decode(s[2..]);
      assert r[2..] == Decode(s[2..]);
      r
    else
      var r := [if High(s[0]) || Low(s[0]) then REPLACEMENT else s[0]] + Decode(s[1..]);
      assert r[1..] == Decode(s[1..]);
      r
  }

  /** The local rewrite is that decoder: looking at the neighbours in the original text is enough. */
  lemma {:induction false} StripIsDecode(s: seq<Unit>)
    ensures Strip(s) == Decode(s)
  {
    if s != [] {
      var k := if |s| >= 2 && High(s[0]) && Low(s[1]) then 2 else 1;
      StripIsDecode(s[k..]);
      forall i | k <= i < |s|
        ensures Matches(s, i) == Matches(s[k..], i - k)
      {
      }
      assert Strip(s)[k..] == Strip(s[k..]);
      assert Decode(s) == Strip(s)[..k] + Decode(s[k..]);
    }
  }

  lemma SameParts(a: seq<Unit>, b: seq<Unit>, c: seq<Unit>, d: seq<Unit>)
    requires |a| == |c|
    ensures a + b == c + d <==> a == c && b == d
  {
    if a + b == c + d {
      assert (a + b)[..|a|] == a && (c + d)[..|a|] == c && (a + b)[|a|..] == b && (c + d)[|a|..] == d;
    }
  }

  lemma {:induction false} DecodeFixesWellFormed(s: seq<Unit>)
    ensures Decode(s) == s <==> WellFormed(s)
  {
    if s != [] {
      if |s| >= 2 && High(s[0]) && Low(s[1]) {
        DecodeFixesWellFormed(s[2..]);
        SameParts([s[0], s[1]], Decode(s[2..]), [s[0], s[1]], s[2..]);
        assert s == [s[0], s[1]] + s[2..];
      } else {
        var first: Unit := if High(s[0]) || Low(s[0]) then REPLACEMENT else s[0];
        DecodeFixesWellFormed(s[1..]);
        SameParts([first], Decode(s[1..]), [s[0]], s[1..]);
        assert s == [s[0]] + s[1..] && Decode(s) == [first] + Decode(s[1..]);
      }
    }
  }

  /** The sanitiser's promise: always well-formed, well-formed text untouched and nothing else, and stable. */
  lemma StripSanitizes(s: seq<Unit>)
    ensures WellFormed(Strip(s))
    ensures Strip(s) == s <==> WellFormed(s)
    ensures Strip(Strip(s)) == Strip(s)
  {
    StripIsDecode(s);
    StripIsDecode(Strip(s));
    DecodeFixesWellFormed(s);
    DecodeFixesWellFormed(Strip(s));
  }
}
