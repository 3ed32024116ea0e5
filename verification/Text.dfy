/** String operations shared by the modules; letters are folded in ASCII only. */
module Text {

  predicate Contains(s: string, sub: string) {
    sub <= s || (s != [] && Contains(s[1..], sub))
  }

  function LowerChar(c: char): char {
    if 'A' <= c <= 'Z' then (c as int + 32) as char else c
  }

  function Lower(s: string): (r: string)
    ensures |r| == |s|
  {
    seq(|s|, i requires 0 <= i < |s| => LowerChar(s[i]))
  }

  /** Two characters that differ in letter case at most, in ASCII. */
  predicate SameLetter(a: char, b: char) {
    a == b || ('A' <= a <= 'Z' && b as int == a as int + 32) || ('A' <= b <= 'Z' && a as int == b as int + 32)
  }

  lemma SameLetterIsLower(a: char, b: char)
    ensures SameLetter(a, b) <==> LowerChar(a) == LowerChar(b)
  {
  }

  lemma {:induction false} ContainsSomewhere(s: string, sub: string)
    ensures Contains(s, sub) <==> exists i :: 0 <= i <= |s| && sub <= s[i..]
  {
    if sub <= s {
      assert s[0..] == s;
    } else if s != "" {
      ContainsSomewhere(s[1..], sub);
      if i :| 0 <= i <= |s[1..]| && sub <= s[1..][i..] { assert s[i + 1..] == s[1..][i..]; }
      if i :| 0 <= i <= |s| && sub <= s[i..] {
        assert i > 0 && s[1..][i - 1..] == s[i..];
      }
    }
  }

  /** Array.prototype.join */
  function Join(parts: seq<string>, separator: string): string {
    if parts == [] then ""
    else if |parts| == 1 then parts[0]
    else parts[0] + separator + Join(parts[1..], separator)
  }

  /** The position of the first `c`, or |s| when there is none. */
  function IndexOf(s: string, c: char): (i: nat)
    ensures i <= |s| && c !in s[..i] && (i < |s| ==> s[i] == c)
  {
    if s == [] || s[0] == c then 0
    else
      assert s[..IndexOf(s[1..], c) + 1] == [s[0]] + s[1..][..IndexOf(s[1..], c)];
      IndexOf(s[1..], c) + 1
  }

  /** The first occurrence of every element, in order: the elements of a JavaScript Set. */
  function Distinct(s: seq<string>): seq<string> {
    if s == [] then []
    else
      var r, x := Distinct(s[..|s| - 1]), s[|s| - 1];
      if x in r then r else r + [x]
  }

  lemma {:induction false} DistinctKeepsElements(s: seq<string>)
    ensures forall x :: x in Distinct(s) <==> x in s
    ensures forall i, j :: 0 <= i < j < |Distinct(s)| ==> Distinct(s)[i] != Distinct(s)[j]
  {
    if s != [] {
      DistinctKeepsElements(s[..|s| - 1]);
      assert s == s[..|s| - 1] + [s[|s| - 1]];
    }
  }

  // ---- White space ----

  predicate IsSpace(c: char) {
    c in {' ', '\t', '\n', '\r', '\U{000B}', '\U{000C}', '\U{00A0}', '\U{FEFF}', '\U{1680}',
          '\U{2028}', '\U{2029}', '\U{202F}', '\U{205F}', '\U{3000}'}
    || '\U{2000}' <= c <= '\U{200A}'
  }

  /** Of ASCII: tab, line feed, vertical tab, form feed, carriage return and space. */
  lemma AsciiSpaces(c: char)
    requires c as int < 128
    ensures IsSpace(c) <==> 9 <= c as int <= 13 || c as int == 32
  {
  }

  predicate AllSpace(s: string, from: nat, to: nat)
    requires from <= to <= |s|
  {
    forall k :: from <= k < to ==> IsSpace(s[k])
  }

  function SkipSpace(s: string, i: nat): (r: nat)
    requires i <= |s|
    ensures i <= r <= |s| && (r < |s| ==> !IsSpace(s[r]))
    decreases |s| - i
  {
    if i < |s| && IsSpace(s[i]) then SkipSpace(s, i + 1) else i
  }

  function SkipSpaceBack(s: string, from: nat, i: nat): (r: nat)
    requires from <= i <= |s|
    ensures from <= r <= i && (from < r ==> !IsSpace(s[r - 1]))
    decreases i
  {
    if from < i && IsSpace(s[i - 1]) then SkipSpaceBack(s, from, i - 1) else i
  }

  predicate Trimmed(s: string) { s == "" || (!IsSpace(s[0]) && !IsSpace(s[|s| - 1])) }

  /** String.prototype.trim */
  function Trim(s: string): (r: string)
    ensures |r| <= |s| && Trimmed(r)
    ensures Trimmed(s) ==> r == s
  {
    var from := SkipSpace(s, 0);
    s[from..SkipSpaceBack(s, from, |s|)]
  }

  predicate Blank(s: string) { Trim(s) == "" }

  lemma {:induction false} SkippedIsSpace(s: string, i: nat)
    requires i <= |s|
    ensures AllSpace(s, i, SkipSpace(s, i))
    decreases |s| - i
  {
    if i < |s| && IsSpace(s[i]) { SkippedIsSpace(s, i + 1); }
  }

  lemma {:induction false} SkippedBackIsSpace(s: string, from: nat, i: nat)
    requires from <= i <= |s|
    ensures AllSpace(s, SkipSpaceBack(s, from, i), i)
    decreases i
  {
    if from < i && IsSpace(s[i - 1]) { SkippedBackIsSpace(s, from, i - 1); }
  }

  /** Trim cuts white space off both ends and nothing else. */
  lemma TrimIsExact(s: string) returns (from: nat, to: nat)
    ensures from <= to <= |s| && Trim(s) == s[from..to] && AllSpace(s, 0, from) && AllSpace(s, to, |s|)
  {
    from := SkipSpace(s, 0);
    to := SkipSpaceBack(s, from, |s|);
    SkippedIsSpace(s, 0);
    SkippedBackIsSpace(s, from, |s|);
  }

  lemma {:induction false} BackStopsAtStart(s: string, i: nat)
    requires 0 < i <= |s| && !IsSpace(s[0])
    ensures SkipSpaceBack(s, 0, i) > 0
    decreases i
  {
    if IsSpace(s[i - 1]) { BackStopsAtStart(s, i - 1); }
  }

  lemma TrimKeepsStart(s: string)
    requires s != "" && !IsSpace(s[0])
    ensures Trim(s) != "" && Trim(s)[0] == s[0]
  {
    BackStopsAtStart(s, |s|);
  }

  // ---- Splitting ----

  /** String.prototype.split at every separator */
  function Pieces(s: string, separator: char -> bool): (r: seq<string>)
    ensures r != []
  {
    if s == "" then [""]
    else
      var rest := Pieces(s[1..], separator);
      if separator(s[0]) then [""] + rest else [[s[0]] + rest[0]] + rest[1..]
  }

  function Flat(pieces: seq<string>): string {
    if pieces == [] then "" else pieces[0] + Flat(pieces[1..])
  }

  function Without(s: string, separator: char -> bool): string {
    if s == "" then "" else (if separator(s[0]) then "" else [s[0]]) + Without(s[1..], separator)
  }

  /** The pieces hold no separator and together hold everything else, and every separator ends one. */
  lemma {:induction false} PiecesAreComplete(s: string, separator: char -> bool)
    ensures var p := Pieces(s, separator);
            && Flat(p) == Without(s, separator)
            && |p| + |Without(s, separator)| == |s| + 1
            && forall i, k :: 0 <= i < |p| && 0 <= k < |p[i]| ==> !separator(p[i][k])
  {
    if s != "" {
      PiecesAreComplete(s[1..], separator);
      var p, rest := Pieces(s, separator), Pieces(s[1..], separator);
      if separator(s[0]) {
        assert p[1..] == rest;
        assert "" + Flat(rest) == Flat(rest);
      } else {
        assert p[1..] == rest[1..];
        assert [s[0]] + rest[0] + Flat(rest[1..]) == [s[0]] + (rest[0] + Flat(rest[1..]));
      }
    }
  }

  lemma {:induction false} OnePiece(s: string, separator: char -> bool)
    requires forall i :: 0 <= i < |s| ==> !separator(s[i])
    ensures Pieces(s, separator) == [s]
  {
    if s != "" {
      OnePiece(s[1..], separator);
      assert [s[0]] + s[1..] == s;
    }
  }

  lemma {:induction false} FirstPiece(s: string, c: char, rest: string, separator: char -> bool)
    requires separator(c) && forall i :: 0 <= i < |s| ==> !separator(s[i])
    ensures Pieces(s + [c] + rest, separator) == [s] + Pieces(rest, separator)
  {
    if s == "" {
      assert "" + [c] + rest == [c] + rest && ([c] + rest)[1..] == rest;
    } else {
      assert (s + [c] + rest)[1..] == s[1..] + [c] + rest;
      FirstPiece(s[1..], c, rest, separator);
      var tail := Pieces(rest, separator);
      assert ([s[1..]] + tail)[1..] == tail && [s[0]] + s[1..] == s;
    }
  }

  /** Splitting undoes joining, for parts without the separator. */
  lemma {:induction false} PiecesOfJoin(parts: seq<string>, c: char, separator: char -> bool)
    requires parts != [] && separator(c)
    requires forall i, k :: 0 <= i < |parts| && 0 <= k < |parts[i]| ==> !separator(parts[i][k])
    ensures Pieces(Join(parts, [c]), separator) == parts
  {
    if |parts| == 1 {
      OnePiece(parts[0], separator);
    } else {
      FirstPiece(parts[0], c, Join(parts[1..], [c]), separator);
      PiecesOfJoin(parts[1..], c, separator);
    }
  }
}
