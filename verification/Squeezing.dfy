/** Runs of unwanted characters squeezed into one filler: what `replace(/[...]+/g, filler)` makes of a text. */
module Squeezing {
  import opened Text

  type Gap = char -> bool

  /** `inRun` says that a filler already stands for the run being read. */
  function Squeezed(s: string, gap: Gap, filler: string, inRun: bool): string {
    if s == "" then ""
    else if !gap(s[0]) then [s[0]] + Squeezed(s[1..], gap, filler, false)
    else if inRun then Squeezed(s[1..], gap, filler, true)
    else filler + Squeezed(s[1..], gap, filler, true)
  }

  function NonEmpty(parts: seq<string>): seq<string> {
    if parts == [] then [] else (if parts[0] == "" then [] else [parts[0]]) + NonEmpty(parts[1..])
  }

  /** The runs of wanted characters. */
  function WordsOf(s: string, gap: Gap): seq<string> { NonEmpty(Pieces(s, gap)) }

  predicate Leads(s: string, gap: Gap) { s != "" && gap(s[0]) }

  predicate Trails(s: string, gap: Gap) { s != "" && gap(s[|s| - 1]) }

  function Fill(b: bool, filler: string): string { if b then filler else "" }

  /** The words with fillers between them, and at either end where the text has unwanted characters. */
  function Spaced(s: string, gap: Gap, filler: string, inRun: bool): string {
    if WordsOf(s, gap) == [] then Fill(s != "" && !inRun, filler)
    else
      Fill(Leads(s, gap) && !inRun, filler) + (Join(WordsOf(s, gap), filler) + Fill(Trails(s, gap), filler))
  }

  predicate AllGap(s: string, gap: Gap) { s == "" || (Leads(s, gap) && Trails(s, gap)) }

  lemma NoWords(gap: Gap)
    ensures WordsOf("", gap) == []
  {
    assert Pieces("", gap) == [""] && [""][1..] == [];
  }

  lemma FirstPieceIsEmpty(s: string, gap: Gap)
    ensures Pieces(s, gap)[0] == "" <==> s == "" || Leads(s, gap)
  {
  }

  /** A wanted character starts a word, or joins the first word of the rest. */
  lemma WordsCons(c: char, s: string, gap: Gap)
    ensures gap(c) ==> WordsOf([c] + s, gap) == WordsOf(s, gap)
    ensures !gap(c) && (s == "" || Leads(s, gap)) ==> WordsOf([c] + s, gap) == [[c]] + WordsOf(s, gap)
    ensures !gap(c) && s != "" && !Leads(s, gap) ==>
              WordsOf(s, gap) != []
              && WordsOf([c] + s, gap) == [[c] + WordsOf(s, gap)[0]] + WordsOf(s, gap)[1..]
  {
    var rest, all := Pieces(s, gap), Pieces([c] + s, gap);
    assert ([c] + s)[1..] == s;
    FirstPieceIsEmpty(s, gap);
    if gap(c) {
      assert all == [""] + rest && all[1..] == rest;
    } else {
      assert all == [[c] + rest[0]] + rest[1..] && all[1..] == rest[1..];
      if s == "" || Leads(s, gap) {
        assert NonEmpty(rest) == [] + NonEmpty(rest[1..]) == NonEmpty(rest[1..]);
        assert [c] + rest[0] == [c] && all == [[c]] + rest[1..];
        assert NonEmpty(all) == [[c]] + NonEmpty(all[1..]);
      } else {
        assert NonEmpty(rest) == [rest[0]] + NonEmpty(rest[1..]);
      }
    }
  }

  lemma JoinMore(first: string, rest: seq<string>, filler: string, more: string)
    requires more == if rest == [] then "" else filler + Join(rest, filler)
    ensures Join([first] + rest, filler) == first + more
  {
    assert ([first] + rest)[1..] == rest;
    if rest != [] { Regroup3(first, filler, Join(rest, filler)); }
  }

  lemma Regroup3(a: string, b: string, c: string)
    ensures a + (b + c) == a + b + c
  {
  }

  lemma Regroup4(a: string, b: string, c: string, d: string)
    ensures a + (b + c + d) == a + b + c + d && a + (b + (c + d)) == a + (b + c) + d
  {
  }

  /** A character before a gap is a word of its own. */
  lemma CharBeforeGap(c: char, words: seq<string>, filler: string, tail: string)
    requires words != []
    ensures [c] + (filler + (Join(words, filler) + tail)) == Join([[c]] + words, filler) + tail
  {
    var j := Join(words, filler);
    JoinMore([c], words, filler, filler + j);
    Regroup4([c], filler, j, tail);
  }

  /** A character before a word joins it. */
  lemma CharBeforeWord(c: char, words: seq<string>, filler: string, tail: string)
    requires words != []
    ensures [c] + (Join(words, filler) + tail) == Join([[c] + words[0]] + words[1..], filler) + tail
  {
    var first, rest := words[0], words[1..];
    var more := if rest == [] then "" else filler + Join(rest, filler);
    JoinMore([c] + first, rest, filler, more);
    JoinMore(first, rest, filler, more);
    assert words == [first] + rest;
    Regroup4([c], first, more, tail);
  }

  /** Squeezing a text leaves its words, with a filler between any two. */
  lemma {:induction false} SqueezedIsSpaced(s: string, gap: Gap, filler: string, inRun: bool)
    ensures Squeezed(s, gap, filler, inRun) == Spaced(s, gap, filler, inRun)
    ensures WordsOf(s, gap) == [] ==> AllGap(s, gap)
  {
    if s == "" {
      NoWords(gap);
    } else {
      var c, rest := s[0], s[1..];
      assert s == [c] + rest;
      SqueezedIsSpaced(rest, gap, filler, false);
      SqueezedIsSpaced(rest, gap, filler, true);
      if gap(c) { GapCase(c, rest, gap, filler, inRun); } else { CharCase(c, rest, gap, filler, inRun); }
    }
  }

  lemma GapCase(c: char, rest: string, gap: Gap, filler: string, inRun: bool)
    requires gap(c) && (WordsOf(rest, gap) == [] ==> AllGap(rest, gap))
    requires Squeezed(rest, gap, filler, true) == Spaced(rest, gap, filler, true)
    ensures var s := [c] + rest;
            && Squeezed(s, gap, filler, inRun) == Spaced(s, gap, filler, inRun)
            && (WordsOf(s, gap) == [] ==> AllGap(s, gap))
  {
    var s := [c] + rest;
    WordsCons(c, rest, gap);
    assert s[1..] == rest && Leads(s, gap);
    if WordsOf(rest, gap) == [] {
      assert Trails(s, gap);
    } else {
      NoWords(gap);
      assert Trails(s, gap) == Trails(rest, gap);
      assert Spaced(rest, gap, filler, true) == Join(WordsOf(rest, gap), filler) + Fill(Trails(rest, gap), filler);
    }
  }

  lemma CharCase(c: char, rest: string, gap: Gap, filler: string, inRun: bool)
    requires !gap(c) && (WordsOf(rest, gap) == [] ==> AllGap(rest, gap))
    requires Squeezed(rest, gap, filler, false) == Spaced(rest, gap, filler, false)
    ensures var s := [c] + rest;
            Squeezed(s, gap, filler, inRun) == Spaced(s, gap, filler, inRun) && WordsOf(s, gap) != []
  {
    var s, words, tail := [c] + rest, WordsOf(rest, gap), Fill(Trails(rest, gap), filler);
    WordsCons(c, rest, gap);
    assert s[1..] == rest && !Leads(s, gap) && tail == Fill(Trails(s, gap), filler);
    assert Squeezed(s, gap, filler, inRun) == [c] + Squeezed(rest, gap, filler, false);
    assert Spaced(s, gap, filler, inRun) == Join(WordsOf(s, gap), filler) + tail;
    if words == [] {
      assert WordsOf(s, gap) == [[c]] && Join(WordsOf(s, gap), filler) == [c];
    } else if Leads(rest, gap) {
      CharBeforeGap(c, words, filler, tail);
    } else {
      NoWords(gap);
      CharBeforeWord(c, words, filler, tail);
      assert Spaced(rest, gap, filler, false) == Join(words, filler) + tail;
    }
  }

  /** Words are not empty and hold no unwanted character. */
  lemma {:induction false} WordsAreWords(parts: seq<string>, gap: Gap, i: nat)
    requires forall p, k :: 0 <= p < |parts| && 0 <= k < |parts[p]| ==> !gap(parts[p][k])
    requires i < |NonEmpty(parts)|
    ensures var w := NonEmpty(parts)[i]; w != "" && forall k :: 0 <= k < |w| ==> !gap(w[k])
  {
    if parts[0] == "" {
      WordsAreWords(parts[1..], gap, i);
    } else if i > 0 {
      WordsAreWords(parts[1..], gap, i - 1);
    }
  }

  lemma {:induction false} JoinEnds(words: seq<string>, filler: string)
    requires words != [] && forall i :: 0 <= i < |words| ==> words[i] != ""
    ensures var j := Join(words, filler);
            j != "" && j[0] == words[0][0] && j[|j| - 1] == words[|words| - 1][|words[|words| - 1]| - 1]
  {
    if |words| > 1 {
      JoinEnds(words[1..], filler);
      assert words == [words[0]] + words[1..];
      JoinMore(words[0], words[1..], filler, filler + Join(words[1..], filler));
    }
  }

  /** The joined words of a text start and end with wanted characters. */
  lemma JoinedWordsAreTrim(s: string, gap: Gap, filler: string)
    requires WordsOf(s, gap) != []
    ensures var j := Join(WordsOf(s, gap), filler); j != "" && !gap(j[0]) && !gap(j[|j| - 1])
  {
    var words := WordsOf(s, gap);
    PiecesAreComplete(s, gap);
    forall i | 0 <= i < |words|
      ensures words[i] != "" && forall k :: 0 <= k < |words[i]| ==> !gap(words[i][k])
    {
      WordsAreWords(Pieces(s, gap), gap, i);
    }
    JoinEnds(words, filler);
  }
}
