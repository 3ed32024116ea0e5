/**
 What the cron migrator reads in a prompt: the legacy preamble and the first sentence
 (src/agent/cron-migrator.ts). Strings are counted in characters.
 */
module CronText {
  import opened Text
  import opened Wrappers

  // ---- The legacy preamble ----

  predicate WordAt(s: string, i: nat, word: string) {
    i + |word| <= |s| && forall k :: 0 <= k < |word| ==> LowerChar(s[i + k]) == LowerChar(word[k])
  }

  const TOOL_RESTRICTIONS := "TOOL RESTRICTIONS"
  const MANDATORY := "MANDATORY"
  const DASHES := {'\U{2014}', '-'}

  /** The end of the heading "TOOL RESTRICTIONS - MANDATORY" at the start of the text. */
  function HeadingEnd(s: string): (r: Option<nat>)
    ensures r.Some? ==> 17 < r.value <= |s| && WordAt(s, 0, TOOL_RESTRICTIONS)
  {
    if !WordAt(s, 0, TOOL_RESTRICTIONS) then None
    else
      var dash := SkipSpace(s, 17);
      if dash == |s| || s[dash] !in DASHES then None
      else
        var word := SkipSpace(s, dash + 1);
        if WordAt(s, word, MANDATORY) then Some(word + 9) else None
  }

  /** The heading's dash stands at d and MANDATORY at w, with only white space around the dash. */
  predicate Heading(s: string, d: nat, w: nat) {
    && 17 <= d < w <= |s|
    && WordAt(s, 0, TOOL_RESTRICTIONS) && AllSpace(s, 17, d) && s[d] in DASHES && AllSpace(s, d + 1, w)
      && WordAt(s, w, MANDATORY)
  }

  lemma {:induction false} SkipsExactly(s: string, i: nat, k: nat)
    requires i <= k <= |s| && AllSpace(s, i, k) && (k < |s| ==> !IsSpace(s[k]))
    ensures SkipSpace(s, i) == k
    decreases k - i
  {
    if i < k { SkipsExactly(s, i + 1, k); }
  }

  lemma HeadingIsFound(s: string, d: nat, w: nat)
    requires Heading(s, d, w)
    ensures HeadingEnd(s) == Some(w + 9)
  {
    SkipsExactly(s, 17, d);
    assert LowerChar(s[w + 0]) == LowerChar(MANDATORY[0]);
    assert s[w] == 'm' || s[w] == 'M';
    SkipsExactly(s, d + 1, w);
  }

  lemma FoundIsHeading(s: string) returns (d: nat, w: nat)
    requires HeadingEnd(s).Some?
    ensures Heading(s, d, w) && HeadingEnd(s) == Some(w + 9)
  {
    d := SkipSpace(s, 17);
    w := SkipSpace(s, d + 1);
    SkippedIsSpace(s, 17);
    SkippedIsSpace(s, d + 1);
  }

  predicate BlankLineAt(s: string, i: nat) {
    BlankLineWidth(s, i) > 0
  }

  /** Two line feeds, or two carriage-return line-feed pairs. */
  function BlankLineWidth(s: string, i: nat): (r: nat)
    ensures r > 0 ==> i + r <= |s|
  {
    if i + 2 <= |s| && s[i] == '\n' && s[i + 1] == '\n' then 2
    else if i + 4 <= |s| && s[i] == '\r' && s[i + 1] == '\n' && s[i + 2] == '\r' && s[i + 3] == '\n' then 4
    else 0
  }

  /** The end of the first blank line from i on. */
  function BlankLineEnd(s: string, i: nat): (r: Option<nat>)
    requires i <= |s|
    ensures r.Some? ==> i < r.value <= |s|
    decreases |s| - i
  {
    if BlankLineAt(s, i) then Some(i + BlankLineWidth(s, i))
    else if i == |s| then None
    else BlankLineEnd(s, i + 1)
  }

  lemma {:induction false} BlankLineIsFirst(s: string, i: nat, k: nat)
    requires i <= k <= |s| && BlankLineAt(s, k) && forall j :: i <= j < k ==> !BlankLineAt(s, j)
    ensures BlankLineEnd(s, i) == Some(k + BlankLineWidth(s, k))
    decreases k - i
  {
    if i < k { BlankLineIsFirst(s, i + 1, k); }
  }

  function PreambleEnd(prompt: string): (r: Option<nat>)
    ensures r.Some? ==> 17 < r.value <= |prompt| && WordAt(prompt, 0, TOOL_RESTRICTIONS)
  {
    var h := HeadingEnd(prompt);
    if h.None? then None else BlankLineEnd(prompt, h.value)
  }

  predicate HasPreamble(prompt: string) { PreambleEnd(prompt).Some? }

  datatype Stripped = Stripped(allowedTools: seq<string>, cleanedPrompt: string)

  /** The "ALLOWED tools" line of a preamble, as a list of tool names. */
  type AllowedLine = string -> seq<string>

  type Stripper = string -> Option<Stripped>

  function StripToolRestrictionsPreamble(prompt: string, allowed: AllowedLine): Option<Stripped> {
    var end := PreambleEnd(prompt);
    if end.None? then None else Some(Stripped(allowed(prompt[..end.value]), Trim(prompt[end.value..])))
  }

  function Stripping(allowed: AllowedLine): Stripper { prompt => StripToolRestrictionsPreamble(prompt, allowed) }

  const PREAMBLE: string := "TOOL RESTRICTIONS - MANDATORY\n\n"

  /** The shortest preamble, in front of anything. */
  lemma PreambleEnds(rest: string)
    ensures |PREAMBLE| == 31 && PreambleEnd(PREAMBLE + rest) == Some(31)
  {
    var s := PREAMBLE + rest;
    assert forall k :: 0 <= k < 31 ==> s[k] == PREAMBLE[k];
    assert forall k :: 0 <= k < 17 ==> s[0 + k] == TOOL_RESTRICTIONS[k];
    assert forall k :: 0 <= k < 9 ==> s[20 + k] == MANDATORY[k];
    assert Heading(s, 18, 20);
    HeadingIsFound(s, 18, 20);
    assert s[29] == '\n' && s[30] == '\n';
    BlankLineIsFirst(s, 29, 29);
  }

  predicate StartsWithT(s: string) { s != "" && LowerChar(s[0]) == 't' }

  /** All that the migration relies on: a trimmed, strictly shorter remainder of a prompt that starts with a T. */
  ghost predicate Strips(strip: Stripper) {
    forall p: string :: strip(p).Some? ==>
      StartsWithT(p) && |strip(p).value.cleanedPrompt| < |p| && Trimmed(strip(p).value.cleanedPrompt)
  }

  lemma PreambleIsStripped(allowed: AllowedLine)
    ensures Strips(Stripping(allowed))
    ensures forall p :: Stripping(allowed)(p).Some? <==> HasPreamble(p)
  {
    forall p: string | HasPreamble(p)
      ensures StartsWithT(p) && |Stripping(allowed)(p).value.cleanedPrompt| < |p|
        && Trimmed(Stripping(allowed)(p).value.cleanedPrompt)
    {
      StrippedPromptFacts(p);
    }
  }

  lemma StrippedPromptFacts(p: string)
    requires HasPreamble(p)
    ensures StartsWithT(p) && |Trim(p[PreambleEnd(p).value..])| < |p| && Trimmed(Trim(p[PreambleEnd(p).value..]))
  {
    assert LowerChar(p[0 + 0]) == LowerChar(TOOL_RESTRICTIONS[0]);
    var _, _ := TrimIsExact(p[PreambleEnd(p).value..]);
  }

  lemma TIsNotSpace(s: string)
    requires StartsWithT(s)
    ensures !IsSpace(s[0])
  {
    assert s[0] == 't' || s[0] == 'T';
  }

  // ---- The first sentence ----

  /** `replace(/\s+/g, ' ')`; `inRun` says that a space already stands for the run being read. */
  function Collapse(s: string, inRun: bool): string {
    if s == "" then ""
    else if !IsSpace(s[0]) then [s[0]] + Collapse(s[1..], false)
    else if inRun then Collapse(s[1..], true)
    else " " + Collapse(s[1..], true)
  }

  /** A stop before white space or the end of the text. */
  predicate StopAt(s: string, i: nat)
    requires i < |s|
  {
    s[i] in {'.', '!', '?'} && (i + 1 == |s| || IsSpace(s[i + 1]))
  }

  /** The end of the first sentence from i on. */
  function SentenceEnd(s: string, i: nat): (r: Option<nat>)
    requires i <= |s|
    ensures r.Some? ==> i < r.value <= |s| && StopAt(s, r.value - 1)
    decreases |s| - i
  {
    if i == |s| then None else if StopAt(s, i) then Some(i + 1) else SentenceEnd(s, i + 1)
  }

  lemma {:induction false} SentenceIsFirst(s: string, i: nat, k: nat)
    requires i <= k < |s| && StopAt(s, k)
    ensures SentenceEnd(s, i).Some? && SentenceEnd(s, i).value <= k + 1
    decreases |s| - i
  {
    if !StopAt(s, i) { SentenceIsFirst(s, i + 1, k); }
  }

  function Opening(prompt: string): string {
    var end := SentenceEnd(prompt, 0);
    if end.Some? then prompt[..end.value] else Take(prompt, 200)
  }

  function Summary(prompt: string): string { Take(Collapse(Trim(Opening(prompt)), false), 240) }

  lemma CollapseKeepsStart(s: string)
    requires s != "" && !IsSpace(s[0])
    ensures Collapse(s, false) != "" && Collapse(s, false)[0] == s[0]
  {
  }

  lemma SummaryOfText(s: string)
    requires s != "" && !IsSpace(s[0])
    ensures Summary(s) != ""
  {
    assert Opening(s) != "" && Opening(s)[0] == s[0];
    TrimKeepsStart(Opening(s));
    CollapseKeepsStart(Trim(Opening(s)));
  }

  lemma SummaryIsNotBlank(s: string)
    ensures Summary(s) == "" || !Blank(Summary(s))
  {
    var _, _ := TrimIsExact(Opening(s));
    var t := Trim(Opening(s));
    if t != "" {
      CollapseKeepsStart(t);
      TrimKeepsStart(Summary(s));
    }
  }
}
