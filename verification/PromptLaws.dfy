/** The migrator's readings of texts, spelled out: preambles, first sentences, and which skill a name fits. */
module PromptLaws {
  import opened CronText
  import opened SkillMatch
  import opened Squeezing
  import opened Text
  import opened Wrappers

  // ---- Preambles ----

  /** A blank line of either kind. */
  lemma BlankLinesAre(s: string, i: nat)
    requires i <= |s|
    ensures BlankLineWidth(s, i) == if "\n\n" <= s[i..] then 2 else if "\r\n\r\n" <= s[i..] then 4 else 0
  {
  }

  /** Letters in any case, the rest as it is. */
  lemma WordAtExactly(s: string, i: nat, word: string)
    ensures WordAt(s, i, word) <==>
            i + |word| <= |s| && forall k :: 0 <= k < |word| ==> SameLetter(s[i + k], word[k])
  {
    forall k | 0 <= k < |word| && i + k < |s|
      ensures LowerChar(s[i + k]) == LowerChar(word[k]) <==> SameLetter(s[i + k], word[k])
    {
      SameLetterIsLower(s[i + k], word[k]);
    }
  }

  /** Two line feeds, or two carriage returns with line feeds, start at k. */
  predicate EmptyLineAt(p: string, k: nat) { k <= |p| && ("\n\n" <= p[k..] || "\r\n\r\n" <= p[k..]) }

  function EmptyLineEnd(p: string, k: nat): (end: nat)
    requires EmptyLineAt(p, k)
    ensures end <= |p|
  {
    k + if "\n\n" <= p[k..] then 2 else 4
  }

  lemma EmptyLineIsBlank(p: string, k: nat)
    requires k <= |p|
    ensures EmptyLineAt(p, k) <==> BlankLineAt(p, k)
    ensures EmptyLineAt(p, k) ==> EmptyLineEnd(p, k) == k + BlankLineWidth(p, k)
  {
    BlankLinesAre(p, k);
  }

  /** A prompt with a heading is parted at the first blank line behind it, and the rest trimmed. */
  lemma PreambleIsParted(p: string, allowed: AllowedLine, d: nat, w: nat, k: nat)
    requires Heading(p, d, w) && w + 9 <= k && EmptyLineAt(p, k) && forall j :: w + 9 <= j < k ==> !EmptyLineAt(p, j)
    ensures var end := EmptyLineEnd(p, k);
            StripToolRestrictionsPreamble(p, allowed) == Some(Stripped(allowed(p[..end]), Trim(p[end..])))
  {
    HeadingIsFound(p, d, w);
    FirstEmptyLine(p, w + 9, k);
    PartedAt(p, allowed, EmptyLineEnd(p, k));
  }

  /** And one without a blank line is left alone. */
  lemma UnpartedIsLeftAlone(p: string, allowed: AllowedLine, d: nat, w: nat)
    requires Heading(p, d, w) && forall j :: w + 9 <= j <= |p| ==> !EmptyLineAt(p, j)
    ensures StripToolRestrictionsPreamble(p, allowed).None?
  {
    HeadingIsFound(p, d, w);
    NoEmptyLine(p, w + 9);
  }

  lemma {:induction false} NoEmptyLine(p: string, i: nat)
    requires i <= |p| && forall j :: i <= j <= |p| ==> !EmptyLineAt(p, j)
    ensures BlankLineEnd(p, i).None?
    decreases |p| - i
  {
    EmptyLineIsBlank(p, i);
    if i < |p| { NoEmptyLine(p, i + 1); }
  }

  lemma FirstEmptyLine(p: string, i: nat, k: nat)
    requires i <= k && EmptyLineAt(p, k) && forall j :: i <= j < k ==> !EmptyLineAt(p, j)
    ensures BlankLineEnd(p, i) == Some(EmptyLineEnd(p, k))
  {
    forall j | i <= j <= k
      ensures BlankLineAt(p, j) <==> j == k
    {
      EmptyLineIsBlank(p, j);
    }
    EmptyLineIsBlank(p, k);
    BlankLineIsFirst(p, i, k);
  }

  lemma PartedAt(p: string, allowed: AllowedLine, end: nat)
    requires PreambleEnd(p) == Some(end)
    ensures end <= |p| && StripToolRestrictionsPreamble(p, allowed) == Some(Stripped(allowed(p[..end]), Trim(p[end..])))
  {
  }

  lemma FirstBlankLine(p: string, i: nat, k: nat)
    requires i <= k <= |p| && ("\n\n" <= p[k..] || "\r\n\r\n" <= p[k..])
    requires forall j :: i <= j < k ==> !("\n\n" <= p[j..]) && !("\r\n\r\n" <= p[j..])
    ensures BlankLineEnd(p, i) == Some(k + BlankLineWidth(p, k))
  {
    forall j | i <= j <= k
      ensures BlankLineAt(p, j) <==> j == k
    {
      BlankLinesAre(p, j);
    }
    BlankLineIsFirst(p, i, k);
  }

  // ---- First sentences ----

  /** A full stop, exclamation or question mark before white space or the end. */
  predicate Ends(s: string, k: nat) {
    k < |s| && (s[k] == '.' || s[k] == '!' || s[k] == '?') && (k == |s| - 1 || IsSpace(s[k + 1]))
  }

  lemma EndsAreStops(s: string, k: nat)
    requires k < |s|
    ensures Ends(s, k) <==> StopAt(s, k)
  {
  }

  lemma {:induction false} NoSentence(s: string, i: nat)
    requires i <= |s| && forall j :: i <= j < |s| ==> !StopAt(s, j)
    ensures SentenceEnd(s, i).None?
    decreases |s| - i
  {
    if i < |s| { NoSentence(s, i + 1); }
  }

  lemma {:induction false} FirstSentence(s: string, i: nat, k: nat)
    requires i <= k < |s| && StopAt(s, k) && forall j :: i <= j < k ==> !StopAt(s, j)
    ensures SentenceEnd(s, i) == Some(k + 1)
    decreases k - i
  {
    if i < k { FirstSentence(s, i + 1, k); }
  }

  /** The opening is the first sentence, or the first 200 characters of a text without one. */
  lemma OpeningExactly(s: string, k: nat)
    ensures Ends(s, k) && (forall j :: 0 <= j < k ==> !Ends(s, j)) ==> Opening(s) == s[..k + 1]
    ensures (forall j :: 0 <= j < |s| ==> !Ends(s, j)) ==> FirstOf(Opening(s), s, 200)
  {
    forall j | 0 <= j < |s|
      ensures Ends(s, j) <==> StopAt(s, j)
    {
      EndsAreStops(s, j);
    }
    if Ends(s, k) && (forall j :: 0 <= j < k ==> !Ends(s, j)) { FirstSentence(s, 0, k); }
    if forall j :: 0 <= j < |s| ==> !Ends(s, j) { NoSentence(s, 0); }
  }

  lemma {:induction false} CollapseIsSqueezed(s: string, inRun: bool)
    ensures Collapse(s, inRun) == Squeezed(s, IsSpace, " ", inRun)
  {
    if s != "" {
      CollapseIsSqueezed(s[1..], true);
      CollapseIsSqueezed(s[1..], false);
    }
  }

  /** A description is the words of the opening with single spaces between them, up to 240 characters. */
  lemma SummaryIsWords(prompt: string)
    ensures FirstOf(Summary(prompt), Join(WordsOf(Trim(Opening(prompt)), IsSpace), " "), 240)
  {
    var t := Trim(Opening(prompt));
    var _, _ := TrimIsExact(Opening(prompt));
    CollapseIsSqueezed(t, false);
    SqueezedIsSpaced(t, IsSpace, " ", false);
    if WordsOf(t, IsSpace) != [] {
      assert !Leads(t, IsSpace) && !Trails(t, IsSpace);
      assert Spaced(t, IsSpace, " ", false) == Join(WordsOf(t, IsSpace), " ");
    }
  }

  // ---- Skills that fit a name ----

  /** The same name but for letter case. */
  predicate SameName(a: string, b: string) { |a| == |b| && forall i :: 0 <= i < |a| ==> SameLetter(a[i], b[i]) }

  /** Hyphen or underscore. */
  predicate NameGap(c: char) { c as int == 45 || c as int == 95 }

  /** A word of a name between hyphens and underscores, in lower case, of at least three letters. */
  predicate NameWord(w: string, name: string) { |w| >= 3 && w in Pieces(Lower(name), NameGap) }

  /** Each word of the job's name is a word of the trigger, and there is one. */
  predicate Covers(trigger: string, job: string) {
    && (exists w :: w in Pieces(Lower(job), NameGap) && NameWord(w, job))
    && forall w :: w in Pieces(Lower(job), NameGap) && NameWord(w, job) ==> w in Pieces(Lower(trigger), IsSpace)
  }

  lemma {:induction false} SamePieces(s: string, a: char -> bool, b: char -> bool)
    requires forall c: char :: a(c) <==> b(c)
    ensures Pieces(s, a) == Pieces(s, b)
  {
    if s != "" { SamePieces(s[1..], a, b); }
  }

  lemma WordsAre(name: string, w: string)
    ensures w in Words(name) <==> NameWord(w, name)
  {
    SamePieces(Lower(name), DashOrUnderscore, NameGap);
  }

  lemma NamedAlike(s: Skill, job: string)
    ensures ExactName(s, job) <==> SameName(s.name, job)
  {
    if |s.name| == |job| {
      forall i | 0 <= i < |job|
        ensures Lower(s.name)[i] == Lower(job)[i] <==> SameLetter(s.name[i], job[i])
      {
        SameLetterIsLower(s.name[i], job[i]);
      }
      if SameName(s.name, job) {
        forall i | 0 <= i < |job|
          ensures Lower(s.name)[i] == Lower(job)[i]
        {
          assert SameLetter(s.name[i], job[i]);
        }
      } else {
        var i :| 0 <= i < |job| && !SameLetter(s.name[i], job[i]);
        assert Lower(s.name)[i] != Lower(job)[i];
      }
    } else {
      assert |Lower(s.name)| != |Lower(job)|;
    }
  }

  lemma TriggeredAlike(s: Skill, job: string)
    ensures Triggered(s, Words(job)) <==> exists t :: t in s.triggers && Covers(t, job)
  {
    forall t | t in s.triggers
      ensures TriggerCovers(t, Words(job)) <==> Covers(t, job)
    {
      forall w
        ensures w in Words(job) <==> NameWord(w, job)
      {
        WordsAre(job, w);
      }
      CoversAlike(t, job);
    }
  }

  lemma CoversAlike(t: string, job: string)
    requires forall w :: w in Words(job) <==> NameWord(w, job)
    ensures TriggerCovers(t, Words(job)) <==> Covers(t, job)
  {
    if Words(job) != {} {
      var w :| w in Words(job);
      assert NameWord(w, job);
    }
  }

  /** Two words in common. */
  lemma OverlappingAlike(s: Skill, job: string)
    ensures Overlaps(s, Words(job)) <==>
            exists v, w :: v in Words(job) && w in Words(job) && v != w && NameWord(v, s.name) && NameWord(w, s.name)
  {
    var common := Words(job) * Words(s.name);
    forall w
      ensures w in common <==> w in Words(job) && NameWord(w, s.name)
    {
      WordsAre(s.name, w);
    }
    TwoElements(common);
  }
}
