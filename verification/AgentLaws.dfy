/** What the agent manager does to the directory, and what a new agent is called. */
module AgentLaws {
  import opened Text
  import opened Wrappers
  import opened AgentCache
  import opened Squeezing

  // ---- The directory ----

  /** Everything but these directories is as it was. */
  predicate SameBut(before: Directory, after: Directory, names: set<string>) {
    forall d :: d in before.Keys + after.Keys && d !in names ==> d in before && d in after && after[d] == before[d]
  }

  predicate Exists(dirs: Directory, slug: string) { slug in dirs && dirs[slug].Some? }

  /** A new agent gets its file, and with it its directory and the one above; an existing one is left alone. */
  lemma CreateExactly(load: Loader, m: Manager, now: int, lower: string, content: string)
    ensures var slug, after := Slug(lower), Apply(load, m, Event(now, Create(lower, content))).dirs;
            if Exists(m.dirs, slug) then after == m.dirs
            else
              && slug in after && after[slug] == Some(content) && "" in after && SameBut(m.dirs, after, {slug, ""})
              && (slug != "" ==> after[""] == if "" in m.dirs then m.dirs[""] else None)
  {
  }

  /** An update replaces the one file by its edited text, if there is one and it can be read. */
  lemma UpdateExactly(load: Loader, m: Manager, now: int, slug: string, edit: string -> Option<string>)
    ensures var after := Apply(load, m, Event(now, Update(slug, edit))).dirs;
            if Exists(m.dirs, slug) && edit(m.dirs[slug].value).Some?
            then slug in after && after[slug] == edit(m.dirs[slug].value) && SameBut(m.dirs, after, {slug})
            else after == m.dirs
  {
  }

  /** A deletion removes the one directory; the nameless one is the agents directory itself, and all goes with it. */
  lemma DeleteExactly(load: Loader, m: Manager, now: int, slug: string)
    ensures var after := Apply(load, m, Event(now, Delete(slug))).dirs;
            if slug == "" && "" in m.dirs then after == map[]
            else slug !in after && SameBut(m.dirs, after, {slug})
  {
  }

  lemma ReadsChangeNothing(load: Loader, m: Manager, e: Event)
    requires e.op.Get? || e.op.ListAll? || e.op.Invalidate?
    ensures Apply(load, m, e).dirs == m.dirs
  {
  }

  /** An agent without a letter or digit in its name is kept in the agents directory: deleting it deletes all agents. */
  lemma NamelessAgentTakesAllAlong(load: Loader, m: Manager, now: int, lower: string, content: string)
    requires Core(lower) == "" && !Exists(m.dirs, "")
    ensures var m1 := Apply(load, m, Event(now, Create(lower, content)));
            && m1.dirs == m.dirs["" := Some(content)]
            && Apply(load, m1, Event(now, Delete(""))).dirs == map[]
  {
    SlugIsCanonical(lower);
  }

  // ---- The name ----

  /** In ASCII codes: neither a small letter nor a digit. */
  predicate Between(c: char) { !(97 <= c as int <= 122 || 48 <= c as int <= 57) }

  /** The runs of letters and digits. */
  function NameWords(s: string): seq<string> { WordsOf(s, Between) }

  lemma {:induction false} DashedIsSqueezed(s: string, inRun: bool)
    ensures Dashed(s, inRun) == Squeezed(s, Between, "-", inRun)
  {
    if s != "" {
      DashedIsSqueezed(s[1..], true);
      DashedIsSqueezed(s[1..], false);
    }
  }

  /** The slug of a name is its runs of letters and digits, joined by single dashes. */
  lemma SlugIsWords(lower: string)
    ensures Slug(lower) == Join(NameWords(lower), "-")
  {
    DashedIsSqueezed(lower, false);
    SqueezedIsSpaced(lower, Between, "-", false);
    var words := NameWords(lower);
    if words != [] {
      JoinedWordsAreTrim(lower, Between, "-");
      var j := Join(words, "-");
      assert Between('-') && j[0] != '-' && j[|j| - 1] != '-';
      TrimmedDashes(lower, j);
    }
  }

  lemma TrimmedDashes(lower: string, j: string)
    requires j != "" && j[0] != '-' && j[|j| - 1] != '-'
    requires Dashed(lower, false) == Fill(Leads(lower, Between), "-") + (j + Fill(Trails(lower, Between), "-"))
    ensures Slug(lower) == j
  {
    var d := Dashed(lower, false);
    var head := j + Fill(Trails(lower, Between), "-");
    assert if Leads(lower, Between) then d == "-" + head && d[1..] == head else d == head;
    assert head[0] == j[0];
    if Trails(lower, Between) { assert head[..|head| - 1] == j; }
  }
}
