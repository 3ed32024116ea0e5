/** Which skill of the catalog a cron job belongs to: findMatchingSkill in src/agent/cron-migrator.ts. */
module SkillMatch {
  import opened CronText
  import opened Text
  import opened Wrappers

  datatype Skill = Skill(name: string, title: string, description: string, triggers: seq<string>)

  // ---- Words ----

  predicate DashOrUnderscore(c: char) { c == '-' || c == '_' }

  function Elements(s: seq<string>): set<string> { set x | x in s }

  /** The words of a name that matter: more than two characters. */
  function Words(name: string): set<string> {
    set w | w in Pieces(Lower(name), DashOrUnderscore) && |w| > 2
  }

  // ---- Three tiers ----

  predicate ExactName(s: Skill, job: string) { Lower(s.name) == Lower(job) }

  /** One trigger holds every word of the job name. Empty pieces never match a word. */
  predicate TriggerCovers(trigger: string, words: set<string>) {
    words <= Elements(Pieces(Lower(trigger), IsSpace)) && words != {}
  }

  predicate Triggered(s: Skill, words: set<string>) {
    exists i :: 0 <= i < |s.triggers| && TriggerCovers(s.triggers[i], words)
  }

  predicate Overlaps(s: Skill, words: set<string>) { |words * Words(s.name)| >= 2 }

  function Named(job: string): Skill -> bool { s => ExactName(s, job) }

  function ByTrigger(words: set<string>): Skill -> bool { s => Triggered(s, words) }

  function ByOverlap(words: set<string>): Skill -> bool { s => Overlaps(s, words) }

  /** The first skill of the catalog that fits. */
  function First(skills: seq<Skill>, fits: Skill -> bool): Option<Skill> {
    if skills == [] then None
    else
      var front := First(skills[..|skills| - 1], fits);
      if front.Some? then front
      else if fits(skills[|skills| - 1]) then Some(skills[|skills| - 1])
      else None
  }

  predicate NoneFits(skills: seq<Skill>, fits: Skill -> bool) { forall k :: 0 <= k < |skills| ==> !fits(skills[k]) }

  /** `i` is the first skill that fits. */
  predicate FirstAt(skills: seq<Skill>, fits: Skill -> bool, i: nat) {
    i < |skills| && fits(skills[i]) && NoneFits(skills[..i], fits)
  }

  lemma {:induction false} FirstIsNone(skills: seq<Skill>, fits: Skill -> bool)
    ensures First(skills, fits).None? <==> NoneFits(skills, fits)
  {
    if skills != [] { FirstIsNone(skills[..|skills| - 1], fits); }
  }

  lemma {:induction false} FirstIsAt(skills: seq<Skill>, fits: Skill -> bool, i: nat)
    requires FirstAt(skills, fits, i)
    ensures First(skills, fits) == Some(skills[i])
    decreases |skills|
  {
    var front := skills[..|skills| - 1];
    if i < |front| {
      assert front[..i] == skills[..i];
      FirstIsAt(front, fits, i);
    } else {
      FirstIsNone(front, fits);
    }
  }

  function MatchingSkill(job: string, skills: seq<Skill>): Option<Skill> {
    var exact := First(skills, Named(job));
    if exact.Some? then exact
    else
      var triggered := First(skills, ByTrigger(Words(job)));
      if triggered.Some? then triggered else First(skills, ByOverlap(Words(job)))
  }

  /** The match is the first skill of the best tier that any skill fits; there is none only if no tier has one. */
  lemma MatchIsBest(job: string, skills: seq<Skill>, i: nat)
    ensures var exact, triggered, overlapping := Named(job), ByTrigger(Words(job)), ByOverlap(Words(job));
            && (FirstAt(skills, exact, i) ==> MatchingSkill(job, skills) == Some(skills[i]))
            && (NoneFits(skills, exact) && FirstAt(skills, triggered, i) ==>
              MatchingSkill(job, skills) == Some(skills[i]))
            && (NoneFits(skills, exact) && NoneFits(skills, triggered) && FirstAt(skills, overlapping, i) ==>
                  MatchingSkill(job, skills) == Some(skills[i]))
            && (MatchingSkill(job, skills).None? <==>
                  NoneFits(skills, exact) && NoneFits(skills, triggered) && NoneFits(skills, overlapping))
  {
    var exact, triggered, overlapping := Named(job), ByTrigger(Words(job)), ByOverlap(Words(job));
    FirstIsNone(skills, exact);
    FirstIsNone(skills, triggered);
    FirstIsNone(skills, overlapping);
    if FirstAt(skills, exact, i) { FirstIsAt(skills, exact, i); }
    if FirstAt(skills, triggered, i) { FirstIsAt(skills, triggered, i); }
    if FirstAt(skills, overlapping, i) { FirstIsAt(skills, overlapping, i); }
  }

  method FindMatchingSkill(job: string, skills: seq<Skill>) returns (r: Option<Skill>)
    ensures r == MatchingSkill(job, skills)
  {
    var jobName, jobWords := Lower(job), Words(job);
    ghost var fits := Named(job);
    for i := 0 to |skills|
      invariant NoneFits(skills[..i], fits)
    {
      if Lower(skills[i].name) == jobName {
        FirstIsAt(skills, fits, i);
        return Some(skills[i]);
      }
    }
    assert skills[..|skills|] == skills;
    FirstIsNone(skills, fits);
    r := FindTriggered(jobWords, skills);
    if r.Some? { return; }
    r := FindOverlapping(jobWords, skills);
  }

  method FindTriggered(jobWords: set<string>, skills: seq<Skill>) returns (r: Option<Skill>)
    ensures r == First(skills, ByTrigger(jobWords))
  {
    ghost var fits := ByTrigger(jobWords);
    for i := 0 to |skills|
      invariant NoneFits(skills[..i], fits)
    {
      var triggers := skills[i].triggers;
      for j := 0 to |triggers|
        invariant forall k :: 0 <= k < j ==> !TriggerCovers(triggers[k], jobWords)
      {
        var triggerWords := Elements(Pieces(Lower(triggers[j]), IsSpace));
        if jobWords <= triggerWords && |jobWords| > 0 {
          assert TriggerCovers(triggers[j], jobWords);
          FirstIsAt(skills, fits, i);
          return Some(skills[i]);
        }
      }
    }
    assert skills[..|skills|] == skills;
    FirstIsNone(skills, fits);
    return None;
  }

  method FindOverlapping(jobWords: set<string>, skills: seq<Skill>) returns (r: Option<Skill>)
    ensures r == First(skills, ByOverlap(jobWords))
  {
    ghost var fits := ByOverlap(jobWords);
    for i := 0 to |skills|
      invariant NoneFits(skills[..i], fits)
    {
      var overlap := |jobWords * Words(skills[i].name)|;
      if overlap >= 2 {
        FirstIsAt(skills, fits, i);
        return Some(skills[i]);
      }
    }
    assert skills[..|skills|] == skills;
    FirstIsNone(skills, fits);
    return None;
  }
}
