/**
 The cron-clean migrator: migrateCronJob and its bulk form in src/agent/cron-migrator.ts. The skill that
 matches depends on the job's name alone, which no migration changes; `strip` is the preamble parser.
 */
module CronMigrator {
  import opened CronText
  import opened SkillMatch
  import opened Text
  import opened Wrappers

  /** The fields the migrator reads or writes; `rest` stands for all others. */
  datatype CronJob = CronJob(name: string, prompt: string, predictable: Option<bool>, description: Option<string>,
                             skills: Option<seq<string>>, allowedTools: Option<seq<string>>, rest: map<string, string>)

  // ---- One migration ----

  predicate Undescribed(job: CronJob) { job.description.None? || Blank(job.description.value) }

  predicate Pins(job: CronJob, matched: Option<Skill>) { job.skills.GetOr([]) == [] && matched.Some? }

  predicate Restricted(job: CronJob, strip: Stripper) { strip(job.prompt).Some? }

  /** The prompt without its preamble. */
  function Cleaned(job: CronJob, strip: Stripper): string {
    if strip(job.prompt).Some? then strip(job.prompt).value.cleanedPrompt else job.prompt
  }

  /** `stripped?.cleanedPrompt || job.prompt`. */
  function Described(job: CronJob, strip: Stripper): string {
    if Cleaned(job, strip) != "" then Cleaned(job, strip) else job.prompt
  }

  function GenerateDescription(cleanedPrompt: string, matched: Option<Skill>): string {
    if matched.Some? && matched.value.description != "" then Take(Trim(matched.value.description), 500)
    else Summary(cleanedPrompt)
  }

  function NewDescription(job: CronJob, matched: Option<Skill>, strip: Stripper): string {
    GenerateDescription(Described(job, strip), matched)
  }

  /** A job is eligible for any one of four marks. */
  predicate Eligible(job: CronJob, matched: Option<Skill>, strip: Stripper) {
    || job.predictable != Some(true) || Restricted(job, strip) || Pins(job, matched)
    || (Undescribed(job) && NewDescription(job, matched, strip) != "")
  }

  function Label(s: Skill): string { if s.title != "" then s.title else s.name }

  function Invocation(s: Skill): string { "Run the " + Label(s) + " skill." }

  function PinnedPrompt(s: Skill, cleaned: string): string {
    var remains := Trim(cleaned);
    if |remains| > 50 then Invocation(s) + "\n\n" + Take(remains, 1000) else Invocation(s)
  }

  function MergedTools(job: CronJob, strip: Stripper): Option<seq<string>> {
    if Restricted(job, strip) && strip(job.prompt).value.allowedTools != []
    then Some(Distinct(job.allowedTools.GetOr([]) + strip(job.prompt).value.allowedTools)) else job.allowedTools
  }

  function Migrated(job: CronJob, matched: Option<Skill>, strip: Stripper): CronJob {
    var text := NewDescription(job, matched, strip);
    job.(predictable := Some(true),
         allowedTools := MergedTools(job, strip),
         skills := if Pins(job, matched) then Some([matched.value.name]) else job.skills,
         prompt := if Pins(job, matched) then PinnedPrompt(matched.value, Cleaned(job, strip))
                   else if Restricted(job, strip) then Trim(Cleaned(job, strip)) else job.prompt,
         description := if Undescribed(job) && text != "" then Some(text) else job.description)
  }

  lemma DescriptionIsNotBlank(s: string, matched: Option<Skill>)
    ensures GenerateDescription(s, matched) == "" || !Blank(GenerateDescription(s, matched))
  {
    SummaryIsNotBlank(s);
    if matched.Some? && matched.value.description != "" {
      var _, _ := TrimIsExact(matched.value.description);
      var d := GenerateDescription(s, matched);
      if d != "" { TrimKeepsStart(d); }
    }
  }

  lemma PassFlips(job: CronJob, matched: Option<Skill>, strip: Stripper)
    ensures var m := Migrated(job, matched, strip); m.predictable == Some(true) && !Pins(m, matched)
  {
  }

  lemma PassDescribes(job: CronJob, matched: Option<Skill>, strip: Stripper)
    ensures var m := Migrated(job, matched, strip);
            if Undescribed(job) then Undescribed(m) <==> NewDescription(job, matched, strip) == ""
            else m.description == job.description
  {
    DescriptionIsNotBlank(Described(job, strip), matched);
  }

  lemma PassShortens(job: CronJob, matched: Option<Skill>, strip: Stripper)
    requires Strips(strip) && !Pins(job, matched)
    ensures var m := Migrated(job, matched, strip);
            m.prompt == Cleaned(job, strip) && (Restricted(job, strip) ==> |m.prompt| < |job.prompt|)
  {
  }

  /** A job is reported eligible exactly when migrating it changes it. */
  lemma EligibleMeansChanged(job: CronJob, matched: Option<Skill>, strip: Stripper)
    requires Strips(strip)
    ensures Eligible(job, matched, strip) <==> Migrated(job, matched, strip) != job
  {
    var m := Migrated(job, matched, strip);
    PassFlips(job, matched, strip);
    PassDescribes(job, matched, strip);
    if !Pins(job, matched) { PassShortens(job, matched, strip); }
    if !Eligible(job, matched, strip) { assert m == job; }
  }

  /** Only five fields may change, and no allowed tool is lost. */
  lemma MigrationIsConfined(job: CronJob, matched: Option<Skill>, strip: Stripper)
    ensures var m := Migrated(job, matched, strip);
            && m.name == job.name && m.rest == job.rest
            && (forall t :: t in job.allowedTools.GetOr([]) ==> t in m.allowedTools.GetOr([]))
            && (m.allowedTools != job.allowedTools ==> Restricted(job, strip))
  {
    if Restricted(job, strip) {
      DistinctKeepsElements(job.allowedTools.GetOr([]) + strip(job.prompt).value.allowedTools);
    }
  }

  /** The tools of a migrated job are those it was allowed, first and in order, and those its preamble allowed. */
  lemma ToolsArrive(job: CronJob, matched: Option<Skill>, strip: Stripper, t: string)
    ensures t in Migrated(job, matched, strip).allowedTools.GetOr([]) <==>
              t in job.allowedTools.GetOr([])
              || (strip(job.prompt).Some? && t in strip(job.prompt).value.allowedTools)
    ensures var r := strip(job.prompt);
            r.Some? && r.value.allowedTools != [] ==>
              var tools := Migrated(job, matched, strip).allowedTools.GetOr([]);
              Distinct(job.allowedTools.GetOr([])) <= tools
              && forall i, j :: 0 <= i < j < |tools| ==> tools[i] != tools[j]
  {
    if strip(job.prompt).Some? {
      var before, more := job.allowedTools.GetOr([]), strip(job.prompt).value.allowedTools;
      DistinctKeepsElements(before + more);
      DistinctGrows(before, more);
    }
  }

  lemma {:induction false} DistinctGrows(a: seq<string>, b: seq<string>)
    ensures Distinct(a) <= Distinct(a + b)
    decreases |b|
  {
    if b == [] {
      assert a + b == a;
    } else {
      DistinctGrows(a, b[..|b| - 1]);
      assert (a + b)[..|a + b| - 1] == a + b[..|b| - 1];
    }
  }

  /** The text of a pinned prompt: the skill by its title or else its name, and instructions worth keeping. */
  predicate Invokes(prompt: string, s: Skill, text: string) {
    var head := "Run the " + (if s.title == "" then s.name else s.title) + " skill.";
    && head <= prompt
    && (|text| <= 50 ==> prompt == head)
    && (|text| > 50 ==> head + "\n\n" <= prompt && FirstOf(prompt[|head| + 2..], text, 1000))
  }

  /** What a migration makes of skills, prompt and description. */
  lemma MigrationDoes(job: CronJob, matched: Option<Skill>, strip: Stripper)
    ensures var m, pins := Migrated(job, matched, strip), matched.Some? && (job.skills.None? || job.skills.value == []);
            var text := if strip(job.prompt).Some? then strip(job.prompt).value.cleanedPrompt else job.prompt;
            && m.skills == (if pins then Some([matched.value.name]) else job.skills)
            && (if pins then Invokes(m.prompt, matched.value, Trim(text))
                else m.prompt == if strip(job.prompt).Some? then Trim(text) else job.prompt)
            && (job.description.Some? && !Blank(job.description.value) ==> m.description == job.description)
  {
  }

  /** A missing description is drawn from the skill's, else from the first sentence of the instructions. */
  lemma DescriptionComesFrom(job: CronJob, matched: Option<Skill>, strip: Stripper)
    requires job.description.None? || Blank(job.description.value)
    ensures var m := Migrated(job, matched, strip);
            var cleaned := if strip(job.prompt).Some? then strip(job.prompt).value.cleanedPrompt else "";
            if matched.Some? && matched.value.description != "" then
              if Blank(matched.value.description) then m.description == job.description
              else m.description.Some? && FirstOf(m.description.value, Trim(matched.value.description), 500)
            else
              var text := Summary(if cleaned != "" then cleaned else job.prompt);
              m.description == if text == "" then job.description else Some(text)
  {
  }

  /** A pinned job keeps its instructions whole exactly when they have 51 to 1000 characters. */
  lemma InstructionsSurvive(s: Skill, cleaned: string)
    ensures PinnedPrompt(s, cleaned) == Invocation(s) + "\n\n" + Trim(cleaned) <==> 50 < |Trim(cleaned)| <= 1000
  {
    var head, text := Invocation(s) + "\n\n", Trim(cleaned);
    assert |head| == |Invocation(s)| + 2;
    if |text| > 1000 {
      assert |head + Take(text, 1000)| < |head + text|;
    } else if |text| <= 50 {
      assert |Invocation(s)| < |head + text|;
    }
  }

  // ---- Twice ----

  /** What a first pass leaves for a second one. */
  predicate LeavesWork(job: CronJob, matched: Option<Skill>, strip: Stripper) {
    if Pins(job, matched)
    // Neither the skill nor the prompt gave a description; the new prompt will.
    then Undescribed(job) && matched.value.description == "" && Summary(Described(job, strip)) == ""
    // Under the preamble lies another one.
    else Restricted(job, strip) && strip(Cleaned(job, strip)).Some?
  }

  lemma SecondPassExactly(job: CronJob, matched: Option<Skill>, strip: Stripper)
    ensures var m := Migrated(job, matched, strip);
            Eligible(m, matched, strip) <==>
              Restricted(m, strip)
              || (Undescribed(job) && NewDescription(job, matched, strip) == ""
                && NewDescription(m, matched, strip) != "")
  {
    PassFlips(job, matched, strip);
    PassDescribes(job, matched, strip);
  }

  lemma PinnedPromptIsClean(s: Skill, cleaned: string, strip: Stripper)
    requires Strips(strip)
    ensures var p := PinnedPrompt(s, cleaned); strip(p).None? && p != "" && Summary(p) != ""
  {
    var p := PinnedPrompt(s, cleaned);
    assert p[0] == 'R';
    SummaryOfText(p);
  }

  lemma SecondPassAfterPin(job: CronJob, matched: Option<Skill>, strip: Stripper)
    requires Strips(strip) && Pins(job, matched)
    ensures Eligible(Migrated(job, matched, strip), matched, strip) <==> LeavesWork(job, matched, strip)
  {
    SecondPassExactly(job, matched, strip);
    PinnedPromptIsClean(matched.value, Cleaned(job, strip), strip);
  }

  /** A stripped job goes undescribed only for the sake of a skill whose description is blank. */
  lemma StrippedJobIsDescribed(job: CronJob, matched: Option<Skill>, strip: Stripper)
    requires Strips(strip) && Restricted(job, strip) && NewDescription(job, matched, strip) == ""
    ensures forall text :: GenerateDescription(text, matched) == ""
  {
    TIsNotSpace(job.prompt);
    SummaryOfText(Described(job, strip));
  }

  lemma SecondPassAfterStrip(job: CronJob, matched: Option<Skill>, strip: Stripper)
    requires Strips(strip) && !Pins(job, matched)
    ensures Eligible(Migrated(job, matched, strip), matched, strip) <==> LeavesWork(job, matched, strip)
  {
    SecondPassExactly(job, matched, strip);
    PassShortens(job, matched, strip);
    if Restricted(job, strip) && NewDescription(job, matched, strip) == "" {
      StrippedJobIsDescribed(job, matched, strip);
    }
  }

  /** The migrator is not idempotent: a second pass changes the job exactly when the first leaves work. */
  lemma SecondPassIsIdle(job: CronJob, matched: Option<Skill>, strip: Stripper)
    requires Strips(strip)
    ensures var m := Migrated(job, matched, strip);
            Migrated(m, matched, strip) == m <==> !LeavesWork(job, matched, strip)
  {
    EligibleMeansChanged(Migrated(job, matched, strip), matched, strip);
    if Pins(job, matched) {
      SecondPassAfterPin(job, matched, strip);
    } else {
      SecondPassAfterStrip(job, matched, strip);
    }
  }

  /** A doubled preamble: the first pass uncovers the second one. */
  lemma DoubledPreambleLeavesWork(job: CronJob, text: string, allowed: AllowedLine)
    requires text != "" && !IsSpace(text[|text| - 1]) && job.prompt == PREAMBLE + (PREAMBLE + text)
    ensures LeavesWork(job, None, Stripping(allowed))
  {
    var inner := PREAMBLE + text;
    PreambleEnds(inner);
    PreambleEnds(text);
    assert job.prompt[31..] == inner && inner[0] == 'T';
    assert Trimmed(inner) && Trim(inner) == inner;
  }

  /** An empty prompt and a skill that describes nothing: only the prompt of the first pass can be described. */
  lemma EmptyPromptLeavesWork(job: CronJob, skill: Skill, strip: Stripper)
    requires Strips(strip) && job.prompt == "" && job.description.None? && job.skills.None? && skill.description == ""
    ensures LeavesWork(job, Some(skill), strip)
  {
    assert Opening("") == "" && Trim("") == "";
  }

  // ---- Until nothing is left to do ----

  /** The lexicographic measure of Settle. */
  ghost predicate Progresses(job: CronJob, m: CronJob, matched: Option<Skill>) {
    && m.predictable == Some(true) && !Pins(m, matched)
    && (Undescribed(m) ==> Undescribed(job))
    && (job.predictable == Some(true) && !Pins(job, matched) ==>
      |m.prompt| < |job.prompt| || (Undescribed(job) && !Undescribed(m)))
  }

  lemma PassProgresses(job: CronJob, matched: Option<Skill>, strip: Stripper)
    requires Strips(strip) && Eligible(job, matched, strip)
    ensures Progresses(job, Migrated(job, matched, strip), matched)
  {
    PassFlips(job, matched, strip);
    PassDescribes(job, matched, strip);
    if !Pins(job, matched) { PassShortens(job, matched, strip); }
  }

  /** Repeated migration ends: each pass flips the mode, pins, describes, or shortens the prompt. */
  ghost function Settle(job: CronJob, matched: Option<Skill>, strip: Stripper): (r: CronJob)
    requires Strips(strip)
    ensures !Eligible(r, matched, strip)
    decreases job.predictable != Some(true), Pins(job, matched), Undescribed(job), |job.prompt|
  {
    if !Eligible(job, matched, strip) then job
    else
      PassProgresses(job, matched, strip);
      Settle(Migrated(job, matched, strip), matched, strip)
  }

  /** A settled job is in strict mode, unrestricted and pinned if it can be; it keeps its identity and its tools. */
  lemma {:induction false} SettledIsClean(job: CronJob, matched: Option<Skill>, strip: Stripper)
    requires Strips(strip)
    ensures var r := Settle(job, matched, strip);
            && r.predictable == Some(true) && !Restricted(r, strip) && !Pins(r, matched)
            && r.name == job.name && r.rest == job.rest
            && (forall t :: t in job.allowedTools.GetOr([]) ==> t in r.allowedTools.GetOr([]))
            && (!Undescribed(job) ==> r.description == job.description)
    decreases job.predictable != Some(true), Pins(job, matched), Undescribed(job), |job.prompt|
  {
    if Eligible(job, matched, strip) {
      PassProgresses(job, matched, strip);
      PassDescribes(job, matched, strip);
      MigrationIsConfined(job, matched, strip);
      SettledIsClean(Migrated(job, matched, strip), matched, strip);
    }
  }

  /** With the real preamble parser and catalog: migrating again and again ends, and ends clean. */
  lemma MigrationEndsClean(job: CronJob, skills: seq<Skill>, allowed: AllowedLine)
    ensures var strip, matched := Stripping(allowed), MatchingSkill(job.name, skills);
            && Strips(strip)
            && var r := Settle(job, matched, strip);
               && r.predictable == Some(true) && !HasPreamble(r.prompt) && !Pins(r, matched)
               && MatchingSkill(r.name, skills) == matched
               && (forall t :: t in job.allowedTools.GetOr([]) ==> t in r.allowedTools.GetOr([]))
  {
    PreambleIsStripped(allowed);
    SettledIsClean(job, MatchingSkill(job.name, skills), Stripping(allowed));
  }

  /** One pass settles a job exactly when it leaves no work. */
  lemma OnePassSettles(job: CronJob, matched: Option<Skill>, strip: Stripper)
    requires Strips(strip)
    ensures Settle(job, matched, strip) == Migrated(job, matched, strip) <==> !LeavesWork(job, matched, strip)
  {
    var m := Migrated(job, matched, strip);
    EligibleMeansChanged(job, matched, strip);
    EligibleMeansChanged(m, matched, strip);
    SecondPassIsIdle(job, matched, strip);
    if Eligible(job, matched, strip) {
      assert Settle(job, matched, strip) == Settle(m, matched, strip);
    }
  }

  // ---- The method ----

  datatype Change = StrictMode | StrippedPreamble | MovedTools(count: nat) | PinnedSkill(name: string)
    | KeptInstructions | AddedDescription(text: string)

  datatype Migration = Migration(eligible: bool, migrated: CronJob, changes: seq<Change>, matchedSkill: Option<string>)

  method MigrateCronJob(job: CronJob, skills: seq<Skill>, strip: Stripper) returns (r: Migration)
    requires Strips(strip)
    ensures var matched := MatchingSkill(job.name, skills);
            && r.migrated == Migrated(job, matched, strip)
            && r.eligible == Eligible(job, matched, strip) && (r.eligible <==> r.changes != [])
            && r.matchedSkill == if matched.Some? then Some(matched.value.name) else None
  {
    var stripped := strip(job.prompt);
    var matched := FindMatchingSkill(job.name, skills);
    var matchedName := if matched.Some? then Some(matched.value.name) else None;
    if stripped.None? && job.predictable == Some(true) && !Undescribed(job)
      && !(job.skills.GetOr([]) == [] && matched.Some?) {
      EligibleMeansChanged(job, matched, strip);
      return Migration(false, job, [], matchedName);
    }
    var migrated, changes := Rewrite(job, matched, strip);
    if Undescribed(job) {
      var cleaned := if stripped.Some? then stripped.value.cleanedPrompt else "";
      var text := GenerateDescription(if cleaned != "" then cleaned else job.prompt, matched);
      if text != "" {
        migrated := migrated.(description := Some(text));
        changes := changes + [AddedDescription(text)];
      }
    }
    return Migration(changes != [], migrated, changes, matchedName);
  }

  /** Steps 4a to 4c: mode, preamble, pin. */
  method Rewrite(job: CronJob, matched: Option<Skill>, strip: Stripper)
    returns (migrated: CronJob, changes: seq<Change>)
    ensures migrated == Migrated(job, matched, strip).(description := job.description)
    ensures changes != [] <==> job.predictable != Some(true) || Restricted(job, strip) || Pins(job, matched)
  {
    migrated, changes := job, [];
    if job.predictable != Some(true) {
      migrated := migrated.(predictable := Some(true));
      changes := changes + [StrictMode];
    }
    var cleanedPrompt := job.prompt;
    var stripped := strip(job.prompt);
    if stripped.Some? {
      cleanedPrompt := stripped.value.cleanedPrompt;
      changes := changes + [StrippedPreamble];
      if |stripped.value.allowedTools| > 0 {
        migrated := migrated.(allowedTools := Some(Distinct(job.allowedTools.GetOr([]) + stripped.value.allowedTools)));
        changes := changes + [MovedTools(|stripped.value.allowedTools|)];
      }
    }
    if matched.Some? && job.skills.GetOr([]) == [] {
      migrated := migrated.(skills := Some([matched.value.name]));
      changes := changes + [PinnedSkill(matched.value.name)];
      var remains := Trim(cleanedPrompt);
      migrated := migrated.(prompt := Invocation(matched.value));
      if |remains| > 50 {
        migrated := migrated.(prompt := migrated.prompt + "\n\n" + Take(remains, 1000));
        changes := changes + [KeptInstructions];
      }
    } else if stripped.Some? {
      migrated := migrated.(prompt := Trim(cleanedPrompt));
    }
  }

  // ---- Many jobs ----

  function Flags(jobs: seq<CronJob>, skills: seq<Skill>, strip: Stripper): seq<bool> {
    seq(|jobs|, i requires 0 <= i < |jobs| => Eligible(jobs[i], MatchingSkill(jobs[i].name, skills), strip))
  }

  /** The jobs whose flag is `keep`, in order. */
  function Select(jobs: seq<CronJob>, flags: seq<bool>, keep: bool): seq<CronJob>
    requires |jobs| == |flags|
  {
    if jobs == [] then []
    else
      var n := |jobs| - 1;
      Select(jobs[..n], flags[..n], keep) + if flags[n] == keep then [jobs[n]] else []
  }

  /** Dealing the two lists back by the flags, from the end. */
  function Deal(flags: seq<bool>, yes: seq<CronJob>, no: seq<CronJob>): seq<CronJob> {
    if flags == [] then []
    else if flags[|flags| - 1] then
      if yes == [] then [] else Deal(flags[..|flags| - 1], yes[..|yes| - 1], no) + [yes[|yes| - 1]]
    else
      if no == [] then [] else Deal(flags[..|flags| - 1], yes, no[..|no| - 1]) + [no[|no| - 1]]
  }

  lemma DealYes(flags: seq<bool>, yes: seq<CronJob>, no: seq<CronJob>, job: CronJob)
    ensures Deal(flags + [true], yes + [job], no) == Deal(flags, yes, no) + [job]
  {
    assert (flags + [true])[..|flags|] == flags && (yes + [job])[..|yes|] == yes;
  }

  lemma DealNo(flags: seq<bool>, yes: seq<CronJob>, no: seq<CronJob>, job: CronJob)
    ensures Deal(flags + [false], yes, no + [job]) == Deal(flags, yes, no) + [job]
  {
    assert (flags + [false])[..|flags|] == flags && (no + [job])[..|no|] == no;
  }

  /** The bulk form splits the inventory: both parts in order, together everything. */
  lemma {:induction false} BulkPartition(jobs: seq<CronJob>, flags: seq<bool>)
    requires |jobs| == |flags|
    ensures var yes, no := Select(jobs, flags, true), Select(jobs, flags, false);
            |yes| + |no| == |jobs| && Deal(flags, yes, no) == jobs
  {
    if jobs != [] {
      var n := |jobs| - 1;
      BulkPartition(jobs[..n], flags[..n]);
      var yes, no := Select(jobs[..n], flags[..n], true), Select(jobs[..n], flags[..n], false);
      assert flags[..n] + [flags[n]] == flags && jobs[..n] + [jobs[n]] == jobs && yes + [] == yes && no + [] == no;
      if flags[n] { DealYes(flags[..n], yes, no, jobs[n]); } else { DealNo(flags[..n], yes, no, jobs[n]); }
    }
  }

  lemma SelectStep(jobs: seq<CronJob>, flags: seq<bool>, n: nat, keep: bool)
    requires n < |jobs| == |flags|
    ensures Select(jobs[..n + 1], flags[..n + 1], keep) ==
            if flags[n] == keep then Select(jobs[..n], flags[..n], keep) + [jobs[n]]
            else Select(jobs[..n], flags[..n], keep)
  {
    assert jobs[..n + 1][..n] == jobs[..n] && flags[..n + 1][..n] == flags[..n];
  }

  function Sources(pairs: seq<(CronJob, Migration)>): seq<CronJob> {
    seq(|pairs|, i requires 0 <= i < |pairs| => pairs[i].0)
  }

  /** Every pair holds a job and its migration. */
  predicate Correct(pairs: seq<(CronJob, Migration)>, skills: seq<Skill>, strip: Stripper) {
    forall i :: 0 <= i < |pairs| ==>
      pairs[i].1.migrated == Migrated(pairs[i].0, MatchingSkill(pairs[i].0.name, skills), strip)
  }

  lemma CorrectSnoc(pairs: seq<(CronJob, Migration)>, job: CronJob, m: Migration, skills: seq<Skill>, strip: Stripper)
    requires Correct(pairs, skills, strip) && m.migrated == Migrated(job, MatchingSkill(job.name, skills), strip)
    ensures Correct(pairs + [(job, m)], skills, strip)
    ensures Sources(pairs + [(job, m)]) == Sources(pairs) + [job]
  {
  }

  method MigrateAllEligibleJobs(jobs: seq<CronJob>, skills: seq<Skill>, strip: Stripper)
    returns (eligible: seq<(CronJob, Migration)>, skipped: seq<CronJob>)
    requires Strips(strip)
    ensures skipped == Select(jobs, Flags(jobs, skills, strip), false)
    ensures Sources(eligible) == Select(jobs, Flags(jobs, skills, strip), true)
    ensures Correct(eligible, skills, strip)
  {
    eligible, skipped := [], [];
    ghost var flags := Flags(jobs, skills, strip);
    for n := 0 to |jobs|
      invariant skipped == Select(jobs[..n], flags[..n], false)
      invariant Sources(eligible) == Select(jobs[..n], flags[..n], true)
      invariant Correct(eligible, skills, strip)
    {
      SelectStep(jobs, flags, n, true);
      SelectStep(jobs, flags, n, false);
      var result := MigrateCronJob(jobs[n], skills, strip);
      if result.eligible {
        CorrectSnoc(eligible, jobs[n], result, skills, strip);
        eligible := eligible + [(jobs[n], result)];
      } else {
        skipped := skipped + [jobs[n]];
      }
    }
    assert jobs[..|jobs|] == jobs && flags[..|jobs|] == flags;
  }
}
