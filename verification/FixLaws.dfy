/** What becomes of one trigger, and what a tick adds up to: the fix loop spelled out. */
module FixLaws {
  import opened Text
  import opened Wrappers
  import opened FailureFix

  // ---- Which failure ----

  predicate SaysAt(text: string, phrase: string, i: nat) {
    i + |phrase| <= |text| && forall k :: 0 <= k < |phrase| ==> SameLetter(text[i + k], phrase[k])
  }

  /** The phrase is in the text, in whatever letter case. */
  predicate Says(text: string, phrase: string) { exists i :: 0 <= i <= |text| && SaysAt(text, phrase, i) }

  lemma SaysAtIsPrefix(text: string, phrase: string, i: nat)
    requires i <= |text|
    ensures SaysAt(text, phrase, i) <==> Lower(phrase) <= Lower(text)[i..]
  {
    var low, part := Lower(phrase), Lower(text)[i..];
    forall k | 0 <= k < |phrase| && i + k < |text|
      ensures low[k] == part[k] <==> SameLetter(text[i + k], phrase[k])
    {
      SameLetterIsLower(text[i + k], phrase[k]);
    }
    if SaysAt(text, phrase, i) { assert part[..|low|] == low; }
  }

  lemma MentionsIsSays(text: string, phrase: string)
    ensures Mentions(text, phrase) <==> Says(text, phrase)
  {
    ContainsSomewhere(Lower(text), Lower(phrase));
    forall i | 0 <= i <= |text|
      ensures SaysAt(text, phrase, i) <==> Lower(phrase) <= Lower(text)[i..]
    {
      SaysAtIsPrefix(text, phrase, i);
    }
  }

  /** The first 4000 characters of the errors, one to a line. */
  function Blob(errors: seq<string>): string {
    var text := Join(errors, "\n");
    if |text| > 4000 then text[..4000] else text
  }

  predicate RanOut(errors: seq<string>) {
    Says(Blob(errors), "Reached maximum number of turns") || Says(Blob(errors), "Autocompact is thrashing")
  }

  predicate FixedSince(errors: seq<string>) {
    || Says(Blob(errors), "This model does not support user-configurable task budgets")
    || Says(Blob(errors), "Budget exceeded for cron job")
  }

  /** Letter case plays no part, and a job that ran out of turns or context comes first. */
  lemma CategoryExactly(errors: seq<string>)
    ensures ClassifyFailure(errors) ==
            if RanOut(errors) then SafeCronConfig else if FixedSince(errors) then AlreadyFixed else Unknown
  {
    var blob := Blob(errors);
    assert blob == Take(Join(errors, "\n"), 4000);
    MentionsIsSays(blob, "Reached maximum number of turns");
    MentionsIsSays(blob, "Autocompact is thrashing");
    MentionsIsSays(blob, "This model does not support user-configurable task budgets");
    MentionsIsSays(blob, "Budget exceeded for cron job");
  }

  // ---- Where a job is looked for ----

  /** The files that are searched for the job of a trigger, in order, and the name it has in each. */
  function Places(t: Trigger): seq<(Place, string)> {
    if t.agentSlug.Some? && t.agentSlug.value != "" then
      var prefix := t.agentSlug.value + ":";
      var bare :=
        if t.bareName.Some? then t.bareName.value
        else if prefix <= t.jobName then t.jobName[|prefix|..]
        else t.jobName;
      [(Agent(t.agentSlug.value), bare), (Central, t.jobName)]
    else
      var colon := IndexOf(t.jobName, ':');
      [(Central, t.jobName)]
      + if 0 < colon && colon + 1 < |t.jobName| then [(Agent(t.jobName[..colon]), t.jobName[colon + 1..])] else []
  }

  /** A job's name is the text of its name field, and empty without one. */
  lemma NamesAre(j: Job)
    ensures "name" !in j || j["name"].Null? ==> NameOf(j) == ""
    ensures "name" in j && j["name"].Str? ==> NameOf(j) == j["name"].s
    ensures "name" in j && (j["name"].Num? || j["name"].Other?) ==> NameOf(j) == j["name"].text
  {
  }

  predicate Broken(files: Files, place: Place) { place in files && files[place].Unreadable? }

  /** No such file, or a file without such a job. */
  predicate Lacks(files: Files, place: Place, name: string) {
    place in files ==> files[place].Jobs? && forall j :: j in files[place].jobs ==> NameOf(j) != name
  }

  lemma LooksExactly(files: Files, place: Place, name: string)
    ensures LookIn(files, place, name).Threw? <==> Broken(files, place)
    ensures LookIn(files, place, name).Missing? <==> Lacks(files, place, name)
  {
    if place in files && files[place].Jobs? {
      var i := FirstNamed(files[place].jobs, name);
      if i.Some? { assert files[place].jobs[i.value] in files[place].jobs; }
    }
  }

  /** The first of these files that does not lack the job decides: broken, the search fails; else it is found there. */
  lemma FirstPlaceDecides(t: Trigger, files: Files, n: nat)
    requires n < |Places(t)| && !Lacks(files, Places(t)[n].0, Places(t)[n].1)
    requires forall k :: 0 <= k < n ==> Lacks(files, Places(t)[k].0, Places(t)[k].1)
    ensures var r, (place, name) := LoadCronJob(t, files), Places(t)[n];
            if Broken(files, place) then r.LookupThrew?
            else r.Found? && r.place == place && r.bareName == name && NameOf(files[place].jobs[r.index]) == name
  {
    forall k | 0 <= k < |Places(t)|
      ensures var (place, name) := Places(t)[k];
              (LookIn(files, place, name).Threw? <==> Broken(files, place))
              && (LookIn(files, place, name).Missing? <==> Lacks(files, place, name))
    {
      LooksExactly(files, Places(t)[k].0, Places(t)[k].1);
    }
    if n == 1 { assert Lacks(files, Places(t)[0].0, Places(t)[0].1); }
  }

  /** Lacking everywhere, it is not found. */
  lemma LackingEverywhereIsNotFound(t: Trigger, files: Files)
    requires forall k :: 0 <= k < |Places(t)| ==> Lacks(files, Places(t)[k].0, Places(t)[k].1)
    ensures LoadCronJob(t, files).NotFound?
  {
    forall k | 0 <= k < |Places(t)|
      ensures LookIn(files, Places(t)[k].0, Places(t)[k].1).Missing?
    {
      LooksExactly(files, Places(t)[k].0, Places(t)[k].1);
    }
    var places := Places(t);
    assert LookIn(files, places[0].0, places[0].1).Missing?;
    assert |places| > 1 ==> LookIn(files, places[1].0, places[1].1).Missing?;
  }

  // ---- Whose job ----

  /** A string under this key. */
  predicate Tagged(j: Job, key: string) { key in j && j[key].Str? }

  /** An agent's file tells the agent; a central job is the trigger's, or that of its own tag in either spelling. */
  lemma WhoseJob(t: Trigger, files: Files)
    requires LoadCronJob(t, files).Found?
    ensures var r := LoadCronJob(t, files);
            match r.place
            case Agent(slug) => r.agentSlug == Some(slug)
            case Central =>
              var job := files[Central].jobs[r.index];
              r.agentSlug ==
                if t.agentSlug.Some? then t.agentSlug
                else if Tagged(job, "agentSlug") then Some(job["agentSlug"].s)
                else if Tagged(job, "agent_slug") then Some(job["agent_slug"].s)
                else None
  {
  }

  // ---- What becomes of a trigger ----

  /** Already in unleashed mode with at least an hour. */
  predicate Unleashed(j: Job) {
    && "mode" in j && j["mode"] == Str("unleashed")
    && "max_hours" in j && j["max_hours"].Num? && j["max_hours"].n >= 1.0
  }

  /** The entry in unleashed mode, with its own hours if it had any and one otherwise, and nothing else changed. */
  ghost predicate Unleashes(j: Job, r: Job) {
    && Unleashed(r)
    && (if "max_hours" in j && j["max_hours"].Num? && j["max_hours"].n >= 1.0 then r["max_hours"] == j["max_hours"]
        else r["max_hours"] == Num(1.0, "1"))
    && forall k :: k != "mode" && k != "max_hours" ==> (k in r <==> k in j) && (k in j ==> r[k] == j[k])
  }

  /** The job a trigger finds, if any. */
  function JobOf(t: Trigger, files: Files): Option<Job> {
    var r := LoadCronJob(t, files);
    if r.Found? then Some(files[r.place].jobs[r.index]) else None
  }

  /**
   A trigger that does not throw: an unknown failure becomes a proposal; a job that ran out is fixed, or proposed
   where fixes are not to be applied; anything else, a job not found or one fixed before, is let go.
   */
  lemma OutcomeExactly(files: Files, t: Trigger, autoApply: bool)
    requires !LoadCronJob(t, files).LookupThrew?
    ensures var r, job, e := ProcessOne(files, t, autoApply), JobOf(t, files), t.recentErrors;
            var fixable := RanOut(e) && job.Some? && !Unleashed(job.value);
            && r.Some?
            && (r.value.Applied? <==> fixable && autoApply)
            && (r.value.Proposed? <==> (fixable && !autoApply) || (!RanOut(e) && !FixedSince(e)))
  {
    CategoryExactly(t.recentErrors);
  }

  /** A proposal names the job and the failure, and the agent: the trigger's, else the job's, the empty one left out. */
  lemma ProposalExactly(files: Files, t: Trigger, autoApply: bool)
    requires ProcessOne(files, t, autoApply).Some? && ProcessOne(files, t, autoApply).value.Proposed?
    ensures var p, found := ProcessOne(files, t, autoApply).value.proposal, LoadCronJob(t, files);
            && p.jobName == t.jobName && p.recentErrors == t.recentErrors && p.consecutiveErrors == t.consecutiveErrors
            && (p.category.SafeCronConfig? <==> RanOut(t.recentErrors)) && !p.category.AlreadyFixed?
            && (p.agentSlug.Some? ==> p.agentSlug.value != "")
            && (t.agentSlug.Some? && t.agentSlug.value != "" ==> p.agentSlug == t.agentSlug)
            && (t.agentSlug == Some("") ==> p.agentSlug.None?)
            && (t.agentSlug.None? && found.Found? && found.agentSlug != Some("") ==> p.agentSlug == found.agentSlug)
            && (t.agentSlug.None? && !found.Found? ==> p.agentSlug.None?)
  {
    CategoryExactly(t.recentErrors);
  }

  /** A fix changes the one entry that was found, and keeps what it needs to be undone. */
  lemma FixExactly(files: Files, t: Trigger)
    requires ProcessOne(files, t, true).Some? && ProcessOne(files, t, true).value.Applied?
    ensures var e, found := ProcessOne(files, t, true).value, LoadCronJob(t, files);
            && found.Found? && e.files.Keys == files.Keys
            && e.tracker.place == found.place && e.tracker.bareName == found.bareName
            && (forall p :: p in files && p != found.place ==> e.files[p] == files[p])
            && e.files[found.place].Jobs? && |e.files[found.place].jobs| == |files[found.place].jobs|
            && (forall i :: 0 <= i < |files[found.place].jobs| && i != found.index ==>
                  e.files[found.place].jobs[i] == files[found.place].jobs[i])
    ensures var e, found := ProcessOne(files, t, true).value, LoadCronJob(t, files);
            var job := files[found.place].jobs[found.index];
            && Unleashes(job, e.files[found.place].jobs[found.index])
            && e.tracker.prevFields.Keys == {"mode", "max_hours"}
            && forall k :: k in e.tracker.prevFields ==> e.tracker.prevFields[k] == if k in job then job[k] else Null
  {
    var found := LoadCronJob(t, files);
    var job := files[found.place].jobs[found.index];
    AppliedIs(files, t);
    FixUnleashes(job);
    assert Snapshot(job).Keys == {"mode", "max_hours"};
  }

  lemma AppliedIs(files: Files, t: Trigger)
    requires ProcessOne(files, t, true).Some? && ProcessOne(files, t, true).value.Applied?
    ensures var found := LoadCronJob(t, files);
            && found.Found? && found.place in files && files[found.place].Jobs?
            && found.index < |files[found.place].jobs|
            && var job := files[found.place].jobs[found.index];
               ProcessOne(files, t, true).value ==
                 Applied(SetJob(files, found.place, found.index, Fix(job)),
                         Tracker(found.place, found.bareName, Snapshot(job)))
  {
  }

  lemma FixUnleashes(j: Job)
    ensures Unleashes(j, Fix(j))
  {
    assert MODE == "mode" && MAX_HOURS == "max_hours" && MODE != MAX_HOURS;
  }

  // ---- What a tick adds up to ----

  /** What was done with a trigger of this job. */
  datatype Deed = Deed(job: string, effect: Effect)

  /** What the tick did, in order. */
  function Deeds(w: Work, counts: Counts, autoApply: bool, listing: seq<string>): seq<Deed> {
    if listing == [] then []
    else
      var n := |listing| - 1;
      var before := TickAll(w, counts, autoApply, listing[..n]);
      Deeds(w, counts, autoApply, listing[..n]) + if before.died then [] else DeedOf(before.w, autoApply, listing[n])
  }

  function DeedOf(w: Work, autoApply: bool, file: string): seq<Deed> {
    if file in w.triggers && w.triggers[file].Parsed? then
      var t := w.triggers[file].trigger;
      var e := ProcessOne(w.files, t, autoApply);
      if e.Some? then [Deed(t.jobName, e.value)] else []
    else []
  }

  function Proposals(deeds: seq<Deed>): seq<Proposal> {
    if deeds == [] then []
    else
      var e := deeds[|deeds| - 1].effect;
      Proposals(deeds[..|deeds| - 1]) + if e.Proposed? then [e.proposal] else []
  }

  function Fixes(deeds: seq<Deed>): nat {
    if deeds == [] then 0
    else Fixes(deeds[..|deeds| - 1]) + if deeds[|deeds| - 1].effect.Applied? then 1 else 0
  }

  /** The files as the last fix left them. */
  function FilesAfter(files: Files, deeds: seq<Deed>): Files {
    if deeds == [] then files
    else
      var e := deeds[|deeds| - 1].effect;
      if e.Applied? then e.files else FilesAfter(files, deeds[..|deeds| - 1])
  }

  /** The fixes to verify: for every job its last one. */
  function Watched(watched: map<string, Tracker>, deeds: seq<Deed>): map<string, Tracker> {
    if deeds == [] then watched
    else
      var d, before := deeds[|deeds| - 1], Watched(watched, deeds[..|deeds| - 1]);
      if d.effect.Applied? then before[d.job := d.effect.tracker] else before
  }

  predicate AddsUp(w: Work, counts: Counts, r: Ticked, deeds: seq<Deed>) {
    && r.w.proposals == w.proposals + Proposals(deeds)
    && r.w.files == FilesAfter(w.files, deeds)
    && r.w.verifications == Watched(w.verifications, deeds)
    && r.counts.processed == counts.processed + |deeds|
    && r.counts.applied == counts.applied + Fixes(deeds)
    && r.counts.pending == counts.pending + |Proposals(deeds)|
  }

  /** A tick leaves the proposals and fixes of its triggers, in order, watches the fixes, and counts them all. */
  lemma {:induction false} TickAddsUp(w: Work, counts: Counts, autoApply: bool, listing: seq<string>)
    ensures AddsUp(w, counts, TickAll(w, counts, autoApply, listing), Deeds(w, counts, autoApply, listing))
  {
    if listing != [] {
      var n := |listing| - 1;
      TickAddsUp(w, counts, autoApply, listing[..n]);
      var before := TickAll(w, counts, autoApply, listing[..n]);
      var deeds := Deeds(w, counts, autoApply, listing[..n]);
      if before.died {
        assert deeds + [] == deeds;
      } else {
        OneAddsUp(w, counts, autoApply, before, deeds, listing[n]);
      }
    }
  }

  lemma OneAddsUp(w: Work, counts: Counts, autoApply: bool, before: Ticked, deeds: seq<Deed>, file: string)
    requires AddsUp(w, counts, before, deeds)
    ensures AddsUp(w, counts, HandleFile(before.w, before.counts, autoApply, file),
                   deeds + DeedOf(before.w, autoApply, file))
  {
    var more := DeedOf(before.w, autoApply, file);
    if more == [] {
      assert deeds + more == deeds;
    } else {
      ConcludedAddsUp(w, counts, before, deeds, file, before.w.triggers[file].trigger, more[0].effect);
    }
  }

  lemma ConcludedAddsUp(w: Work, counts: Counts, before: Ticked, deeds: seq<Deed>, file: string, t: Trigger, e: Effect)
    requires AddsUp(w, counts, before, deeds)
    ensures AddsUp(w, counts, Conclude(before.w, before.counts, file, t, Some(e)), deeds + [Deed(t.jobName, e)])
  {
    var all := deeds + [Deed(t.jobName, e)];
    assert all[..|deeds|] == deeds && all[|deeds|] == Deed(t.jobName, e);
    if e.Proposed? {
      assert w.proposals + (Proposals(deeds) + [e.proposal]) == before.w.proposals + [e.proposal];
    } else {
      assert Proposals(deeds) + [] == Proposals(deeds);
    }
  }
}
