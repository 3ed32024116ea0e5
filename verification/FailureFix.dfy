/**
 The autonomous fix loop: src/agent/failure-fix-consumer.ts, and the revert of its edits in
 src/gateway/fix-verification.ts. A CRON.md is its list of jobs, a job its frontmatter entry.
 */
module FailureFix {
  import opened Text
  import opened Wrappers

  // ---- Jobs and recipes ----

  /** A YAML value; `text` is what String() makes of it. */
  datatype Value = Null | Str(s: string) | Num(n: real, text: string) | Other(text: string)

  type Job = map<string, Value>

  const MODE := "mode"
  const MAX_HOURS := "max_hours"

  /** The recipe for an exhausted job leaves this entry alone. */
  predicate Fixed(j: Job) {
    && MODE in j && j[MODE] == Str("unleashed")
    && MAX_HOURS in j && j[MAX_HOURS].Num? && j[MAX_HOURS].n >= 1.0
  }

  function Fix(j: Job): Job {
    var j1 := if MODE in j && j[MODE] == Str("unleashed") then j else j[MODE := Str("unleashed")];
    if MAX_HOURS in j1 && j1[MAX_HOURS].Num? && j1[MAX_HOURS].n >= 1.0 then j1 else j1[MAX_HOURS := Num(1.0, "1")]
  }

  /** The recipe reaches its target, stops there, and touches no other key. */
  lemma FixSettles(j: Job)
    ensures Fixed(Fix(j)) && Fix(Fix(j)) == Fix(j)
    ensures Fix(j) == j <==> Fixed(j)
    ensures forall k :: k != MODE && k != MAX_HOURS ==> (k in Fix(j) <==> k in j) && (k in j ==> Fix(j)[k] == j[k])
  {
    if Fixed(j) { assert Fix(j) == j; }
  }

  /** prevFields: Null stands for "was absent". */
  function Snapshot(j: Job): Job {
    map[MODE := if MODE in j then j[MODE] else Null, MAX_HOURS := if MAX_HOURS in j then j[MAX_HOURS] else Null]
  }

  /** revertCronConfig on one entry: Null deletes the key. */
  function Restore(j: Job, prev: Job): Job {
    map k | k in j.Keys + prev.Keys && (k in prev ==> prev[k] != Null) :: if k in prev then prev[k] else j[k]
  }

  predicate NoExplicitNull(j: Job) {
    (MODE in j ==> j[MODE] != Null) && (MAX_HOURS in j ==> j[MAX_HOURS] != Null)
  }

  /** Undoing the recipe gives the entry back exactly when it held no explicit null of its own. */
  lemma RestoreUndoesFix(j: Job)
    ensures Restore(Fix(j), Snapshot(j)) == j <==> NoExplicitNull(j)
  {
    var r := Restore(Fix(j), Snapshot(j));
    if NoExplicitNull(j) {
      assert r.Keys == j.Keys;
      assert r == j;
    } else {
      assert MODE !in r || MAX_HOURS !in r;
    }
  }

  /** An entry that does not come back: its mode was null. */
  lemma ExplicitNullIsLost(name: string)
    ensures var j := map["name" := Str(name), MODE := Null];
            Restore(Fix(j), Snapshot(j)) == map["name" := Str(name)] != j
  {
    var j := map["name" := Str(name), MODE := Null];
    var r := Restore(Fix(j), Snapshot(j));
    assert "name" != MODE && "name" != MAX_HOURS && MODE != MAX_HOURS;
    assert Fix(j).Keys == {"name", MODE, MAX_HOURS};
    assert r.Keys == {"name"} && r["name"] == Str(name);
    assert MODE in j && MODE !in r;
  }

  /** The touched fields are set back to what they were, or removed again, whatever became of them since. */
  lemma RestoreSetsBack(j: Job, edited: Job, k: string)
    requires k == "mode" || k == "max_hours"
    ensures var r := Restore(edited, Snapshot(j));
            if k in j && j[k] != Null then k in r && r[k] == j[k] else k !in r
  {
  }

  /** Whatever else the owner edits before the revert survives it. */
  lemma RestoreKeepsOtherEdits(j: Job, edited: Job, k: string)
    requires k != MODE && k != MAX_HOURS
    ensures var r := Restore(edited, Snapshot(j)); (k in r <==> k in edited) && (k in r ==> r[k] == edited[k])
  {
  }

  // ---- Which failure ----

  datatype Category = SafeCronConfig | AlreadyFixed | Unknown

  predicate Mentions(blob: string, phrase: string) { Contains(Lower(blob), Lower(phrase)) }

  function ClassifyFailure(recentErrors: seq<string>): Category {
    var blob := Take(Join(recentErrors, "\n"), 4000);
    if Mentions(blob, "Reached maximum number of turns") then SafeCronConfig
    else if Mentions(blob, "Autocompact is thrashing") then SafeCronConfig
    else if Mentions(blob, "This model does not support user-configurable task budgets")
      || Mentions(blob, "Budget exceeded for cron job")
    then AlreadyFixed
    else Unknown
  }

  // ---- Finding the job ----

  /** A CRON.md that parses, or one whose frontmatter does not. */
  datatype CronFile = Unreadable | Jobs(jobs: seq<Job>)

  datatype Place = Central | Agent(slug: string)

  type Files = map<Place, CronFile>

  datatype Trigger = Trigger(jobName: string, bareName: Option<string>, agentSlug: Option<string>,
                             consecutiveErrors: nat, recentErrors: seq<string>)

  /** `String(j.name ?? '')`. */
  function NameOf(j: Job): string {
    if "name" !in j then ""
    else
      match j["name"]
      case Null => ""
      case Str(s) => s
      case Num(_, text) => text
      case Other(text) => text
  }

  function FirstNamed(jobs: seq<Job>, name: string): (r: Option<nat>)
    ensures r.Some? ==>
              && r.value < |jobs| && NameOf(jobs[r.value]) == name
              && forall i :: 0 <= i < r.value ==> NameOf(jobs[i]) != name
    ensures r.None? ==> forall i :: 0 <= i < |jobs| ==> NameOf(jobs[i]) != name
  {
    if jobs == [] then None
    else if NameOf(jobs[0]) == name then Some(0)
    else
      var rest := FirstNamed(jobs[1..], name);
      if rest.None? then None else Some(rest.value + 1)
  }

  datatype Search = Threw | Missing | At(index: nat)

  function LookIn(files: Files, place: Place, name: string): (r: Search)
    ensures r.At? ==> place in files && files[place].Jobs? && r.index < |files[place].jobs|
  {
    if place !in files then Missing
    else if files[place].Unreadable? then Threw
    else
      var i := FirstNamed(files[place].jobs, name);
      if i.None? then Missing else At(i.value)
  }

  datatype Lookup = LookupThrew | NotFound
    | Found(place: Place, index: nat, bareName: string, agentSlug: Option<string>)

  predicate Explicit(t: Trigger) { t.agentSlug.Some? && t.agentSlug.value != "" }

  function BareName(t: Trigger): string {
    if t.bareName.Some? then t.bareName.value
    else if Explicit(t) && t.agentSlug.value + ":" <= t.jobName then t.jobName[|t.agentSlug.value| + 1..]
    else t.jobName
  }

  function ReadAgentSlug(j: Job): Option<string> {
    if "agentSlug" in j && j["agentSlug"].Str? then Some(j["agentSlug"].s)
    else if "agent_slug" in j && j["agent_slug"].Str? then Some(j["agent_slug"].s)
    else None
  }

  /** The agent's own file by bare name, then the central file by full name, then the file its name suggests. */
  function LoadCronJob(t: Trigger, files: Files): (r: Lookup)
    ensures r.Found? ==>
      && r.place in files && files[r.place].Jobs? && r.index < |files[r.place].jobs|
      && FirstNamed(files[r.place].jobs, r.bareName) == Some(r.index)
  {
    var own := if Explicit(t) then LookIn(files, Agent(t.agentSlug.value), BareName(t)) else Missing;
    match own
    case Threw => LookupThrew
    case At(i) => Found(Agent(t.agentSlug.value), i, BareName(t), t.agentSlug)
    case Missing =>
      match LookIn(files, Central, t.jobName)
      case Threw => LookupThrew
      case At(i) =>
        var slug := if t.agentSlug.Some? then t.agentSlug else ReadAgentSlug(files[Central].jobs[i]);
        Found(Central, i, t.jobName, slug)
      case Missing => if Explicit(t) then NotFound else LookInferred(t, files)
  }

  function LookInferred(t: Trigger, files: Files): (r: Lookup)
    ensures r.Found? ==>
      && r.place in files && files[r.place].Jobs? && r.index < |files[r.place].jobs|
      && FirstNamed(files[r.place].jobs, r.bareName) == Some(r.index)
  {
    var colon := IndexOf(t.jobName, ':');
    if colon == 0 || colon >= |t.jobName| - 1 then NotFound
    else
      var slug, bare := t.jobName[..colon], t.jobName[colon + 1..];
      match LookIn(files, Agent(slug), bare)
      case Threw => LookupThrew
      case Missing => NotFound
      case At(i) => Found(Agent(slug), i, bare, Some(slug))
  }

  /** What is found in one place was not to be found in the places searched before it. */
  lemma SearchOrder(t: Trigger, files: Files)
    ensures var r := LoadCronJob(t, files);
            && (Explicit(t) && LookIn(files, Agent(t.agentSlug.value), BareName(t)).At? ==>
              r.Found? && r.place == Agent(t.agentSlug.value))
            && (r.Found? && r.place.Central? && Explicit(t) ==>
              LookIn(files, Agent(t.agentSlug.value), BareName(t)).Missing?)
            && (r.Found? && r.place.Agent? && !Explicit(t) ==>
                  LookIn(files, Central, t.jobName).Missing? && t.jobName == r.place.slug + ":" + r.bareName)
  {
    var colon := IndexOf(t.jobName, ':');
    if colon < |t.jobName| { assert t.jobName == t.jobName[..colon] + ":" + t.jobName[colon + 1..]; }
  }

  lemma {:induction false} ColonIsFirst(slug: string, bare: string)
    requires ':' !in slug
    ensures IndexOf(slug + ":" + bare, ':') == |slug|
  {
    if slug != "" {
      assert (slug + ":" + bare)[1..] == slug[1..] + ":" + bare;
      ColonIsFirst(slug[1..], bare);
    }
  }

  /**
   Older triggers carry no slug. They find the same job as newer ones exactly when one of the two files lacks
   the name, or neither can be read.
   */
  lemma OlderTriggersFindTheSameJob(t: Trigger, slug: string, bare: string, files: Files)
    requires slug != "" && bare != "" && ':' !in slug
    requires t.jobName == slug + ":" + bare && t.bareName.None? && t.agentSlug == Some(slug)
    ensures var own, central := LookIn(files, Agent(slug), bare), LookIn(files, Central, t.jobName);
            SamePosition(LoadCronJob(t, files), LoadCronJob(t.(agentSlug := None), files)) <==>
              own.Missing? || central.Missing? || (own.Threw? && central.Threw?)
  {
    ColonIsFirst(slug, bare);
    assert slug + ":" <= t.jobName;
    assert t.jobName[|slug| + 1..] == bare && t.jobName[..|slug|] == slug;
  }

  predicate SamePosition(a: Lookup, b: Lookup) {
    (a.LookupThrew? <==> b.LookupThrew?) && (a.Found? <==> b.Found?)
    && (a.Found? ==> a.place == b.place && a.index == b.index && a.bareName == b.bareName)
  }

  // ---- One trigger ----

  datatype Proposal = Proposal(jobName: string, agentSlug: Option<string>, category: Category,
    consecutiveErrors: nat, recentErrors: seq<string>)

  /** What fix-verification keeps to undo an edit. */
  datatype Tracker = Tracker(place: Place, bareName: string, prevFields: Job)

  datatype Effect = Applied(files: Files, tracker: Tracker) | Proposed(proposal: Proposal) | Noop

  function SetJob(files: Files, place: Place, i: nat, j: Job): Files
    requires place in files && files[place].Jobs? && i < |files[place].jobs|
  {
    files[place := Jobs(files[place].jobs[i := j])]
  }

  function Propose(t: Trigger, found: Lookup, category: Category): Proposal {
    var slug := if t.agentSlug.Some? then t.agentSlug else if found.Found? then found.agentSlug else None;
    Proposal(t.jobName, if slug == Some("") then None else slug, category, t.consecutiveErrors, t.recentErrors)
  }

  /** processOne: None when it throws, and then nothing has changed yet. */
  function ProcessOne(files: Files, t: Trigger, autoApply: bool): Option<Effect> {
    var category, found := ClassifyFailure(t.recentErrors), LoadCronJob(t, files);
    if found.LookupThrew? then None
    else
      match category
      case AlreadyFixed => Some(Noop)
      case Unknown => Some(Proposed(Propose(t, found, category)))
      case SafeCronConfig =>
        if found.NotFound? then Some(Noop)
        else Some(SafeFix(files, t, found, autoApply))
  }

  function SafeFix(files: Files, t: Trigger, found: Lookup, autoApply: bool): Effect
    requires found.Found? && found.place in files && files[found.place].Jobs?
    requires found.index < |files[found.place].jobs|
  {
    var job := files[found.place].jobs[found.index];
    if Fixed(job) then Noop
    else if !autoApply then Proposed(Propose(t, found, SafeCronConfig))
    else Applied(SetJob(files, found.place, found.index, Fix(job)),
                 Tracker(found.place, found.bareName, Snapshot(job)))
  }

  /** Lookups depend on names and readability only. */
  ghost predicate SameNames(f: Files, g: Files) {
    && f.Keys == g.Keys
    && (forall p :: p in f ==> (f[p].Jobs? <==> g[p].Jobs?))
    && (forall p :: p in f && f[p].Jobs? ==> |f[p].jobs| == |g[p].jobs|)
    && (forall p, i :: p in f && f[p].Jobs? && 0 <= i < |f[p].jobs| ==> NameOf(f[p].jobs[i]) == NameOf(g[p].jobs[i]))
  }

  lemma LookInIsStable(f: Files, g: Files, p: Place, name: string)
    requires SameNames(f, g)
    ensures LookIn(f, p, name) == LookIn(g, p, name)
  {
    if p in f && f[p].Jobs? {
      var i, k := FirstNamed(f[p].jobs, name), FirstNamed(g[p].jobs, name);
      if i.Some? { assert NameOf(f[p].jobs[i.value]) == NameOf(g[p].jobs[i.value]); }
      if k.Some? { assert NameOf(f[p].jobs[k.value]) == NameOf(g[p].jobs[k.value]); }
    }
  }

  lemma LookupIsStable(t: Trigger, f: Files, g: Files)
    requires SameNames(f, g)
    ensures SamePosition(LoadCronJob(t, f), LoadCronJob(t, g))
  {
    var colon := IndexOf(t.jobName, ':');
    if Explicit(t) { LookInIsStable(f, g, Agent(t.agentSlug.value), BareName(t)); }
    LookInIsStable(f, g, Central, t.jobName);
    if 0 < colon < |t.jobName| - 1 { LookInIsStable(f, g, Agent(t.jobName[..colon]), t.jobName[colon + 1..]); }
  }

  lemma EditKeepsNames(files: Files, place: Place, i: nat, j: Job)
    requires place in files && files[place].Jobs? && i < |files[place].jobs|
      && NameOf(j) == NameOf(files[place].jobs[i])
    ensures SameNames(files, SetJob(files, place, i, j))
  {
  }

  lemma ProcessingKeepsNames(files: Files, t: Trigger, autoApply: bool)
    ensures var e := ProcessOne(files, t, autoApply);
            e.Some? && e.value.Applied? ==> SameNames(files, e.value.files)
  {
    var found := LoadCronJob(t, files);
    if found.Found? {
      var job := files[found.place].jobs[found.index];
      FixSettles(job);
      EditKeepsNames(files, found.place, found.index, Fix(job));
    }
  }

  /** A trigger whose fix has been applied is a no-op the next time. */
  lemma ReapplyIsNoop(files: Files, t: Trigger)
    ensures var e := ProcessOne(files, t, true);
            e.Some? && e.value.Applied? ==> ProcessOne(e.value.files, t, true) == Some(Noop)
  {
    var e, found := ProcessOne(files, t, true), LoadCronJob(t, files);
    if e.Some? && e.value.Applied? {
      FixSettles(files[found.place].jobs[found.index]);
      ProcessingKeepsNames(files, t, true);
      LookupIsStable(t, files, e.value.files);
    }
  }

  // ---- Undo ----

  /** revertCronConfig on the file. */
  function Revert(files: Files, tracker: Tracker): Files {
    if tracker.bareName == "" || tracker.place !in files || files[tracker.place].Unreadable? then files
    else
      var i := FirstNamed(files[tracker.place].jobs, tracker.bareName);
      if i.None? then files
      else SetJob(files, tracker.place, i.value, Restore(files[tracker.place].jobs[i.value], tracker.prevFields))
  }

  /**
   The revert restores every CRON.md exactly when the job has a name and neither touched field was
   explicitly null.
   */
  lemma RevertUndoesTheFix(files: Files, t: Trigger)
    ensures var e, found := ProcessOne(files, t, true), LoadCronJob(t, files);
            e.Some? && e.value.Applied? ==>
              (Revert(e.value.files, e.value.tracker) == files
               <==> found.bareName != "" && NoExplicitNull(files[found.place].jobs[found.index]))
  {
    var e, found := ProcessOne(files, t, true), LoadCronJob(t, files);
    if e.Some? && e.value.Applied? { RevertUndoesTheEdit(files, found.place, found.index, found.bareName); }
  }

  lemma RevertUndoesTheEdit(files: Files, place: Place, i: nat, name: string)
    requires place in files && files[place].Jobs? && FirstNamed(files[place].jobs, name) == Some(i)
    requires !Fixed(files[place].jobs[i])
    ensures var job := files[place].jobs[i];
            Revert(SetJob(files, place, i, Fix(job)), Tracker(place, name, Snapshot(job))) == files
            <==> name != "" && NoExplicitNull(job)
  {
    var job := files[place].jobs[i];
    FixSettles(job);
    RestoreUndoesFix(job);
    EditKeepsFirst(files[place].jobs, i, Fix(job), name);
    SetTwice(files, place, i, Fix(job), Restore(Fix(job), Snapshot(job)));
    SetTwice(files, place, i, job, Fix(job));
  }

  lemma SetTwice(files: Files, place: Place, i: nat, j: Job, k: Job)
    requires place in files && files[place].Jobs? && i < |files[place].jobs|
    ensures SetJob(files, place, i, files[place].jobs[i]) == files
    ensures SetJob(SetJob(files, place, i, j), place, i, k) == SetJob(files, place, i, k)
    ensures SetJob(files, place, i, k) == files <==> k == files[place].jobs[i]
  {
    var jobs := files[place].jobs;
    assert jobs[i := jobs[i]] == jobs && jobs[i := j][i := k] == jobs[i := k];
    assert SetJob(files, place, i, k)[place].jobs[i] == k;
  }

  lemma EditKeepsFirst(jobs: seq<Job>, i: nat, j: Job, name: string)
    requires FirstNamed(jobs, name) == Some(i) && NameOf(j) == name
    ensures FirstNamed(jobs[i := j], name) == Some(i)
  {
    assert NameOf(jobs[i := j][i]) == name;
    var edited := jobs[i := j];
    assert forall m :: 0 <= m < i ==> NameOf(edited[m]) != name;
  }

  // ---- The queue ----

  /**
   A trigger file: not JSON, the JSON value null, a value without recentErrors, or a trigger.
   */
  datatype Content = Garbage | NullValue | Incomplete | Parsed(trigger: Trigger)

  datatype Counts = Counts(processed: nat, applied: nat, pending: nat, noop: nat)

  datatype Work = Work(files: Files, triggers: map<string, Content>, proposals: seq<Proposal>,
    verifications: map<string, Tracker>)

  /** Processing this trigger throws; the fixes of a tick never change that. */
  predicate Throws(files: Files, c: Content) {
    c.Incomplete? || (c.Parsed? && LoadCronJob(c.trigger, files).LookupThrew?)
  }

  function Perform(w: Work, t: Trigger, e: Effect): Work {
    match e
    case Applied(files, tracker) => w.(files := files, verifications := w.verifications[t.jobName := tracker])
    case Proposed(p) => w.(proposals := w.proposals + [p])
    case Noop => w
  }

  function Count(c: Counts, e: Effect): Counts {
    match e
    case Applied(_, _) => c.(applied := c.applied + 1)
    case Proposed(_) => c.(pending := c.pending + 1)
    case Noop => c.(noop := c.noop + 1)
  }

  datatype Ticked = Ticked(w: Work, counts: Counts, died: bool)

  function HandleFile(w: Work, counts: Counts, autoApply: bool, file: string): Ticked {
    if file !in w.triggers then Ticked(w, counts, false)
    else
      match w.triggers[file]
      case Garbage => Ticked(w.(triggers := w.triggers - {file}), counts, false)
      case NullValue => Ticked(w, counts, true)
      case Incomplete => Ticked(w, counts, false)
      case Parsed(t) => Conclude(w, counts, file, t, ProcessOne(w.files, t, autoApply))
  }

  /** The trigger stays when its processing threw, and is unlinked and counted otherwise. */
  function Conclude(w: Work, counts: Counts, file: string, t: Trigger, e: Option<Effect>): Ticked {
    if e.None? then Ticked(w, counts, false)
    else
      var w', c' := Perform(w, t, e.value), Count(counts, e.value);
      Ticked(w'.(triggers := w'.triggers - {file}), c'.(processed := c'.processed + 1), false)
  }

  function TickAll(w: Work, counts: Counts, autoApply: bool, listing: seq<string>): Ticked {
    if listing == [] then Ticked(w, counts, false)
    else
      var r := TickAll(w, counts, autoApply, listing[..|listing| - 1]);
      if r.died then r else HandleFile(r.w, r.counts, autoApply, listing[|listing| - 1])
  }

  const ZERO := Counts(0, 0, 0, 0)

  predicate Balanced(c: Counts) { c.processed == c.applied + c.pending + c.noop }

  predicate Distinct(s: seq<string>) { forall i, j :: 0 <= i < j < |s| ==> s[i] != s[j] }

  /** Which triggers a tick leaves behind: those not listed, and those whose processing threw. */
  ghost predicate LeftBehind(w: Work, w': Work, listing: seq<string>) {
    forall f :: f in w'.triggers <==> f in w.triggers && (f !in listing || Throws(w.files, w.triggers[f]))
  }

  ghost predicate Untouched(w: Work, w': Work) {
    forall f :: f in w'.triggers ==> f in w.triggers && w'.triggers[f] == w.triggers[f]
  }

  lemma RemovedLeaves(w: Work, w': Work, f: string)
    requires f in w.triggers && w'.triggers == w.triggers - {f} && !Throws(w.files, w.triggers[f])
    ensures Untouched(w, w') && LeftBehind(w, w', [f])
  {
  }

  lemma KeptLeaves(w: Work, f: string)
    requires f !in w.triggers || Throws(w.files, w.triggers[f])
    ensures Untouched(w, w) && LeftBehind(w, w, [f])
  {
  }

  /** One file of the tick: what it leaves, and that its books balance. */
  lemma HandleLeaves(w: Work, counts: Counts, autoApply: bool, f: string)
    ensures var r := HandleFile(w, counts, autoApply, f);
            && (Balanced(counts) ==> Balanced(r.counts))
            && SameNames(w.files, r.w.files) && Untouched(w, r.w)
            && (!r.died ==> LeftBehind(w, r.w, [f]))
            && (r.died <==> f in w.triggers && w.triggers[f].NullValue?)
  {
    var r := HandleFile(w, counts, autoApply, f);
    if f !in w.triggers {
      KeptLeaves(w, f);
    } else {
      match w.triggers[f]
      case Garbage => RemovedLeaves(w, r.w, f);
      case NullValue =>
      case Incomplete => KeptLeaves(w, f);
      case Parsed(t) => HandleTriggerLeaves(w, counts, autoApply, f, t);
    }
  }

  lemma HandleTriggerLeaves(w: Work, counts: Counts, autoApply: bool, f: string, t: Trigger)
    requires f in w.triggers && w.triggers[f] == Parsed(t)
    ensures var r := HandleFile(w, counts, autoApply, f);
            && (Balanced(counts) ==> Balanced(r.counts))
            && SameNames(w.files, r.w.files) && Untouched(w, r.w) && LeftBehind(w, r.w, [f]) && !r.died
  {
    ProcessThrowsExactly(w.files, t, autoApply);
    ProcessingKeepsNames(w.files, t, autoApply);
    ConcludeLeaves(w, counts, f, t, ProcessOne(w.files, t, autoApply));
  }

  lemma ConcludeLeaves(w: Work, counts: Counts, f: string, t: Trigger, e: Option<Effect>)
    requires f in w.triggers && (e.None? <==> Throws(w.files, w.triggers[f]))
    requires e.Some? && e.value.Applied? ==> SameNames(w.files, e.value.files)
    ensures var r := Conclude(w, counts, f, t, e);
            && (Balanced(counts) ==> Balanced(r.counts))
            && SameNames(w.files, r.w.files) && Untouched(w, r.w) && LeftBehind(w, r.w, [f]) && !r.died
  {
    if e.None? { KeptLeaves(w, f); } else { RemovedLeaves(w, Conclude(w, counts, f, t, e).w, f); }
  }

  lemma ProcessThrowsExactly(files: Files, t: Trigger, autoApply: bool)
    ensures ProcessOne(files, t, autoApply).None? <==> Throws(files, Parsed(t))
  {
  }

  /**
   Every tick accounts for what it processed, and a tick that runs to its end leaves on disk exactly the
   triggers whose processing threw.
   */
  lemma {:induction false} TickIsExact(w: Work, autoApply: bool, listing: seq<string>)
    requires Distinct(listing)
    ensures var r := TickAll(w, ZERO, autoApply, listing);
            && Balanced(r.counts) && SameNames(w.files, r.w.files) && Untouched(w, r.w)
            && (!r.died ==> LeftBehind(w, r.w, listing))
  {
    if listing != [] {
      var front, f := listing[..|listing| - 1], listing[|listing| - 1];
      TickIsExact(w, autoApply, front);
      var m := TickAll(w, ZERO, autoApply, front);
      assert listing == front + [f];
      if !m.died {
        HandleLeaves(m.w, m.counts, autoApply, f);
        ThrowsIsStable(w, m.w);
      }
    }
  }

  lemma ThrowsIsStable(w: Work, m: Work)
    requires SameNames(w.files, m.files)
    ensures forall c :: Throws(w.files, c) <==> Throws(m.files, c)
  {
    forall c: Content | c.Parsed?
      ensures Throws(w.files, c) <==> Throws(m.files, c)
    {
      LookupIsStable(c.trigger, w.files, m.files);
    }
  }

  /** A tick dies exactly when a listed trigger file holds null, and such a file is never removed. */
  lemma {:induction false} NullBlocksTheQueue(w: Work, counts: Counts, autoApply: bool, listing: seq<string>)
    requires Distinct(listing)
    ensures TickAll(w, counts, autoApply, listing).died
      <==> exists f :: f in listing && f in w.triggers && w.triggers[f].NullValue?
    ensures forall f :: f in w.triggers && (w.triggers[f].NullValue? || f !in listing) ==>
              f in TickAll(w, counts, autoApply, listing).w.triggers
                && TickAll(w, counts, autoApply, listing).w.triggers[f] == w.triggers[f]
    ensures Untouched(w, TickAll(w, counts, autoApply, listing).w)
  {
    if listing != [] {
      var front, f := listing[..|listing| - 1], listing[|listing| - 1];
      NullBlocksTheQueue(w, counts, autoApply, front);
      var m := TickAll(w, counts, autoApply, front);
      assert listing == front + [f];
      if !m.died {
        HandleLeaves(m.w, m.counts, autoApply, f);
      } else {
        var g :| g in front && g in w.triggers && w.triggers[g].NullValue?;
        assert g in listing;
      }
    }
  }

  /** Nothing behind the file that kills a tick is looked at, in this tick or any later one. */
  lemma {:induction false} DeadTickStops(w: Work, counts: Counts, autoApply: bool, front: seq<string>,
    behind: seq<string>)
    requires TickAll(w, counts, autoApply, front).died
    ensures TickAll(w, counts, autoApply, front + behind) == TickAll(w, counts, autoApply, front)
  {
    if behind == [] {
      assert front + behind == front;
    } else {
      assert (front + behind)[..|front + behind| - 1] == front + behind[..|behind| - 1];
      DeadTickStops(w, counts, autoApply, front, behind[..|behind| - 1]);
    }
  }

  // ---- The consumer ----

  /** A job's entry as parsed, which the recipe mutates. */
  class JobEntry {
    var fields: Job

    constructor (fields: Job)
      ensures this.fields == fields
    {
      this.fields := fields;
    }

    method Apply() returns (changed: bool)
      modifies this
      ensures fields == Fix(old(fields)) && changed == !Fixed(old(fields))
    {
      changed := false;
      if !(MODE in fields && fields[MODE] == Str("unleashed")) {
        fields := fields[MODE := Str("unleashed")];
        changed := true;
      }
      if !(MAX_HOURS in fields && fields[MAX_HOURS].Num?) || fields[MAX_HOURS].n < 1.0 {
        fields := fields[MAX_HOURS := Num(1.0, "1")];
        changed := true;
      }
    }
  }

  class FailureFixConsumer {
    const allowAutoApplySafeFixes: bool
    var ticking: bool
    var files: Files
    var triggers: map<string, Content>
    var proposals: seq<Proposal>
    var verifications: map<string, Tracker>

    function Disk(): Work
      reads this
    {
      Work(files, triggers, proposals, verifications)
    }

    /** None when nothing had to change. */
    method ApplyCronEdit(found: Lookup) returns (prevFields: Option<Job>)
      requires found.Found? && found.place in files && files[found.place].Jobs?
        && found.index < |files[found.place].jobs|
      modifies this`files
      ensures var job := old(files)[found.place].jobs[found.index];
              if Fixed(job) then prevFields == None && files == old(files)
              else prevFields == Some(Snapshot(job)) && files == SetJob(old(files), found.place, found.index, Fix(job))
    {
      var entry := new JobEntry(files[found.place].jobs[found.index]);
      var fields := [MODE, MAX_HOURS];
      var prev: Job := map[];
      for i := 0 to |fields|
        invariant prev.Keys == set k | k in fields[..i]
        invariant forall k :: k in prev ==> prev[k] == if k in entry.fields then entry.fields[k] else Null
        invariant entry.fields == old(files)[found.place].jobs[found.index]
      {
        assert fields[..i + 1] == fields[..i] + [fields[i]];
        prev := prev[fields[i] := if fields[i] in entry.fields then entry.fields[fields[i]] else Null];
      }
      assert fields[..|fields|] == fields;
      assert prev.Keys == {MODE, MAX_HOURS};
      assert prev == Snapshot(entry.fields);
      var changed := entry.Apply();
      if !changed { return None; }
      files := SetJob(files, found.place, found.index, entry.fields);
      return Some(prev);
    }

    /** False when it throws. */
    method ProcessTrigger(t: Trigger, counts0: Counts) returns (counts: Counts, ok: bool)
      modifies this
      ensures var e := ProcessOne(old(files), t, allowAutoApplySafeFixes);
              && ok == e.Some?
              && Disk() == (if ok then Perform(old(Disk()), t, e.value) else old(Disk()))
              && counts == (if ok then Count(counts0, e.value) else counts0)
      ensures ticking == old(ticking)
    {
      counts := counts0;
      var category, found := ClassifyFailure(t.recentErrors), LoadCronJob(t, files);
      if found.LookupThrew? { return counts, false; }
      ok := true;
      if category == SafeCronConfig {
        if found.NotFound? {
          counts := counts.(noop := counts.noop + 1);
          return;
        }
        counts := ApplySafeFix(t, found, counts);
        return;
      }
      if category == AlreadyFixed {
        counts := counts.(noop := counts.noop + 1);
        return;
      }
      proposals := proposals + [Propose(t, found, category)];
      counts := counts.(pending := counts.pending + 1);
    }

    /** A recognised failure of a job that was found: fixed already, proposed, or fixed now. */
    method ApplySafeFix(t: Trigger, found: Lookup, counts0: Counts) returns (counts: Counts)
      requires found.Found? && found.place in files && files[found.place].Jobs?
      requires found.index < |files[found.place].jobs|
      modifies this
      ensures var e := SafeFix(old(files), t, found, allowAutoApplySafeFixes);
              Disk() == Perform(old(Disk()), t, e) && counts == Count(counts0, e)
      ensures ticking == old(ticking)
    {
      counts := counts0;
      var copy := new JobEntry(files[found.place].jobs[found.index]);
      var wouldChange := copy.Apply();
      if !wouldChange {
        counts := counts.(noop := counts.noop + 1);
        return;
      }
      if !allowAutoApplySafeFixes {
        proposals := proposals + [Propose(t, found, SafeCronConfig)];
        counts := counts.(pending := counts.pending + 1);
        return;
      }
      var prevFields := ApplyCronEdit(found);
      if prevFields.None? {
        // The dry run on the copy has already answered this.
        assert false;
      }
      counts := counts.(applied := counts.applied + 1);
      verifications := verifications[t.jobName := Tracker(found.place, found.bareName, prevFields.value)];
    }

    method HandleTrigger(file: string, counts0: Counts) returns (counts: Counts, died: bool)
      modifies this
      ensures Ticked(Disk(), counts, died) == HandleFile(old(Disk()), counts0, allowAutoApplySafeFixes, file)
      ensures ticking == old(ticking)
    {
      counts, died := counts0, false;
      if file !in triggers || triggers[file].Garbage? {
        triggers := triggers - {file};
        return;
      }
      match triggers[file]
      case NullValue => died := true;
      case Incomplete =>
      case Parsed(t) =>
        var ok;
        counts, ok := ProcessTrigger(t, counts);
        if ok {
          triggers := triggers - {file};
          counts := counts.(processed := counts.processed + 1);
        }
    }

    /** A tick during a tick does nothing; `died` says that it throws. */
    method Tick(listing: seq<string>) returns (counts: Counts, died: bool)
      modifies this
      ensures ticking == old(ticking)
      ensures old(ticking) ==> counts == ZERO && !died && Disk() == old(Disk())
      ensures !old(ticking) ==>
                Ticked(Disk(), counts, died) == TickAll(old(Disk()), ZERO, allowAutoApplySafeFixes, listing)
    {
      if ticking { return ZERO, false; }
      ticking, counts, died := true, ZERO, false;
      for i := 0 to |listing|
        invariant !died && ticking && !old(ticking)
        invariant Ticked(Disk(), counts, died) == TickAll(old(Disk()), ZERO, allowAutoApplySafeFixes, listing[..i])
      {
        assert listing[..i + 1][..i] == listing[..i];
        counts, died := HandleTrigger(listing[i], counts);
        if died {
          assert listing == listing[..i + 1] + listing[i + 1..];
          DeadTickStops(old(Disk()), ZERO, allowAutoApplySafeFixes, listing[..i + 1], listing[i + 1..]);
          ticking := false;
          return;
        }
      }
      assert listing[..|listing|] == listing;
      ticking := false;
    }
  }
}
