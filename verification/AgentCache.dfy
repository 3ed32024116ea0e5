/**
 The agent profile cache: src/agent/agent-manager.ts. The agents directory maps the name of each of its
 subdirectories to the text of its agent.md, or to None when there is none; the empty name stands for the
 agents directory itself.
 */
module AgentCache {
  import opened Wrappers

  const CACHE_TTL_MS := 60_000

  datatype Profile = Profile(slug: string, fields: string)

  type Directory = map<string, Option<string>>

  /** loadAgentFile: a function of the slug and the text, None when it throws. */
  type Loader = (string, string) -> Option<Profile>

  predicate Listed(slug: string) { slug != "" && slug[0] != '_' }

  predicate HasFile(dirs: Directory, slug: string) { slug in dirs && dirs[slug].Some? }

  predicate Loads(load: Loader, dirs: Directory, slug: string) {
    Listed(slug) && HasFile(dirs, slug) && load(slug, dirs[slug].value).Some?
  }

  /** A fresh read of the agents directory. */
  function Fresh(load: Loader, dirs: Directory): map<string, Profile> {
    map slug | slug in dirs && Loads(load, dirs, slug) :: load(slug, dirs[slug].value).value
  }

  // ---- Slugs of new agents ----

  predicate SlugChar(c: char) { 'a' <= c <= 'z' || '0' <= c <= '9' }

  /** `replace(/[^a-z0-9]+/g, '-')`; `inRun` says that a dash already stands for the run being read. */
  function Dashed(s: string, inRun: bool): (r: string)
    ensures forall i :: 0 <= i < |r| ==> SlugChar(r[i]) || r[i] == '-'
  {
    if s == [] then []
    else if SlugChar(s[0]) then [s[0]] + Dashed(s[1..], false)
    else if inRun then Dashed(s[1..], true)
    else ['-'] + Dashed(s[1..], true)
  }

  /** The slug of the lower-cased name: dashes for runs of other characters, one trimmed at each end. */
  function Slug(lower: string): (r: string)
    ensures forall i :: 0 <= i < |r| ==> SlugChar(r[i]) || r[i] == '-'
  {
    var d := Dashed(lower, false);
    var head := if d != [] && d[0] == '-' then d[1..] else d;
    if head != [] && head[|head| - 1] == '-' then head[..|head| - 1] else head
  }

  /** Every letter or digit of the name survives, in order. */
  function Core(s: string): string {
    if s == [] then [] else if SlugChar(s[0]) then [s[0]] + Core(s[1..]) else Core(s[1..])
  }

  lemma {:induction false} CoreAppend(a: string, b: string)
    ensures Core(a + b) == Core(a) + Core(b)
  {
    if a == [] {
      assert a + b == b;
    } else {
      assert (a + b)[1..] == a[1..] + b;
      CoreAppend(a[1..], b);
    }
  }

  lemma {:induction false} DashedKeepsCore(s: string, inRun: bool)
    ensures Core(Dashed(s, inRun)) == Core(s)
  {
    if s != [] {
      DashedKeepsCore(s[1..], false);
      DashedKeepsCore(s[1..], true);
      assert forall t: string, c :: ([c] + t)[1..] == t;
    }
  }

  /** No two dashes in a row, and none at the front right after a run. */
  lemma {:induction false} DashedIsSingle(s: string, inRun: bool)
    ensures var d := Dashed(s, inRun);
            (inRun && d != [] ==> d[0] != '-') && forall i :: 0 < i < |d| ==> d[i - 1] != '-' || d[i] != '-'
  {
    if s != [] {
      DashedIsSingle(s[1..], false);
      DashedIsSingle(s[1..], true);
    }
  }

  lemma CoreOfDash()
    ensures Core("-") == []
  {
    assert "-"[1..] == "";
  }

  /**
   A slug keeps the letters and digits of the name and never starts or ends with a dash, so an agent
   directory is always listed unless the name has no letter or digit at all.
   */
  lemma SlugIsCanonical(lower: string)
    ensures Core(Slug(lower)) == Core(lower)
    ensures Slug(lower) != "" ==> SlugChar(Slug(lower)[0]) && SlugChar(Slug(lower)[|Slug(lower)| - 1])
    ensures Listed(Slug(lower)) <==> Core(lower) != ""
  {
    var d := Dashed(lower, false);
    DashedKeepsCore(lower, false);
    DashedIsSingle(lower, false);
    CoreOfDash();
    var head := if d != [] && d[0] == '-' then d[1..] else d;
    if head != d {
      assert d == "-" + head;
      CoreAppend("-", head);
    }
    var r := Slug(lower);
    if r != head {
      assert head == r + "-";
      CoreAppend(r, "-");
    }
    assert Core(r) == Core(lower);
    if r != [] { assert Core(r) == [r[0]] + Core(r[1..]); }
  }

  // ---- The manager as a state machine ----

  datatype Manager = Manager(dirs: Directory, cache: map<string, Profile>, cacheTime: int)

  datatype Op =
    | Get(slug: string)
    | ListAll
    | Create(lower: string, content: string)
    /** `edit` is the new text; None when the old one cannot be parsed. */
    | Update(slug: string, edit: string -> Option<string>)
    | Delete(slug: string)
    | Invalidate
    /** Somebody else changes the directory. */
    | Outside(dirs: Directory)

  datatype Event = Event(now: int, op: Op)

  predicate Reuses(m: Manager, now: int) { now - m.cacheTime < CACHE_TTL_MS && |m.cache| > 0 }

  function Refresh(load: Loader, m: Manager, now: int): Manager {
    if Reuses(m, now) then m else m.(cache := Fresh(load, m.dirs), cacheTime := now)
  }

  function MakeDirs(dirs: Directory, slug: string): Directory {
    var root := if "" in dirs then dirs else dirs["" := None];
    if slug in root then root else root[slug := None]
  }

  /** rmSync of `agentsDir/slug`: the empty slug is the agents directory with all it holds. */
  function Remove(dirs: Directory, slug: string): Directory {
    if slug == "" then map[] else dirs - {slug}
  }

  /** Creating, updating and deleting throw, before any change, when these fail. */
  predicate Accepted(m: Manager, op: Op) {
    match op
    case Create(lower, _) => !HasFile(m.dirs, Slug(lower))
    case Update(slug, edit) => HasFile(m.dirs, slug) && edit(m.dirs[slug].value).Some?
    case Delete(slug) => slug in m.dirs
    case _ => true
  }

  predicate Mutates(op: Op) { op.Create? || op.Update? || op.Delete? || op.Invalidate? }

  function Apply(load: Loader, m: Manager, e: Event): Manager {
    match e.op
    case Get(_) => Refresh(load, m, e.now)
    case ListAll => Refresh(load, m, e.now)
    case Create(lower, content) =>
      if !Accepted(m, e.op) then m
      else Refresh(load, m.(dirs := MakeDirs(m.dirs, Slug(lower))[Slug(lower) := Some(content)], cacheTime := 0), e.now)
    case Update(slug, edit) =>
      if !Accepted(m, e.op) then m
      else Refresh(load, m.(dirs := m.dirs[slug := edit(m.dirs[slug].value)], cacheTime := 0), e.now)
    case Delete(slug) =>
      if !Accepted(m, e.op) then m else m.(dirs := Remove(m.dirs, slug), cacheTime := 0)
    case Invalidate => m.(cacheTime := 0)
    case Outside(dirs) => m.(dirs := dirs)
  }

  function Run(load: Loader, m: Manager, events: seq<Event>): Manager {
    if events == [] then m
    else Apply(load, Run(load, m, events[..|events| - 1]), events[|events| - 1])
  }

  const NEW_CACHE: map<string, Profile> := map[]

  function New(dirs: Directory): Manager { Manager(dirs, NEW_CACHE, 0) }

  /** Every clock reading is past the first minute of the epoch. */
  predicate Clocked(events: seq<Event>) { forall i :: 0 <= i < |events| ==> events[i].now >= CACHE_TTL_MS }

  predicate Monotone(events: seq<Event>) {
    forall i, j :: 0 <= i < j < |events| ==> events[i].now <= events[j].now
  }

  predicate Reads(op: Op) { op.Get? || op.ListAll? }

  // ---- Without outside edits the cache is invisible ----

  predicate Private(events: seq<Event>) { forall i :: 0 <= i < |events| ==> !events[i].op.Outside? }

  predicate Coherent(load: Loader, m: Manager) { m.cacheTime == 0 || m.cache == Fresh(load, m.dirs) }

  lemma {:induction false} PrivateRunsStayCoherent(load: Loader, dirs: Directory, events: seq<Event>)
    requires Private(events) && Clocked(events)
    ensures Coherent(load, Run(load, New(dirs), events))
  {
    if events != [] {
      PrivateRunsStayCoherent(load, dirs, events[..|events| - 1]);
      assert !events[|events| - 1].op.Outside?;
    }
  }

  /** After any mix of calls, what a read finds in the cache is a fresh read of the directory. */
  lemma ReadsAreFresh(load: Loader, dirs: Directory, events: seq<Event>)
    requires Private(events) && Clocked(events)
    requires events != [] && Reads(events[|events| - 1].op)
    ensures var m := Run(load, New(dirs), events); m.cache == Fresh(load, m.dirs)
  {
    PrivateRunsStayCoherent(load, dirs, events[..|events| - 1]);
  }

  /** createAgent returns its new profile, unless the name has no letter or digit or the text does not load. */
  lemma CreateIsVisible(load: Loader, m: Manager, now: int, lower: string, content: string)
    requires now >= CACHE_TTL_MS && Accepted(m, Create(lower, content))
    ensures var m' := Apply(load, m, Event(now, Create(lower, content)));
            Slug(lower) in m'.cache <==> Core(lower) != "" && load(Slug(lower), content).Some?
  {
    SlugIsCanonical(lower);
  }

  // ---- With outside edits ----

  /** The directory after the first k events. */
  function DirectoryAt(load: Loader, dirs: Directory, events: seq<Event>, k: nat): Directory
    requires k <= |events|
  {
    Run(load, New(dirs), events[..k]).dirs
  }

  /** The number of events up to and including the last accepted mutation. */
  function SinceMutation(load: Loader, dirs: Directory, events: seq<Event>): (k: nat)
    ensures k <= |events|
  {
    if events == [] then 0
    else
      var before := events[..|events| - 1];
      var op := events[|events| - 1].op;
      if Mutates(op) && Accepted(Run(load, New(dirs), before), op) then |events|
      else SinceMutation(load, dirs, before)
  }

  /** The cache was read at event k - 1, at time cacheTime and not before the last mutation. */
  predicate ReadAt(load: Loader, dirs: Directory, events: seq<Event>, m: Manager, k: nat) {
    && 0 < k <= |events| && events[k - 1].now == m.cacheTime
    && SinceMutation(load, dirs, events) <= k
    && m.cache == Fresh(load, DirectoryAt(load, dirs, events, k))
  }

  /** One event invalidates the cache, refills it, or leaves it alone without mutating. */
  lemma OneEvent(load: Loader, m: Manager, e: Event)
    requires e.now >= CACHE_TTL_MS
    ensures var m' := Apply(load, m, e);
            || m'.cacheTime == 0
            || (m'.cacheTime == e.now && m'.cache == Fresh(load, m'.dirs))
            || (m'.cacheTime == m.cacheTime && m'.cache == m.cache && !(Mutates(e.op) && Accepted(m, e.op)))
  {
  }

  lemma {:induction false} CacheHasAMoment(load: Loader, dirs: Directory, events: seq<Event>) returns (k: nat)
    requires Clocked(events)
    ensures var m := Run(load, New(dirs), events);
            m.cacheTime == 0 || ReadAt(load, dirs, events, m, k)
  {
    k := 0;
    if events != [] {
      var n := |events|;
      var before := events[..n - 1];
      k := CacheHasAMoment(load, dirs, before);
      var m, m' := Run(load, New(dirs), before), Run(load, New(dirs), events);
      OneEvent(load, m, events[n - 1]);
      assert events[..n] == events;
      if m'.cacheTime == events[n - 1].now && m'.cache == Fresh(load, m'.dirs) {
        k := n;
      } else if m'.cacheTime != 0 {
        assert before[..k] == events[..k];
        MomentSurvives(load, dirs, events, m, k);
      }
    }
  }

  lemma MomentSurvives(load: Loader, dirs: Directory, events: seq<Event>, m: Manager, k: nat)
    requires events != [] && m == Run(load, New(dirs), events[..|events| - 1])
    requires ReadAt(load, dirs, events[..|events| - 1], m, k)
    requires var op := events[|events| - 1].op; !(Mutates(op) && Accepted(m, op))
    ensures ReadAt(load, dirs, events, m, k)
  {
    assert events[..|events| - 1][..k] == events[..k];
  }

  /**
   With outside edits, a read shows the directory as it stood at some moment of the last 60 seconds, and
   never as it was before the last mutation made through the manager.
   */
  lemma ReadsAreRecent(load: Loader, dirs: Directory, events: seq<Event>) returns (k: nat)
    requires Clocked(events) && Monotone(events)
    requires events != [] && Reads(events[|events| - 1].op)
    ensures 0 < k <= |events| && SinceMutation(load, dirs, events) <= k
    ensures 0 <= events[|events| - 1].now - events[k - 1].now < 60_000
    ensures Run(load, New(dirs), events).cache == Fresh(load, DirectoryAt(load, dirs, events, k))
  {
    k := CacheHasAMoment(load, dirs, events);
  }

  /** An outside edit shows at once exactly when the cache is empty, too old, or already equal to a fresh read. */
  lemma EditIsVisible(load: Loader, m: Manager, now: int, dirs: Directory, slug: string)
    ensures var m' := Apply(load, Apply(load, m, Event(now, Outside(dirs))), Event(now, Get(slug)));
            m'.cache == Fresh(load, dirs)
            <==> m.cache == map[] || now - m.cacheTime >= 60_000 || m.cache == Fresh(load, dirs)
  {
    assert |m.cache| == 0 <==> m.cache == map[];
  }

  // ---- The class ----

  class AgentManager {
    const load: Loader
    var agentsDir: Directory
    var cache: map<string, Profile>
    var cacheTime: int

    function State(): Manager
      reads this
    {
      Manager(agentsDir, cache, cacheTime)
    }

    constructor (load: Loader, agentsDir: Directory)
      ensures this.load == load && State() == New(agentsDir)
    {
      this.load, this.agentsDir, cache, cacheTime := load, agentsDir, map[], 0;
    }

    method RefreshIfStale(now: int)
      modifies this
      ensures State() == Refresh(load, old(State()), now)
    {
      if now - cacheTime < CACHE_TTL_MS && |cache| > 0 { return; }
      var profiles: map<string, Profile> := map[];
      var dirs := set d | d in agentsDir && Listed(d);
      while dirs != {}
        invariant dirs <= agentsDir.Keys && forall d :: d in dirs ==> Listed(d)
        invariant forall s :: s in profiles <==> s in agentsDir && s !in dirs && Loads(load, agentsDir, s)
        invariant forall s :: s in profiles ==> profiles[s] == Fresh(load, agentsDir)[s]
        invariant State() == old(State())
        decreases |dirs|
      {
        var slug :| slug in dirs;
        dirs := dirs - {slug};
        if agentsDir[slug].None? { continue; }
        var profile := load(slug, agentsDir[slug].value);
        if profile.Some? { profiles := profiles[slug := profile.value]; }
      }
      assert profiles == Fresh(load, agentsDir);
      cache, cacheTime := profiles, now;
    }

    method Get(slug: string, now: int) returns (r: Option<Profile>)
      modifies this
      ensures State() == Apply(load, old(State()), Event(now, Op.Get(slug)))
      ensures r == if slug in cache then Some(cache[slug]) else None
    {
      RefreshIfStale(now);
      return if slug in cache then Some(cache[slug]) else None;
    }

    method ListAll(now: int) returns (r: set<Profile>)
      modifies this
      ensures State() == Apply(load, old(State()), Event(now, Op.ListAll)) && r == cache.Values
    {
      RefreshIfStale(now);
      return cache.Values;
    }

    method CreateAgent(lower: string, content: string, now: int) returns (r: Result<Option<Profile>>)
      modifies this
      ensures State() == Apply(load, old(State()), Event(now, Create(lower, content)))
      ensures r.Ok? <==> Accepted(old(State()), Create(lower, content))
      ensures r.Ok? ==> r.value == if Slug(lower) in cache then Some(cache[Slug(lower)]) else None
    {
      var slug := Slug(lower);
      if HasFile(agentsDir, slug) { return Err("already exists"); }
      agentsDir := MakeDirs(agentsDir, slug);
      agentsDir := agentsDir[slug := Some(content)];
      cacheTime := 0;
      var p := Get(slug, now);
      return Ok(p);
    }

    method UpdateAgent(slug: string, edit: string -> Option<string>, now: int) returns (r: Result<Option<Profile>>)
      modifies this
      ensures State() == Apply(load, old(State()), Event(now, Update(slug, edit)))
      ensures r.Ok? <==> Accepted(old(State()), Update(slug, edit))
      ensures r.Ok? ==> r.value == if slug in cache then Some(cache[slug]) else None
    {
      if !HasFile(agentsDir, slug) { return Err("not found"); }
      var updated := edit(agentsDir[slug].value);
      if updated.None? { return Err("unreadable"); }
      agentsDir := agentsDir[slug := updated];
      cacheTime := 0;
      var p := Get(slug, now);
      return Ok(p);
    }

    method DeleteAgent(slug: string, now: int) returns (r: Result<()>)
      modifies this
      ensures State() == Apply(load, old(State()), Event(now, Delete(slug)))
      ensures r.Ok? <==> Accepted(old(State()), Delete(slug))
    {
      if slug !in agentsDir { return Err("not found"); }
      agentsDir := Remove(agentsDir, slug);
      cacheTime := 0;
      return Ok(());
    }

    method InvalidateCache(now: int)
      modifies this
      ensures State() == Apply(load, old(State()), Event(now, Invalidate))
    {
      cacheTime := 0;
    }
  }
}
