/**
 The auto-skill mirror of the MCP schema cache: src/agent/auto-skills.ts over src/agent/mcp-schemas.ts.
 A tool is its name and the hash of its input schema; a skill file is the schema hash in its frontmatter,
 or None when it cannot be read. Files are those in the server directories under skills/auto/.
 */
module AutoSkills {
  import opened Wrappers

  datatype Tool = Tool(name: string, hash: string)

  datatype Server = Server(name: string, tools: seq<Tool>)

  // ---- The schema cache ----

  /** The outcome of one probe: None when it was rejected; a failed probe returns no tools. */
  datatype Probe = Probe(name: string, fetched: Option<seq<Tool>>)

  predicate Known(servers: seq<Server>, name: string) { exists i :: 0 <= i < |servers| && servers[i].name == name }

  /** `record[name] = tools`: in place when the key exists, else appended. */
  function Put(servers: seq<Server>, name: string, tools: seq<Tool>): seq<Server> {
    if servers == [] then [Server(name, tools)]
    else if servers[0].name == name then [Server(name, tools)] + servers[1..]
    else [servers[0]] + Put(servers[1..], name, tools)
  }

  function MergeOne(servers: seq<Server>, p: Probe): seq<Server> {
    if p.fetched.Some? && (p.fetched.value != [] || !Known(servers, p.name))
    then Put(servers, p.name, p.fetched.value) else servers
  }

  /** fetchAllSchemas: only a successful probe replaces what is cached. */
  function Merge(servers: seq<Server>, probes: seq<Probe>): seq<Server>
    decreases |probes|
  {
    if probes == [] then servers else Merge(MergeOne(servers, probes[0]), probes[1..])
  }

  lemma {:induction false} PutKeepsOthers(servers: seq<Server>, name: string, tools: seq<Tool>, s: Server)
    requires s in servers && s.name != name
    ensures s in Put(servers, name, tools)
  {
    if servers[0].name != name && servers[0] != s { PutKeepsOthers(servers[1..], name, tools, s); }
  }

  lemma {:induction false} PutIsKnown(servers: seq<Server>, name: string, tools: seq<Tool>, other: string)
    ensures Known(Put(servers, name, tools), other) <==> Known(servers, other) || other == name
  {
    var r := Put(servers, name, tools);
    if servers == [] {
      assert r[0].name == name;
    } else {
      assert servers == [servers[0]] + servers[1..];
      KnownCons(servers[0], servers[1..], other);
      if servers[0].name == name {
        KnownCons(Server(name, tools), servers[1..], other);
      } else {
        PutIsKnown(servers[1..], name, tools, other);
        KnownCons(servers[0], Put(servers[1..], name, tools), other);
      }
    }
  }

  lemma KnownCons(s: Server, rest: seq<Server>, name: string)
    ensures Known([s] + rest, name) <==> s.name == name || Known(rest, name)
  {
    var all := [s] + rest;
    if s.name == name { assert all[0].name == name; }
    if Known(rest, name) {
      var i :| 0 <= i < |rest| && rest[i].name == name;
      assert all[i + 1].name == name;
    }
  }

  /** Every probe of `name` in this round failed. */
  predicate Failed(probes: seq<Probe>, name: string) {
    forall i :: 0 <= i < |probes| && probes[i].name == name ==> probes[i].fetched.None? || probes[i].fetched.value == []
  }

  /** A server whose probes all fail keeps its cached tools. */
  lemma {:induction false} FailedProbeKeepsCache(servers: seq<Server>, probes: seq<Probe>, s: Server)
    requires s in servers && Failed(probes, s.name)
    ensures s in Merge(servers, probes)
    decreases |probes|
  {
    if probes != [] {
      assert probes[0].name == s.name ==> MergeOne(servers, probes[0]) == servers by {
        var i :| 0 <= i < |servers| && servers[i] == s;
        assert servers[i].name == s.name;
      }
      if probes[0].name != s.name && MergeOne(servers, probes[0]) != servers {
        PutKeepsOthers(servers, probes[0].name, probes[0].fetched.value, s);
      }
      assert forall i :: 0 <= i < |probes[1..]| ==> probes[1..][i] == probes[i + 1];
      FailedProbeKeepsCache(MergeOne(servers, probes[0]), probes[1..], s);
    }
  }

  lemma {:induction false} MergeIsKnown(servers: seq<Server>, probes: seq<Probe>, name: string)
    ensures Known(servers, name) ==> Known(Merge(servers, probes), name)
    ensures (exists i :: 0 <= i < |probes| && probes[i].name == name && probes[i].fetched.Some?) ==>
      Known(Merge(servers, probes), name)
    decreases |probes|
  {
    if probes != [] {
      var p := probes[0];
      var next := MergeOne(servers, p);
      if p.fetched.Some? { PutIsKnown(servers, p.name, p.fetched.value, name); }
      MergeIsKnown(next, probes[1..], name);
      if i :| 0 <= i < |probes| && probes[i].name == name && probes[i].fetched.Some? {
        if i > 0 { assert probes[1..][i - 1] == probes[i]; }
      }
    }
  }

  // ---- Skills to write ----

  datatype Path = Path(dir: string, file: string)

  datatype Skill = Skill(path: Path, hash: string)

  predicate SafeChar(c: char) {
    'a' <= c <= 'z' || 'A' <= c <= 'Z' || '0' <= c <= '9' || c in {'.', '_', '-'}
  }

  function Sanitize(s: string): (r: string)
    ensures forall i :: 0 <= i < |r| ==> SafeChar(r[i])
    ensures |r| <= 80
    ensures |s| <= 80 && (forall i :: 0 <= i < |s| ==> SafeChar(s[i])) ==> r == s
  {
    Take(seq(|s|, i requires 0 <= i < |s| => if SafeChar(s[i]) then s[i] else '_'), 80)
  }

  const MD := ".md"

  predicate Markdown(p: Path) { |p.file| >= 3 && p.file[|p.file| - 3..] == MD }

  function PathFor(server: string, tool: string): (p: Path)
    ensures Markdown(p)
  {
    Path(Sanitize(server), Sanitize(tool) + MD)
  }

  /** A tool of the SDK inventory, split at its server. */
  datatype Listed = Listed(server: string, tool: string)

  /** Inventory tools that get a minimal skill. */
  predicate Remote(servers: seq<Server>, l: Listed) {
    !Known(servers, l.server) && l.server != "clementine-tools" && !("plugin_" <= l.server)
  }

  function ToolSkills(server: string, tools: seq<Tool>): (r: seq<Skill>)
    ensures |r| == |tools|
    ensures forall i :: 0 <= i < |r| ==> r[i] == Skill(PathFor(server, tools[i].name), tools[i].hash)
  {
    seq(|tools|, i requires 0 <= i < |tools| => Skill(PathFor(server, tools[i].name), tools[i].hash))
  }

  /** Phase 1: full schemas. */
  function SchemaSkills(servers: seq<Server>): seq<Skill> {
    if servers == [] then []
    else SchemaSkills(servers[..|servers| - 1]) + ToolSkills(servers[|servers| - 1].name, servers[|servers| - 1].tools)
  }

  /** Phase 2: connectors known by name only, all with the hash `minimal` of the empty schema. */
  function InventorySkills(servers: seq<Server>, inventory: seq<Listed>, minimal: string): seq<Skill> {
    if inventory == [] then []
    else
      var l := inventory[|inventory| - 1];
      InventorySkills(servers, inventory[..|inventory| - 1], minimal)
      + if Remote(servers, l) then [Skill(PathFor(l.server, l.tool), minimal)] else []
  }

  function AllSkills(servers: seq<Server>, inventory: seq<Listed>, minimal: string): seq<Skill> {
    SchemaSkills(servers) + InventorySkills(servers, inventory, minimal)
  }

  function Paths(skills: seq<Skill>): set<Path> { set k | k in skills :: k.path }

  /** The hash of the last skill mapped to a path. */
  function LastHash(skills: seq<Skill>, p: Path): string
    requires p in Paths(skills)
  {
    var k := skills[|skills| - 1];
    if k.path == p then k.hash
    else
      assert skills == skills[..|skills| - 1] + [k];
      LastHash(skills[..|skills| - 1], p)
  }

  // ---- The mirror ----

  type Disk = map<Path, Option<string>>

  function WriteOne(d: Disk, k: Skill): Disk { d[k.path := Some(k.hash)] }

  predicate UpToDate(d: Disk, k: Skill) { k.path in d && d[k.path] == Some(k.hash) }

  function WriteAll(d: Disk, skills: seq<Skill>): Disk {
    if skills == [] then d else WriteOne(WriteAll(d, skills[..|skills| - 1]), skills[|skills| - 1])
  }

  /** How many of the skills are actually written. */
  function Written(d: Disk, skills: seq<Skill>): nat {
    if skills == [] then 0
    else Written(d, skills[..|skills| - 1])
         + if UpToDate(WriteAll(d, skills[..|skills| - 1]), skills[|skills| - 1]) then 0 else 1
  }

  function Stale(d: Disk, skills: seq<Skill>): set<Path> { set p | p in d && Markdown(p) && p !in Paths(skills) }

  function Mirror(d: Disk, skills: seq<Skill>): Disk { WriteAll(d, skills) - Stale(d, skills) }

  lemma {:induction false} WriteAllIsLast(d: Disk, skills: seq<Skill>)
    ensures WriteAll(d, skills).Keys == d.Keys + Paths(skills)
    ensures forall p :: p in Paths(skills) ==> WriteAll(d, skills)[p] == Some(LastHash(skills, p))
    ensures forall p :: p in d && p !in Paths(skills) ==> WriteAll(d, skills)[p] == d[p]
  {
    if skills != [] {
      WriteAllIsLast(d, skills[..|skills| - 1]);
      PathsSnoc(skills);
    }
  }

  lemma PathsSnoc(skills: seq<Skill>)
    requires skills != []
    ensures Paths(skills) == Paths(skills[..|skills| - 1]) + {skills[|skills| - 1].path}
  {
    assert skills == skills[..|skills| - 1] + [skills[|skills| - 1]];
  }

  /**
   After a pass the Markdown files are exactly the expected paths, each with the schema hash of the last
   tool mapped to it; every other file is as before.
   */
  lemma MirrorIsExact(d: Disk, skills: seq<Skill>)
    requires forall k :: k in skills ==> Markdown(k.path)
    ensures forall p :: Markdown(p) ==> (p in Mirror(d, skills) <==> p in Paths(skills))
    ensures forall p :: p in Paths(skills) ==>
      p in Mirror(d, skills) && Mirror(d, skills)[p] == Some(LastHash(skills, p))
    ensures forall p :: !Markdown(p) ==>
      (p in Mirror(d, skills) <==> p in d) && (p in d ==> Mirror(d, skills)[p] == d[p])
  {
    WriteAllIsLast(d, skills);
  }

  /** What the walk of phase 3 finds stale after the writes was already stale before them. */
  lemma StaleAfterWriting(d: Disk, skills: seq<Skill>)
    ensures (set p | p in WriteAll(d, skills) && Markdown(p) && p !in Paths(skills)) == Stale(d, skills)
  {
    WriteAllIsLast(d, skills);
  }

  lemma {:induction false} LastHashIsOne(skills: seq<Skill>, p: Path)
    requires p in Paths(skills)
    ensures Skill(p, LastHash(skills, p)) in skills
  {
    if skills[|skills| - 1].path != p {
      PathsSnoc(skills);
      LastHashIsOne(skills[..|skills| - 1], p);
    }
  }

  /** A pass writes nothing exactly when every skill on disk is already up to date. */
  lemma {:induction false} NothingWritten(d: Disk, skills: seq<Skill>)
    ensures Written(d, skills) == 0 <==> forall k :: k in skills ==> UpToDate(d, k)
    ensures Written(d, skills) == 0 ==> WriteAll(d, skills) == d
  {
    if skills != [] {
      var k := skills[|skills| - 1];
      NothingWritten(d, skills[..|skills| - 1]);
      assert skills == skills[..|skills| - 1] + [k];
      if Written(d, skills) == 0 { assert WriteOne(d, k) == d; }
    }
  }

  /** No two tools claim one path with different schemas. */
  predicate Unambiguous(skills: seq<Skill>) {
    forall i, j :: 0 <= i < |skills| && 0 <= j < |skills| && skills[i].path == skills[j].path ==>
      skills[i].hash == skills[j].hash
  }

  /**
   A second pass never prunes, and it writes nothing exactly when no sanitised path is claimed by two
   different schemas; tools whose paths collide are rewritten on every boot.
   */
  lemma SecondPassIsIdle(d: Disk, skills: seq<Skill>)
    requires forall k :: k in skills ==> Markdown(k.path)
    ensures Stale(Mirror(d, skills), skills) == {}
    ensures Written(Mirror(d, skills), skills) == 0 <==> Unambiguous(skills)
  {
    var m := Mirror(d, skills);
    MirrorIsExact(d, skills);
    NothingWritten(m, skills);
    if Unambiguous(skills) {
      forall k | k in skills
        ensures UpToDate(m, k)
      {
        LastHashIsOne(skills, k.path);
      }
    } else {
      var i, j :| 0 <= i < |skills| && 0 <= j < |skills| && skills[i].path == skills[j].path
        && skills[i].hash != skills[j].hash;
      assert skills[i] in skills && skills[j] in skills;
      assert !UpToDate(m, skills[i]) || !UpToDate(m, skills[j]);
    }
  }

  /** Two tool names that are sanitised to one path, so that the skills are written again on every pass. */
  lemma CollidingToolsAreRewritten(server: string, d: Disk, h1: string, h2: string)
    requires h1 != h2
    ensures var skills := ToolSkills(server, [Tool("a b", h1), Tool("a_b", h2)]);
            Written(Mirror(d, skills), skills) > 0
  {
    var skills := ToolSkills(server, [Tool("a b", h1), Tool("a_b", h2)]);
    assert Sanitize("a b") == "a_b" == Sanitize("a_b");
    assert skills[0].path == skills[1].path && skills[0].hash != skills[1].hash;
    SecondPassIsIdle(d, skills);
  }

  // ---- Probes and skills together ----

  lemma {:induction false} SchemaSkillsHave(servers: seq<Server>, s: Server, t: Tool)
    requires s in servers && t in s.tools
    ensures PathFor(s.name, t.name) in Paths(SchemaSkills(servers))
  {
    var last := servers[|servers| - 1];
    if last == s {
      var i :| 0 <= i < |s.tools| && s.tools[i] == t;
      var k := ToolSkills(s.name, s.tools)[i];
      assert k in SchemaSkills(servers) && k.path == PathFor(s.name, t.name);
    } else {
      assert servers == servers[..|servers| - 1] + [last];
      SchemaSkillsHave(servers[..|servers| - 1], s, t);
    }
  }

  lemma {:induction false} AllSkillsAreMarkdown(servers: seq<Server>, inventory: seq<Listed>, minimal: string)
    ensures forall k :: k in SchemaSkills(servers) ==> Markdown(k.path)
    ensures forall k :: k in InventorySkills(servers, inventory, minimal) ==> Markdown(k.path)
    decreases |servers| + |inventory|
  {
    if servers != [] { SchemaMarkdown(servers); }
    if inventory != [] { AllSkillsAreMarkdown(servers, inventory[..|inventory| - 1], minimal); }
  }

  lemma {:induction false} SchemaMarkdown(servers: seq<Server>)
    ensures forall k :: k in SchemaSkills(servers) ==> Markdown(k.path)
  {
    if servers != [] { SchemaMarkdown(servers[..|servers| - 1]); }
  }

  /** A failed probe of a server with cached tools never prunes its skills. */
  lemma FailedProbeKeepsSkills(cache: seq<Server>, probes: seq<Probe>, inventory: seq<Listed>, minimal: string,
                               d: Disk, s: Server, t: Tool)
    requires s in cache && t in s.tools && Failed(probes, s.name)
    ensures var skills := AllSkills(Merge(cache, probes), inventory, minimal);
            PathFor(s.name, t.name) in Mirror(d, skills)
  {
    var servers := Merge(cache, probes);
    var skills := AllSkills(servers, inventory, minimal);
    FailedProbeKeepsCache(cache, probes, s);
    SchemaSkillsHave(servers, s, t);
    AllSkillsAreMarkdown(servers, inventory, minimal);
    var k :| k in SchemaSkills(servers) && k.path == PathFor(s.name, t.name);
    assert k in skills;
    MirrorIsExact(d, skills);
  }

  /** A cached tool has this path. */
  ghost predicate SchemaClaims(servers: seq<Server>, p: Path) {
    exists s, t :: s in servers && t in s.tools && PathFor(s.name, t.name) == p
  }

  /** A listed tool that still gets a minimal skill has this path. */
  ghost predicate InventoryClaims(servers: seq<Server>, inventory: seq<Listed>, p: Path) {
    exists l :: l in inventory && Remote(servers, l) && PathFor(l.server, l.tool) == p
  }

  lemma {:induction false} SchemaPaths(servers: seq<Server>, p: Path)
    ensures p in Paths(SchemaSkills(servers)) <==> SchemaClaims(servers, p)
  {
    if SchemaClaims(servers, p) {
      var s, t :| s in servers && t in s.tools && PathFor(s.name, t.name) == p;
      SchemaSkillsHave(servers, s, t);
    }
    if p in Paths(SchemaSkills(servers)) {
      var n := |servers| - 1;
      SchemaPaths(servers[..n], p);
      assert servers == servers[..n] + [servers[n]];
      var k :| k in SchemaSkills(servers) && k.path == p;
      if k !in SchemaSkills(servers[..n]) {
        var i :| 0 <= i < |servers[n].tools| && ToolSkills(servers[n].name, servers[n].tools)[i] == k;
        assert servers[n] in servers && servers[n].tools[i] in servers[n].tools;
      }
    }
  }

  lemma {:induction false} InventoryPaths(servers: seq<Server>, inventory: seq<Listed>, minimal: string, p: Path)
    ensures p in Paths(InventorySkills(servers, inventory, minimal)) <==> InventoryClaims(servers, inventory, p)
  {
    if inventory != [] {
      var n := |inventory| - 1;
      InventoryPaths(servers, inventory[..n], minimal, p);
      assert inventory == inventory[..n] + [inventory[n]];
      var l := inventory[n];
      var last := if Remote(servers, l) then [Skill(PathFor(l.server, l.tool), minimal)] else [];
      PathsOfSum(InventorySkills(servers, inventory[..n], minimal), last);
    }
  }

  lemma PathsOfSum(a: seq<Skill>, b: seq<Skill>)
    ensures Paths(a + b) == Paths(a) + Paths(b)
  {
  }

  /** A pass keeps or makes a file at a path exactly when a cached tool or a listed remote tool claims it. */
  lemma FilesAreClaimed(servers: seq<Server>, inventory: seq<Listed>, minimal: string, d: Disk, p: Path)
    requires Markdown(p)
    ensures p in Mirror(d, AllSkills(servers, inventory, minimal))
            <==> SchemaClaims(servers, p) || InventoryClaims(servers, inventory, p)
  {
    AllSkillsAreMarkdown(servers, inventory, minimal);
    MirrorIsExact(d, AllSkills(servers, inventory, minimal));
    SchemaPaths(servers, p);
    InventoryPaths(servers, inventory, minimal, p);
    PathsOfSum(SchemaSkills(servers), InventorySkills(servers, inventory, minimal));
  }

  /**
   Not so without cached tools: the first probe of a server that answers, even with an error, makes the
   server known, and the file of a tool that was only listed is gone exactly when nobody else claims its path.
   */
  lemma FirstProbeDropsInventorySkills(cache: seq<Server>, probes: seq<Probe>, inventory: seq<Listed>, minimal: string,
                                       d: Disk, l: Listed)
    requires l in inventory && exists i :: 0 <= i < |probes| && probes[i].name == l.server && probes[i].fetched.Some?
    ensures var servers, p := Merge(cache, probes), PathFor(l.server, l.tool);
            p !in Mirror(d, AllSkills(servers, inventory, minimal))
            <==> !SchemaClaims(servers, p)
                 && !exists o ::
                      o in inventory && o.server != l.server && Remote(servers, o) && PathFor(o.server, o.tool) == p
  {
    MergeIsKnown(cache, probes, l.server);
    FilesAreClaimed(Merge(cache, probes), inventory, minimal, d, PathFor(l.server, l.tool));
  }

  /** Such a file: made before the server was probed, and removed after a probe that failed. */
  lemma FailedFirstProbeRemovesAFile(server: string, tool: string, minimal: string)
    requires server != "clementine-tools" && !("plugin_" <= server)
    ensures var inventory, p := [Listed(server, tool)], PathFor(server, tool);
            var before := Mirror(map[], AllSkills([], inventory, minimal));
            && p in before
            && p !in Mirror(before, AllSkills(Merge([], [Probe(server, Some([]))]), inventory, minimal))
  {
    var l, probes := Listed(server, tool), [Probe(server, Some([]))];
    assert l in [l] && Remote([], l);
    FilesAreClaimed([], [l], minimal, map[], PathFor(server, tool));
    assert probes[0].name == server && probes[1..] == [];
    assert Merge([], probes) == [Server(server, [])];
    FirstProbeDropsInventorySkills([], probes, [l], minimal, Mirror(map[], AllSkills([], [l], minimal)), l);
  }

  // ---- The synthesis pass ----

  method FetchAllSchemas(existing: seq<Server>, settled: seq<Probe>) returns (servers: seq<Server>)
    ensures servers == Merge(existing, settled)
  {
    servers := existing;
    for i := 0 to |settled|
      invariant Merge(servers, settled[i..]) == Merge(existing, settled)
    {
      var r := settled[i];
      assert settled[i..][1..] == settled[i + 1..];
      if r.fetched.None? { continue; }
      if |r.fetched.value| > 0 || !Known(servers, r.name) {
        servers := Put(servers, r.name, r.fetched.value);
      }
    }
  }

  class SkillDirectory {
    var files: Disk

    method WriteAutoSkill(k: Skill) returns (wrote: bool)
      modifies this
      ensures files == WriteOne(old(files), k)
      ensures wrote == !UpToDate(old(files), k)
    {
      if k.path in files && files[k.path] == Some(k.hash) {
        assert files[k.path := Some(k.hash)] == files;
        return false;
      }
      files := files[k.path := Some(k.hash)];
      return true;
    }

    /** One tool of the pass: write, count, expect. */
    method Synthesize(ghost d: Disk, ghost done: seq<Skill>, k: Skill, counts: Counts, expected: set<Path>)
      returns (counts': Counts, expected': set<Path>)
      requires Progress(d, done, files, counts, expected)
      modifies this
      ensures Progress(d, done + [k], files, counts', expected')
    {
      assert (done + [k])[..|done|] == done;
      PathsSnoc(done + [k]);
      var wrote := WriteAutoSkill(k);
      counts' := if wrote then counts.(written := counts.written + 1) else counts.(same := counts.same + 1);
      counts' := counts'.(toolCount := counts'.toolCount + 1);
      expected' := expected + {k.path};
    }

    /** Phase 3: the walk that removes every Markdown file nobody expects. */
    method Prune(expected: set<Path>) returns (pruned: nat)
      modifies this
      ensures var gone := set p | p in old(files) && Markdown(p) && p !in expected;
              files == old(files) - gone && pruned == |gone|
    {
      var walk := files.Keys;
      ghost var removed: set<Path> := {};
      pruned := 0;
      while walk != {}
        invariant walk <= old(files).Keys
        invariant files == old(files) - removed && pruned == |removed|
        invariant removed == set p | p in old(files) && p !in walk && Markdown(p) && p !in expected
        decreases |walk|
      {
        var p :| p in walk;
        walk := walk - {p};
        if Markdown(p) && p !in expected {
          files := files - {p};
          removed := removed + {p};
          pruned := pruned + 1;
        }
      }
      assert removed == set p | p in old(files) && Markdown(p) && p !in expected;
    }

    method SynthesizeSkillsFromSchemas(servers: seq<Server>, inventory: Option<seq<Listed>>, minimal: string)
      returns (counts: Counts, pruned: nat)
      modifies this
      ensures var skills := AllSkills(servers, inventory.GetOr([]), minimal);
              && files == Mirror(old(files), skills)
              && counts.written == Written(old(files), skills)
              && counts.written + counts.same == counts.toolCount == |skills|
              && pruned == |Stale(old(files), skills)|
    {
      ghost var d := files;
      var expected: set<Path>;
      counts, expected := SchemaPhase(servers);
      ghost var done := SchemaSkills(servers);
      if inventory.Some? {
        counts, expected := InventoryPhase(d, done, servers, inventory.value, minimal, counts, expected);
      } else {
        assert done == AllSkills(servers, [], minimal);
      }
      StaleAfterWriting(d, AllSkills(servers, inventory.GetOr([]), minimal));
      pruned := Prune(expected);
    }

    method SchemaPhase(servers: seq<Server>) returns (counts: Counts, expected: set<Path>)
      modifies this
      ensures Progress(old(files), SchemaSkills(servers), files, counts, expected)
    {
      counts, expected := Counts(0, 0, 0), {};
      for i := 0 to |servers|
        invariant Progress(old(files), SchemaSkills(servers[..i]), files, counts, expected)
      {
        assert servers[..i + 1][..i] == servers[..i];
        counts, expected := ServerPhase(old(files), SchemaSkills(servers[..i]), servers[i], counts, expected);
      }
      assert servers[..|servers|] == servers;
    }

    /** The inner loop of phase 1: every tool of one server. */
    method ServerPhase(ghost d: Disk, ghost done: seq<Skill>, server: Server, counts0: Counts, expected0: set<Path>)
      returns (counts: Counts, expected: set<Path>)
      requires Progress(d, done, files, counts0, expected0)
      modifies this
      ensures Progress(d, done + ToolSkills(server.name, server.tools), files, counts, expected)
    {
      counts, expected := counts0, expected0;
      ghost var now := ToolSkills(server.name, server.tools);
      assert done + now[..0] == done;
      for j := 0 to |server.tools|
        invariant Progress(d, done + now[..j], files, counts, expected)
      {
        var t := server.tools[j];
        var k := Skill(PathFor(server.name, t.name), t.hash);
        counts, expected := Synthesize(d, done + now[..j], k, counts, expected);
        assert done + now[..j] + [now[j]] == done + now[..j + 1];
      }
      assert now[..|server.tools|] == now;
    }

    method InventoryPhase(ghost d: Disk, ghost done: seq<Skill>, servers: seq<Server>, inventory: seq<Listed>,
                          minimal: string, counts0: Counts, expected0: set<Path>)
      returns (counts: Counts, expected: set<Path>)
      requires Progress(d, done, files, counts0, expected0)
      modifies this
      ensures Progress(d, done + InventorySkills(servers, inventory, minimal), files, counts, expected)
    {
      counts, expected := counts0, expected0;
      assert done + [] == done;
      for i := 0 to |inventory|
        invariant Progress(d, done + InventorySkills(servers, inventory[..i], minimal), files, counts, expected)
      {
        var l := inventory[i];
        ghost var before := InventorySkills(servers, inventory[..i], minimal);
        assert inventory[..i + 1][..i] == inventory[..i];
        assert before + [] == before;
        if Known(servers, l.server) || l.server == "clementine-tools" || "plugin_" <= l.server { continue; }
        counts, expected := Synthesize(d, done + before, Skill(PathFor(l.server, l.tool), minimal), counts, expected);
        assert done + before + [Skill(PathFor(l.server, l.tool), minimal)]
          == done + (before + [Skill(PathFor(l.server, l.tool), minimal)]);
      }
      assert inventory[..|inventory|] == inventory;
    }
  }

  datatype Counts = Counts(written: nat, same: nat, toolCount: nat)

  /** The pass after the skills `done`, from the disk `d`. */
  ghost predicate Progress(d: Disk, done: seq<Skill>, files: Disk, counts: Counts, expected: set<Path>) {
    && files == WriteAll(d, done) && expected == Paths(done)
    && counts.written == Written(d, done)
    && counts.written + counts.same == counts.toolCount == |done|
  }
}
