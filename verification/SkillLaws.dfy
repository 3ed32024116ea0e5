/** What the schema cache holds after a round of probes, and what a skill file holds after a pass. */
module SkillLaws {
  import opened Wrappers
  import opened AutoSkills

  // ---- The cache is what was last learned ----

  /** The cached tools of a server. */
  function ToolsOf(servers: seq<Server>, name: string): Option<seq<Tool>> {
    if servers == [] then None
    else if servers[0].name == name then Some(servers[0].tools)
    else ToolsOf(servers[1..], name)
  }

  predicate Answers(p: Probe, name: string) { p.name == name && p.fetched.Some? }

  /** A probe of the server that found tools. */
  predicate Finds(p: Probe, name: string) { Answers(p, name) && p.fetched.value != [] }

  lemma {:induction false} KnownHasTools(servers: seq<Server>, name: string)
    ensures Known(servers, name) <==> ToolsOf(servers, name).Some?
  {
    if servers != [] {
      KnownHasTools(servers[1..], name);
      assert servers == [servers[0]] + servers[1..];
      KnownCons(servers[0], servers[1..], name);
    }
  }

  lemma {:induction false} PutTools(servers: seq<Server>, n: string, tools: seq<Tool>, name: string)
    ensures ToolsOf(Put(servers, n, tools), name) == if n == name then Some(tools) else ToolsOf(servers, name)
  {
    if servers != [] && servers[0].name != n {
      PutTools(servers[1..], n, tools, name);
      assert Put(servers, n, tools)[1..] == Put(servers[1..], n, tools);
    }
  }

  /** One probe: tools replace what was there, an empty answer only makes the server known. */
  lemma OneProbe(servers: seq<Server>, p: Probe, name: string)
    ensures ToolsOf(MergeOne(servers, p), name) ==
            if Finds(p, name) then p.fetched
            else if Answers(p, name) && ToolsOf(servers, name).None? then Some([])
            else ToolsOf(servers, name)
  {
    KnownHasTools(servers, p.name);
    if p.fetched.Some? { PutTools(servers, p.name, p.fetched.value, name); }
  }

  predicate LastFind(probes: seq<Probe>, name: string, i: nat) {
    i < |probes| && Finds(probes[i], name) && forall j :: i < j < |probes| ==> !Finds(probes[j], name)
  }

  /**
   After a round the cache holds for every server the tools of the last probe that found any; without one what it
   held before; and for a new server that only gave empty answers, no tools.
   */
  lemma {:induction false} MergeIsLatest(servers: seq<Server>, probes: seq<Probe>, name: string, last: nat)
    ensures LastFind(probes, name, last) ==> ToolsOf(Merge(servers, probes), name) == probes[last].fetched
    ensures (forall j :: 0 <= j < |probes| ==> !Finds(probes[j], name))
              ==> ToolsOf(Merge(servers, probes), name) ==
                  if ToolsOf(servers, name).Some? then ToolsOf(servers, name)
                  else if exists j :: 0 <= j < |probes| && Answers(probes[j], name) then Some([]) else None
    decreases |probes|
  {
    if probes != [] {
      OneProbe(servers, probes[0], name);
      assert probes == [probes[0]] + probes[1..];
      MergeIsLatest(MergeOne(servers, probes[0]), probes[1..], name, if last == 0 then 0 else last - 1);
    }
  }

  function NamesOf(servers: seq<Server>): seq<string> {
    seq(|servers|, i requires 0 <= i < |servers| => servers[i].name)
  }

  lemma {:induction false} PutKeepsOrder(servers: seq<Server>, name: string, tools: seq<Tool>)
    ensures NamesOf(servers) <= NamesOf(Put(servers, name, tools))
  {
    if servers != [] && servers[0].name != name {
      PutKeepsOrder(servers[1..], name, tools);
      var r := Put(servers, name, tools);
      assert NamesOf(r) == [servers[0].name] + NamesOf(Put(servers[1..], name, tools));
      assert NamesOf(servers) == [servers[0].name] + NamesOf(servers[1..]);
    }
  }

  /** Cached servers stay in place, and new ones come behind them. */
  lemma {:induction false} MergeKeepsOrder(servers: seq<Server>, probes: seq<Probe>)
    ensures NamesOf(servers) <= NamesOf(Merge(servers, probes))
    decreases |probes|
  {
    if probes != [] {
      var p := probes[0];
      if p.fetched.Some? { PutKeepsOrder(servers, p.name, p.fetched.value); }
      MergeKeepsOrder(MergeOne(servers, p), probes[1..]);
    }
  }

  // ---- What a file is called and holds ----

  /** In ASCII codes: letters, digits, full stop, underscore and hyphen. */
  lemma SafeCharsAre(c: char)
    ensures SafeChar(c) <==>
            65 <= c as int <= 90 || 97 <= c as int <= 122 || 48 <= c as int <= 57 || c as int in {45, 46, 95}
  {
  }

  /** A sanitised name is the first 80 characters, with an underscore for each unsafe one. */
  lemma SanitizeIsExact(s: string, i: nat)
    ensures |Sanitize(s)| == if |s| < 80 then |s| else 80
    ensures i < |Sanitize(s)| ==> Sanitize(s)[i] == if SafeChar(s[i]) then s[i] else '_'
  {
  }

  lemma {:induction false} SchemaSkillIsThere(servers: seq<Server>, s: Server, t: Tool)
    requires s in servers && t in s.tools
    ensures Skill(PathFor(s.name, t.name), t.hash) in SchemaSkills(servers)
  {
    var n := |servers| - 1;
    if servers[n] == s {
      var i :| 0 <= i < |s.tools| && s.tools[i] == t;
      assert ToolSkills(s.name, s.tools)[i] == Skill(PathFor(s.name, t.name), t.hash);
    } else {
      assert servers == servers[..n] + [servers[n]];
      SchemaSkillIsThere(servers[..n], s, t);
    }
  }

  lemma {:induction false} ListedSkillIsThere(servers: seq<Server>, inventory: seq<Listed>, minimal: string, l: Listed)
    requires l in inventory && Remote(servers, l)
    ensures Skill(PathFor(l.server, l.tool), minimal) in InventorySkills(servers, inventory, minimal)
  {
    var n := |inventory| - 1;
    if inventory[n] != l {
      assert inventory == inventory[..n] + [inventory[n]];
      ListedSkillIsThere(servers, inventory[..n], minimal, l);
    }
  }

  /**
   Where no two skills differ over a path, the file of a tool holds its schema's hash, and that of a listed tool
   the hash of the empty schema.
   */
  lemma FilesHoldTheirTools(servers: seq<Server>, inventory: seq<Listed>, minimal: string, d: Disk)
    requires Unambiguous(AllSkills(servers, inventory, minimal))
    ensures var m := Mirror(d, AllSkills(servers, inventory, minimal));
            && (forall s, t :: s in servers && t in s.tools ==>
                  PathFor(s.name, t.name) in m && m[PathFor(s.name, t.name)] == Some(t.hash))
            && (forall l :: l in inventory && Remote(servers, l) ==>
                  PathFor(l.server, l.tool) in m && m[PathFor(l.server, l.tool)] == Some(minimal))
  {
    var skills := AllSkills(servers, inventory, minimal);
    forall s, t | s in servers && t in s.tools
      ensures var p, m := PathFor(s.name, t.name), Mirror(d, skills); p in m && m[p] == Some(t.hash)
    {
      SchemaSkillIsThere(servers, s, t);
      SkillIsWritten(d, skills, Skill(PathFor(s.name, t.name), t.hash));
    }
    forall l | l in inventory && Remote(servers, l)
      ensures var p, m := PathFor(l.server, l.tool), Mirror(d, skills); p in m && m[p] == Some(minimal)
    {
      ListedSkillIsThere(servers, inventory, minimal, l);
      SkillIsWritten(d, skills, Skill(PathFor(l.server, l.tool), minimal));
    }
  }

  lemma SkillIsWritten(d: Disk, skills: seq<Skill>, k: Skill)
    requires Unambiguous(skills) && k in skills
    ensures k.path in Mirror(d, skills) && Mirror(d, skills)[k.path] == Some(k.hash)
  {
    WriteAllIsLast(d, skills);
    LastHashIsOne(skills, k.path);
  }

  /** A tool that is only listed gets a file unless its server is Clementine's own or a plugin. */
  lemma ListedToolGetsAFile(server: string, tool: string, minimal: string)
    ensures Mirror(map[], AllSkills([], [Listed(server, tool)], minimal)) ==
            if server == "clementine-tools" || (|server| >= 7 && server[..7] == "plugin_") then map[]
            else map[PathFor(server, tool) := Some(minimal)]
  {
    var l, k := Listed(server, tool), Skill(PathFor(server, tool), minimal);
    assert "plugin_" <= server <==> |server| >= 7 && server[..7] == "plugin_";
    assert [l][..0] == [] && InventorySkills([], [], minimal) == [];
    assert AllSkills([], [l], minimal) == if Remote([], l) then [k] else [];
    if Remote([], l) {
      assert [k][..0] == [] && WriteAll(map[], [k]) == map[k.path := Some(minimal)];
      assert k.path in Paths([k]);
    }
  }

  /** Without two skills on one path, as many files are written as were not up to date. */
  lemma {:induction false} WrittenExactly(d: Disk, skills: seq<Skill>)
    requires forall i, j :: 0 <= i < j < |skills| ==> skills[i].path != skills[j].path
    ensures Written(d, skills) == |NotUpToDate(d, skills)|
  {
    if skills != [] {
      var front, k := skills[..|skills| - 1], skills[|skills| - 1];
      WrittenExactly(d, front);
      WriteAllIsLast(d, front);
      assert skills == front + [k] && k !in front && k.path !in Paths(front);
      OneMoreStale(d, front, k);
    }
  }

  function NotUpToDate(d: Disk, skills: seq<Skill>): set<Skill> { set k | k in skills && !UpToDate(d, k) }

  lemma OneMoreStale(d: Disk, front: seq<Skill>, k: Skill)
    requires k !in front
    ensures |NotUpToDate(d, front + [k])| == |NotUpToDate(d, front)| + if UpToDate(d, k) then 0 else 1
  {
    assert NotUpToDate(d, front + [k]) == NotUpToDate(d, front) + if UpToDate(d, k) then {} else {k};
  }
}
