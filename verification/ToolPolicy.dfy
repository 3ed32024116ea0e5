/** The tool-policy compiler: src/agent/execution-policy.ts. Sorted name lists are modelled as sets. */
module ToolPolicy {
  import opened Text
  import opened Wrappers

  // ---- Names ----

  const SDK_BUILTIN_TOOLS := {
    "Agent", "AskUserQuestion", "Bash", "Edit", "Glob", "Grep", "Monitor", "Read", "TodoWrite", "WebFetch",
    "WebSearch", "Write"
  }

  /** Clementine's server name, its registered tool names, and the commands found on PATH. */
  datatype Env = Env(server: string, tools: set<string>, onPath: set<string>)

  predicate NameChar(c: char) {
    'a' <= c <= 'z' || 'A' <= c <= 'Z' || '0' <= c <= '9' || c in {'_', '.', '-'}
  }

  /** Registered names are the ones the discovery patterns can capture. */
  ghost predicate Discovered(env: Env) {
    forall t :: t in env.tools ==> t != "" && forall i :: 0 <= i < |t| ==> NameChar(t[i]) || t[i] == ':'
  }

  predicate LineEnd(c: char) { c == '\n' || c == '\r' || c == '\U{2028}' || c == '\U{2029}' }

  /** /^Bash\(.+\)$/ */
  predicate BashForm(s: string) {
    |s| > 6 && "Bash(" <= s && s[|s| - 1] == ')' && forall i :: 5 <= i < |s| - 1 ==> !LineEnd(s[i])
  }

  predicate CommandExistsOnPath(c: string, env: Env) {
    c != "" && (forall i :: 0 <= i < |c| ==> NameChar(c[i])) && c in env.onPath
  }

  function Prefix(server: string): string { "mcp__" + server + "__" }

  function McpTool(server: string, name: string): string { Prefix(server) + name }

  // ---- One requested name ----

  /** Absent optional fields are empty strings. */
  datatype Normalized = Normalized(sdkTool: string, clementineTool: string, builtinTool: string, scopedBash: bool)

  function Normalize(raw: string, env: Env): Normalized { NormalizeTrimmed(Trim(raw), env) }

  function NormalizeTrimmed(tool: string, env: Env): Normalized {
    if tool == "" then Normalized("", "", "", false)
    else if BashForm(tool) then Normalized(tool, "", "Bash", tool != "Bash(*)")
    else if "mcp__" <= tool then
      if tool == McpTool(env.server, "*") then Normalized(tool, "*", "", false)
      else if Prefix(env.server) <= tool && tool != Prefix(env.server) then
        Normalized(tool, tool[|Prefix(env.server)|..], "", false)
      else Normalized(tool, "", "", false)
    else if tool in SDK_BUILTIN_TOOLS then Normalized(tool, "", tool, false)
    else if tool in env.tools then Normalized(McpTool(env.server, tool), tool, "", false)
    else if CommandExistsOnPath(tool, env) then Normalized("Bash(" + tool + ":*)", "", "Bash", true)
    else Normalized(tool, "", "", false)
  }

  lemma McpForm(server: string, name: string)
    ensures var t := McpTool(server, name);
            && "mcp__" <= t && !BashForm(t)
            && Prefix(server) <= t && t[|Prefix(server)|..] == name
            && (name != "" && !IsSpace(name[|name| - 1]) ==> Trimmed(t))
  {
    var t := McpTool(server, name);
    assert t == "mcp__" + (server + "__" + name);
    assert t[0] == 'm' && "Bash("[0] == 'B';
    if name != "" { assert t[|t| - 1] == name[|name| - 1]; }
  }

  lemma CommandForm(c: string)
    requires c != "" && forall i :: 0 <= i < |c| ==> NameChar(c[i])
    ensures var t := "Bash(" + c + ":*)"; BashForm(t) && Trimmed(t) && t != "Bash(*)" && t != "Bash"
  {
    var t := "Bash(" + c + ":*)";
    assert t == "Bash(" + (c + ":*)") && t[0] == 'B' && t[|t| - 1] == ')';
    assert forall i :: 5 <= i < |t| - 1 ==> t[i] == if i < 5 + |c| then c[i - 5] else ":*)"[i - 5 - |c|];
  }

  /** What the compiler knows of a normalised name. */
  ghost predicate Consistent(n: Normalized, env: Env) {
    && (n.sdkTool == "" ==> n == Normalized("", "", "", false))
    && (n.scopedBash ==> n.builtinTool == "Bash" && n.sdkTool != "Bash")
    && (n.sdkTool == "Bash" ==> n == Normalized("Bash", "", "Bash", false))
    && (n.builtinTool != "" ==> n.builtinTool in SDK_BUILTIN_TOOLS)
    && (n.clementineTool != "" ==> n.sdkTool == McpTool(env.server, n.clementineTool))
    && (forall name :: name != "" && n.sdkTool == McpTool(env.server, name) ==> n.clementineTool == name)
  }

  lemma McpNormalizes(env: Env, name: string)
    requires name != "" && !IsSpace(name[|name| - 1])
    ensures Normalize(McpTool(env.server, name), env) == Normalized(McpTool(env.server, name), name, "", false)
  {
    McpForm(env.server, name);
    McpForm(env.server, "*");
  }

  lemma BuiltinsAreCapitalized(b: string)
    requires b in SDK_BUILTIN_TOOLS
    ensures b != "" && 'A' <= b[0] <= 'Z'
  {
  }

  /** A name outside the mcp__ space is consistent whenever it names no Clementine tool. */
  lemma PlainIsConsistent(sdkTool: string, builtinTool: string, scoped: bool, env: Env)
    requires sdkTool != "" && sdkTool[0] != 'm'
    requires builtinTool == "" || builtinTool in SDK_BUILTIN_TOOLS
    requires scoped ==> builtinTool == "Bash" && sdkTool != "Bash"
    requires sdkTool == "Bash" ==> builtinTool == "Bash"
    ensures Consistent(Normalized(sdkTool, "", builtinTool, scoped), env)
  {
    assert "mcp__"[0] == 'm';
    forall name | sdkTool == McpTool(env.server, name)
      ensures false
    {
      McpForm(env.server, name);
    }
  }

  /** A name in the mcp__ space is consistent when it names exactly the Clementine tool it carries. */
  lemma McpIsConsistent(tool: string, name: string, env: Env)
    requires "mcp__" <= tool
    requires if Prefix(env.server) <= tool then name == tool[|Prefix(env.server)|..] else name == ""
    ensures Consistent(Normalized(tool, name, "", false), env)
  {
    assert tool[0] == 'm' && "Bash"[0] == 'B';
    forall other | other != "" && tool == McpTool(env.server, other)
      ensures other == name
    {
      McpForm(env.server, other);
    }
    if name != "" { assert tool == McpTool(env.server, name); }
  }

  lemma UnknownIsConsistent(tool: string, env: Env)
    requires tool != "" && !("mcp__" <= tool) && tool != "Bash"
    ensures Consistent(Normalized(tool, "", "", false), env)
  {
    forall name | tool == McpTool(env.server, name)
      ensures false
    {
      McpForm(env.server, name);
    }
  }

  lemma NormalizeIsConsistent(raw: string, env: Env)
    ensures Consistent(Normalize(raw, env), env)
  {
    var tool := Trim(raw);
    if tool == "" {
      UnknownName(env);
    } else if BashForm(tool) {
      assert tool[0] == 'B';
      PlainIsConsistent(tool, "Bash", tool != "Bash(*)", env);
    } else if "mcp__" <= tool {
      McpForm(env.server, "*");
      McpIsConsistent(tool, if Prefix(env.server) <= tool then tool[|Prefix(env.server)|..] else "", env);
    } else if tool in SDK_BUILTIN_TOOLS {
      BuiltinsAreCapitalized(tool);
      PlainIsConsistent(tool, tool, false, env);
    } else if tool in env.tools {
      McpForm(env.server, tool);
      McpIsConsistent(McpTool(env.server, tool), tool, env);
    } else if CommandExistsOnPath(tool, env) {
      CommandForm(tool);
      PlainIsConsistent("Bash(" + tool + ":*)", "Bash", true, env);
    } else {
      UnknownIsConsistent(tool, env);
    }
  }

  lemma UnknownName(env: Env)
    ensures Consistent(Normalized("", "", "", false), env)
  {
    forall name | "" == McpTool(env.server, name)
      ensures false
    {
      McpForm(env.server, name);
    }
  }

  /** A name is kept, or is a registered tool given its full name, or a command given its Bash scope. */
  lemma NormalizeCases(tool: string, env: Env)
    ensures var n := NormalizeTrimmed(tool, env);
            || n.sdkTool == tool
            || (tool in env.tools && n == Normalized(McpTool(env.server, tool), tool, "", false))
            || (tool != "" && (forall i :: 0 <= i < |tool| ==> NameChar(tool[i]))
              && n == Normalized("Bash(" + tool + ":*)", "", "Bash", true))
  {
  }

  /** A normalised name normalises to itself. */
  lemma NormalizeIsIdempotent(raw: string, env: Env)
    requires Discovered(env)
    ensures var n := Normalize(raw, env); n.sdkTool != "" ==> Normalize(n.sdkTool, env) == n
  {
    var tool, n := Trim(raw), Normalize(raw, env);
    NormalizeCases(tool, env);
    if n.sdkTool == tool {
      assert Normalize(tool, env) == NormalizeTrimmed(tool, env);
    } else if n.clementineTool == tool {
      McpNormalizes(env, tool);
    } else {
      CommandNormalizes(env, tool);
    }
  }

  lemma CommandNormalizes(env: Env, c: string)
    requires c != "" && forall i :: 0 <= i < |c| ==> NameChar(c[i])
    ensures Normalize("Bash(" + c + ":*)", env) == Normalized("Bash(" + c + ":*)", "", "Bash", true)
  {
    CommandForm(c);
  }

  // ---- The policy of a set of requests ----

  datatype Policy = Policy(builtins: set<string>, allowed: set<string>, clementine: set<string>)

  function Norms(requested: set<string>, env: Env): set<Normalized> {
    set r | r in requested :: Normalize(r, env)
  }

  predicate HasScopedBash(ns: set<Normalized>) { exists n :: n in ns && n.scopedBash }

  predicate Wild(ns: set<Normalized>) { exists n :: n in ns && n.clementineTool == "*" }

  function Names(ns: set<Normalized>): set<string> {
    set n | n in ns && n.clementineTool != "" && n.clementineTool != "*" :: n.clementineTool
  }

  function Builtins(ns: set<Normalized>): set<string> {
    set n | n in ns && n.builtinTool in SDK_BUILTIN_TOOLS :: n.builtinTool
  }

  /** What is approved as requested: nothing empty, and no broad Bash beside a scoped one. */
  predicate Kept(n: Normalized, scoped: bool) { n.sdkTool != "" && !(scoped && n.sdkTool == "Bash") }

  function Approved(ns: set<Normalized>, scoped: bool): set<string> {
    set n | n in ns && Kept(n, scoped) :: n.sdkTool
  }

  predicate CanRead(ns: set<Normalized>) { "Read" in Builtins(ns) || "Bash" in Builtins(ns) }

  /** The ingestion tools that come with memory_write. */
  function Companions(ns: set<Normalized>, env: Env): set<string> {
    if Wild(ns) || "memory_write" !in Names(ns) then {}
    else
      (({"brain_save"} + if CanRead(ns) then {"brain_ingest_folder"} else {}) * env.tools) - Names(ns)
  }

  function McpTools(names: set<string>, env: Env): set<string> {
    set c | c in names :: McpTool(env.server, c)
  }

  function PolicyOf(ns: set<Normalized>, env: Env): Policy {
    var extra := Companions(ns, env);
    Policy(Builtins(ns), Approved(ns, HasScopedBash(ns)) + McpTools(extra, env),
           if Wild(ns) then {"*"} else Names(ns) + extra)
  }

  /** The policy for explicitly requested tools. */
  function Compile(requested: set<string>, env: Env): Policy { PolicyOf(Norms(requested, env), env) }

  // ---- Laws of explicit policies ----

  ghost predicate AllConsistent(ns: set<Normalized>, env: Env) { forall n :: n in ns ==> Consistent(n, env) }

  lemma NormsAreConsistent(requested: set<string>, env: Env)
    ensures AllConsistent(Norms(requested, env), env)
  {
    forall n | n in Norms(requested, env)
      ensures Consistent(n, env)
    {
      var r :| r in requested && Normalize(r, env) == n;
      NormalizeIsConsistent(r, env);
    }
  }

  function CompanionNorms(ns: set<Normalized>, env: Env): set<Normalized> {
    set c | c in Companions(ns, env) :: Normalized(McpTool(env.server, c), c, "", false)
  }

  function KeptNorms(ns: set<Normalized>): set<Normalized> {
    set n | n in ns && Kept(n, HasScopedBash(ns))
  }

  lemma KeptReadBack(requested: set<string>, env: Env, n: Normalized)
    requires Discovered(env) && n in Norms(requested, env) && n.sdkTool != ""
    ensures Normalize(n.sdkTool, env) == n
  {
    var r :| r in requested && Normalize(r, env) == n;
    NormalizeIsIdempotent(r, env);
  }

  lemma CompanionReadBack(ns: set<Normalized>, env: Env, c: string)
    requires c in Companions(ns, env)
    ensures Normalize(McpTool(env.server, c), env) == Normalized(McpTool(env.server, c), c, "", false)
  {
    McpNormalizes(env, c);
  }

  /** Reading the approved names back gives the kept requests and the companions. */
  lemma ReadBack(requested: set<string>, env: Env)
    requires Discovered(env)
    ensures var ns := Norms(requested, env);
            Norms(PolicyOf(ns, env).allowed, env) == KeptNorms(ns) + CompanionNorms(ns, env)
  {
    var ns := Norms(requested, env);
    var scoped, extra := HasScopedBash(ns), Companions(ns, env);
    forall n | n in ns && Kept(n, scoped)
      ensures n.sdkTool in Approved(ns, scoped) && Normalize(n.sdkTool, env) == n
    {
      KeptReadBack(requested, env, n);
    }
    forall c | c in extra
      ensures McpTool(env.server, c) in McpTools(extra, env)
      ensures Normalize(McpTool(env.server, c), env) == Normalized(McpTool(env.server, c), c, "", false)
    {
      CompanionReadBack(ns, env, c);
    }
  }

  lemma SameScope(ns: set<Normalized>, env: Env)
    requires AllConsistent(ns, env)
    ensures var ms := KeptNorms(ns) + CompanionNorms(ns, env);
            && HasScopedBash(ms) == HasScopedBash(ns)
            && Builtins(ms) == Builtins(ns)
  {
    var ms := KeptNorms(ns) + CompanionNorms(ns, env);
    if HasScopedBash(ns) {
      var s :| s in ns && s.scopedBash;
      assert s in ms && s.builtinTool == "Bash";
    }
    forall n | n in ns && n !in ms
      ensures n.sdkTool == "" || (n == Normalized("Bash", "", "Bash", false) && HasScopedBash(ns))
    {
    }
    assert "" !in SDK_BUILTIN_TOOLS;
  }

  lemma SameNames(ns: set<Normalized>, env: Env)
    requires AllConsistent(ns, env)
    ensures var ms := KeptNorms(ns) + CompanionNorms(ns, env);
            && Wild(ms) == Wild(ns)
            && Names(ms) == Names(ns) + Companions(ns, env)
  {
    var ms := KeptNorms(ns) + CompanionNorms(ns, env);
    forall n | n in ns && n !in ms
      ensures n.sdkTool == "" || n == Normalized("Bash", "", "Bash", false)
    {
    }
    forall c | c in Companions(ns, env)
      ensures Normalized(McpTool(env.server, c), c, "", false) in ms
    {
    }
    assert "brain_save" != "*" && "brain_ingest_folder" != "*";
  }

  lemma NoFurtherCompanions(ns: set<Normalized>, ms: set<Normalized>, env: Env)
    requires Wild(ms) == Wild(ns) && Builtins(ms) == Builtins(ns) && Names(ms) == Names(ns) + Companions(ns, env)
    ensures Companions(ms, env) == {}
  {
    assert "memory_write" !in Companions(ns, env);
  }

  lemma SameApproval(ns: set<Normalized>, env: Env)
    requires AllConsistent(ns, env)
    ensures var ms := KeptNorms(ns) + CompanionNorms(ns, env);
            Approved(ms, HasScopedBash(ns)) == Approved(ns, HasScopedBash(ns)) + McpTools(Companions(ns, env), env)
  {
    forall c | c in Companions(ns, env)
      ensures McpTool(env.server, c) != "" && McpTool(env.server, c) != "Bash"
    {
      McpForm(env.server, c);
      assert "mcp__"[0] != "Bash"[0];
    }
    forall c | c in Companions(ns, env)
      ensures Normalized(McpTool(env.server, c), c, "", false) in KeptNorms(ns) + CompanionNorms(ns, env)
    {
    }
  }

  lemma Reproduces(ns: set<Normalized>, ms: set<Normalized>, env: Env)
    requires HasScopedBash(ms) == HasScopedBash(ns) && Wild(ms) == Wild(ns) && Builtins(ms) == Builtins(ns)
    requires Names(ms) == Names(ns) + Companions(ns, env) && Companions(ms, env) == {}
    requires Approved(ms, HasScopedBash(ns)) == Approved(ns, HasScopedBash(ns)) + McpTools(Companions(ns, env), env)
    ensures PolicyOf(ms, env) == PolicyOf(ns, env)
  {
    assert McpTools({}, env) == {};
  }

  /**
   The compiler is a closure: feeding the approved names back as the request reproduces the whole
   policy, through Bash scoping, command wrapping and companion tools.
   */
  lemma CompileIsClosed(requested: set<string>, env: Env)
    requires Discovered(env)
    ensures Compile(Compile(requested, env).allowed, env) == Compile(requested, env)
  {
    var ns := Norms(requested, env);
    var ms := KeptNorms(ns) + CompanionNorms(ns, env);
    NormsAreConsistent(requested, env);
    ReadBack(requested, env);
    SameScope(ns, env);
    SameNames(ns, env);
    NoFurtherCompanions(ns, ms, env);
    SameApproval(ns, env);
    Reproduces(ns, ms, env);
  }

  /** Without a wildcard, a tool is on the subprocess allowlist exactly when its full MCP name is approved. */
  lemma AllowlistMatchesApproval(requested: set<string>, env: Env, name: string)
    requires name != "" && "*" !in Compile(requested, env).clementine
    ensures name in Compile(requested, env).clementine <==> McpTool(env.server, name) in Compile(requested, env).allowed
  {
    var ns := Norms(requested, env);
    var full := McpTool(env.server, name);
    NormsAreConsistent(requested, env);
    McpForm(env.server, name);
    assert "mcp__"[0] != "Bash"[0];
    if name in Names(ns) {
      var n :| n in ns && n.clementineTool == name;
      assert n.sdkTool == full && Kept(n, HasScopedBash(ns));
    } else if full in McpTools(Companions(ns, env), env) {
      var c :| c in Companions(ns, env) && McpTool(env.server, c) == full;
      McpForm(env.server, c);
    }
  }

  /** The wildcard absorbs every other Clementine name, and appears only when it was requested. */
  lemma WildcardAbsorbs(requested: set<string>, env: Env)
    ensures "*" in Compile(requested, env).clementine <==> McpTool(env.server, "*") in Compile(requested, env).allowed
    ensures "*" in Compile(requested, env).clementine ==> Compile(requested, env).clementine == {"*"}
  {
    NormsAreConsistent(requested, env);
  }

  /** One scoped Bash request withholds broad Bash from approval while Bash stays visible. */
  lemma ScopedBashNarrows(requested: set<string>, env: Env, r: string)
    requires r in requested && Normalize(r, env).scopedBash
    ensures "Bash" !in Compile(requested, env).allowed && "Bash" in Compile(requested, env).builtins
    ensures Normalize(r, env).sdkTool in Compile(requested, env).allowed
  {
    NormsAreConsistent(requested, env);
  }

  // ---- The default policy ----

  /** requestedTools undefined: the default built-ins and a wildcard for every mounted server. */
  function CompileDefaults(defaults: set<string>, servers: set<string>, env: Env): Policy {
    var ns := Norms(defaults, env);
    Policy(Builtins(ns), Approved(ns, false) + Wildcards(servers),
           if Wild(ns) || env.server in servers - {""} then {"*"} else Names(ns))
  }

  function Wildcards(servers: set<string>): set<string> {
    set s | s in servers - {""} :: McpTool(s, "*")
  }

  function NonEmpty(ns: set<Normalized>): set<Normalized> { set n | n in ns && n.sdkTool != "" }

  function WildcardNorms(servers: set<string>, env: Env): set<Normalized> {
    set s | s in servers - {""} :: Normalize(McpTool(s, "*"), env)
  }

  /** The requests that the default policy's approved names amount to. */
  function DefaultNorms(defaults: set<string>, servers: set<string>, env: Env): set<Normalized> {
    NonEmpty(Norms(defaults, env)) + WildcardNorms(servers, env)
  }

  /**
   What a caller checks: no broad Bash beside a scoped one, and, unless Clementine's wildcard is in
   force, no companion tool missing and no mounted server whose name extends Clementine's.
   */
  predicate DefaultsClosed(defaults: set<string>, servers: set<string>, env: Env) {
    var ns, ms := Norms(defaults, env), DefaultNorms(defaults, servers, env);
    && !(HasScopedBash(ns) && "Bash" in Approved(ns, false))
    && (Wild(ns) || env.server in servers - {""} || (Companions(ms, env) == {} && Names(ms) <= Names(ns)))
  }

  lemma WildcardNorm(s: string, env: Env)
    ensures var n := Normalize(McpTool(s, "*"), env);
            && n.sdkTool == McpTool(s, "*") && n.builtinTool == "" && !n.scopedBash && n.sdkTool != ""
            && n.sdkTool != "Bash" && (n.clementineTool == "*" <==> s == env.server)
  {
    McpForm(s, "*");
    McpForm(env.server, "*");
    assert McpTool(s, "*")[0] == 'm';
    if McpTool(s, "*") == McpTool(env.server, "*") { SameServer(s, env.server); }
  }

  lemma SameServer(a: string, b: string)
    requires McpTool(a, "*") == McpTool(b, "*")
    ensures a == b
  {
    var t := McpTool(a, "*");
    assert t == "mcp__" + (a + "__*") && t == "mcp__" + (b + "__*");
    assert t[5..|t| - 3] == a && t[5..|t| - 3] == b;
  }

  lemma DefaultsReadBack(defaults: set<string>, servers: set<string>, env: Env)
    requires Discovered(env)
    ensures Norms(CompileDefaults(defaults, servers, env).allowed, env) == DefaultNorms(defaults, servers, env)
  {
    var ns := Norms(defaults, env);
    forall n | n in ns && n.sdkTool != ""
      ensures n.sdkTool in Approved(ns, false) && Normalize(n.sdkTool, env) == n
    {
      KeptReadBack(defaults, env, n);
    }
    forall s | s in servers - {""}
      ensures McpTool(s, "*") in Wildcards(servers)
    {
    }
  }

  lemma NonEmptyFacts(ns: set<Normalized>, env: Env)
    requires AllConsistent(ns, env)
    ensures var ms := NonEmpty(ns);
            && AllConsistent(ms, env)
            && HasScopedBash(ms) == HasScopedBash(ns) && Builtins(ms) == Builtins(ns) && Wild(ms) == Wild(ns)
            && Names(ms) == Names(ns) && Approved(ms, false) == Approved(ns, false)
  {
    assert "" !in SDK_BUILTIN_TOOLS;
    assert forall n :: n in ns && (n.scopedBash || n.builtinTool != "" || n.clementineTool != "") ==> n in NonEmpty(ns);
  }

  lemma WildcardNormsFacts(servers: set<string>, env: Env)
    ensures var ms := WildcardNorms(servers, env);
            && AllConsistent(ms, env)
            && !HasScopedBash(ms) && Builtins(ms) == {} && (Wild(ms) <==> env.server in servers - {""})
            && Approved(ms, false) == Wildcards(servers) && "Bash" !in Wildcards(servers)
  {
    var ms := WildcardNorms(servers, env);
    assert "" !in SDK_BUILTIN_TOOLS;
    forall s | s in servers - {""}
      ensures var n := Normalize(McpTool(s, "*"), env);
              && n in ms && n.sdkTool == McpTool(s, "*") && n.builtinTool == "" && !n.scopedBash && n.sdkTool != ""
              && n.sdkTool != "Bash" && (n.clementineTool == "*" <==> s == env.server) && Consistent(n, env)
    {
      WildcardNorm(s, env);
      NormalizeIsConsistent(McpTool(s, "*"), env);
    }
  }

  lemma UnionFacts(a: set<Normalized>, b: set<Normalized>)
    ensures HasScopedBash(a + b) == (HasScopedBash(a) || HasScopedBash(b))
    ensures Wild(a + b) == (Wild(a) || Wild(b))
    ensures Builtins(a + b) == Builtins(a) + Builtins(b)
    ensures Names(a + b) == Names(a) + Names(b)
    ensures Approved(a + b, false) == Approved(a, false) + Approved(b, false)
  {
  }

  lemma ApprovedUnscoped(ns: set<Normalized>, scoped: bool)
    ensures Approved(ns, scoped) == Approved(ns, false) - if scoped then {"Bash"} else {}
  {
  }

  lemma CompanionsAreNew(ms: set<Normalized>, env: Env)
    requires AllConsistent(ms, env)
    ensures McpTools(Companions(ms, env), env) !! Approved(ms, false)
    ensures "Bash" !in McpTools(Companions(ms, env), env)
  {
    forall c | c in Companions(ms, env)
      ensures McpTool(env.server, c) !in Approved(ms, false) && McpTool(env.server, c) != "Bash"
    {
      McpForm(env.server, c);
      assert "mcp__"[0] != "Bash"[0];
    }
  }

  /** Two policies over the same names differ exactly by a withheld Bash or by added Clementine names. */
  lemma PoliciesAgree(allowed: set<string>, names: set<string>, more: set<string>, extra: set<string>,
                      scoped: bool, wild: bool, env: Env)
    requires names <= more && (wild ==> extra == {})
    requires McpTools(extra, env) !! allowed && "Bash" !in McpTools(extra, env)
    ensures (allowed - (if scoped then {"Bash"} else {}) + McpTools(extra, env) == allowed
             && (if wild then {"*"} else more + extra) == (if wild then {"*"} else names))
            <==> (!(scoped && "Bash" in allowed) && (wild || (extra == {} && more <= names)))
  {
    if extra == {} {
      assert McpTools(extra, env) == {};
    } else {
      var c :| c in extra;
      assert McpTool(env.server, c) in McpTools(extra, env);
    }
  }

  lemma DefaultsAreConsistent(defaults: set<string>, servers: set<string>, env: Env)
    ensures AllConsistent(DefaultNorms(defaults, servers, env), env)
  {
    NormsAreConsistent(defaults, env);
    WildcardNormsFacts(servers, env);
  }

  /** The default policy in terms of the request set that its approved names amount to. */
  lemma DefaultForms(defaults: set<string>, servers: set<string>, env: Env)
    ensures var ns, ms := Norms(defaults, env), DefaultNorms(defaults, servers, env);
            && HasScopedBash(ms) == HasScopedBash(ns) && Builtins(ms) == Builtins(ns)
            && (Wild(ms) <==> Wild(ns) || env.server in servers - {""})
            && Names(ns) <= Names(ms)
            && Approved(ms, false) == Approved(ns, false) + Wildcards(servers)
            && "Bash" !in Wildcards(servers)
  {
    var ns, ws := Norms(defaults, env), WildcardNorms(servers, env);
    assert AllConsistent(ns, env) by { NormsAreConsistent(defaults, env); }
    NonEmptyFacts(ns, env);
    WildcardNormsFacts(servers, env);
    UnionFacts(NonEmpty(ns), ws);
  }

  lemma CompiledDefaults(defaults: set<string>, servers: set<string>, env: Env)
    requires Discovered(env)
    ensures Compile(CompileDefaults(defaults, servers, env).allowed, env)
      == PolicyOf(DefaultNorms(defaults, servers, env), env)
  {
    DefaultsReadBack(defaults, servers, env);
  }

  lemma SamePolicyExactly(ns: set<Normalized>, ms: set<Normalized>, env: Env)
    requires AllConsistent(ms, env) && Names(ns) <= Names(ms)
    ensures PolicyOf(ms, env) == Policy(Builtins(ms), Approved(ms, false), if Wild(ms) then {"*"} else Names(ns))
            <==> && !(HasScopedBash(ms) && "Bash" in Approved(ms, false))
                 && (Wild(ms) || (Companions(ms, env) == {} && Names(ms) <= Names(ns)))
  {
    var scoped, extra := HasScopedBash(ms), Companions(ms, env);
    ApprovedUnscoped(ms, scoped);
    CompanionsAreNew(ms, env);
    PoliciesAgree(Approved(ms, false), Names(ns), Names(ms), extra, scoped, Wild(ms), env);
  }

  /** The default policy reproduces itself exactly under that condition. */
  lemma DefaultsClosedExactly(defaults: set<string>, servers: set<string>, env: Env)
    requires Discovered(env)
    ensures Compile(CompileDefaults(defaults, servers, env).allowed, env) == CompileDefaults(defaults, servers, env)
            <==> DefaultsClosed(defaults, servers, env)
  {
    DefaultsAreConsistent(defaults, servers, env);
    DefaultForms(defaults, servers, env);
    CompiledDefaults(defaults, servers, env);
    SamePolicyExactly(Norms(defaults, env), DefaultNorms(defaults, servers, env), env);
  }

  /** With Clementine's own server mounted and no scoped Bash among the defaults, the policy is closed. */
  lemma MountedDefaultsAreClosed(defaults: set<string>, servers: set<string>, env: Env)
    requires Discovered(env) && env.server != "" && env.server in servers
    requires !HasScopedBash(Norms(defaults, env))
    ensures Compile(CompileDefaults(defaults, servers, env).allowed, env) == CompileDefaults(defaults, servers, env)
  {
    DefaultsClosedExactly(defaults, servers, env);
  }

  const TOOLS_SERVER := "clementine-tools"

  /** The defaults of the one caller. */
  const CORE_TOOLS_FOR_AGENT_PARENT: set<string> := CORE_BUILTINS + CORE_IDENTITY_TOOLS

  const CORE_BUILTINS: set<string> :=
    {"Agent", "Read", "Write", "Edit", "Glob", "Grep", "Bash", "WebSearch", "WebFetch", "TodoWrite"}

  const CORE_IDENTITY_TOOLS: set<string> := {
    "mcp__clementine-tools__memory_search", "mcp__clementine-tools__transcript_search",
    "mcp__clementine-tools__memory_write", "mcp__clementine-tools__note_take",
    "mcp__clementine-tools__note_create", "mcp__clementine-tools__task_add"
  }

  lemma CoreToolIsUnscoped(tool: string, env: Env)
    requires tool in CORE_TOOLS_FOR_AGENT_PARENT
    ensures !Normalize(tool, env).scopedBash
  {
    if tool in CORE_BUILTINS {
      assert tool in SDK_BUILTIN_TOOLS && Trimmed(tool);
    } else {
      assert tool[0] == 'm' && "mcp__" <= tool && Trimmed(tool);
    }
  }

  /** So the daemon's own default policy is closed, whatever other servers it mounts. */
  lemma DaemonDefaultsAreClosed(others: set<string>, env: Env)
    requires Discovered(env) && env.server == TOOLS_SERVER
    ensures var p := CompileDefaults(CORE_TOOLS_FOR_AGENT_PARENT, {TOOLS_SERVER} + others, env);
            Compile(p.allowed, env) == p
  {
    forall tool | tool in CORE_TOOLS_FOR_AGENT_PARENT
      ensures !Normalize(tool, env).scopedBash
    {
      CoreToolIsUnscoped(tool, env);
    }
    MountedDefaultsAreClosed(CORE_TOOLS_FOR_AGENT_PARENT, {TOOLS_SERVER} + others, env);
  }

  const GIT_BASH := "Bash(git:*)"

  lemma GitBashIsScoped(env: Env)
    ensures Normalize(GIT_BASH, env) == Normalized(GIT_BASH, "", "Bash", true)
  {
    assert Trimmed(GIT_BASH) && BashForm(GIT_BASH);
  }

  lemma BashIsBroad(env: Env)
    ensures Normalize("Bash", env) == Normalized("Bash", "", "Bash", false)
  {
    assert Trimmed("Bash") && !BashForm("Bash") && "Bash"[0] == 'B' && "mcp__"[0] == 'm';
  }

  /** An input that fails: broad Bash beside a scoped one is approved by default and withheld on request. */
  lemma ScopedDefaultIsNotClosed(servers: set<string>, env: Env)
    ensures var p := CompileDefaults({"Bash", GIT_BASH}, servers, env);
            "Bash" in p.allowed && "Bash" !in Compile(p.allowed, env).allowed
  {
    var defaults := {"Bash", GIT_BASH};
    GitBashIsScoped(env);
    BashIsBroad(env);
    assert Normalize("Bash", env) in Norms(defaults, env) && Normalize(GIT_BASH, env) in Norms(defaults, env);
    ScopedBashNarrows(CompileDefaults(defaults, servers, env).allowed, env, GIT_BASH);
  }

  // ---- The compiler ----

  function Elems<T(==)>(s: seq<T>): set<T> { set x | x in s }

  function AddBuiltin(n: Normalized): set<string> {
    if n.builtinTool in SDK_BUILTIN_TOOLS then {n.builtinTool} else {}
  }

  function AddAllowed(n: Normalized, skipBroadBash: bool): set<string> {
    if Kept(n, skipBroadBash) then {n.sdkTool} else {}
  }

  function Absorb(allow: set<string>, tool: string): set<string> {
    if tool == "*" then {"*"} else if tool != "" && "*" !in allow then allow + {tool} else allow
  }

  /** One more request in the set. */
  lemma PolicyStep(ns: set<Normalized>, n: Normalized, scoped: bool)
    ensures Builtins(ns + {n}) == Builtins(ns) + AddBuiltin(n)
    ensures Approved(ns + {n}, scoped) == Approved(ns, scoped) + AddAllowed(n, scoped)
    ensures Wild(ns + {n}) == (Wild(ns) || n.clementineTool == "*")
    ensures Names(ns + {n})
         == Names(ns) + if n.clementineTool != "" && n.clementineTool != "*" then {n.clementineTool} else {}
    ensures HasScopedBash(ns + {n}) == (HasScopedBash(ns) || n.scopedBash)
    ensures !Wild({}) && !HasScopedBash({}) && Names({}) == {} && Builtins({}) == {} && Approved({}, scoped) == {}
  {
  }

  /** The three Sets that are filled while a policy is built. */
  class Builder {
    var builtins: set<string>
    var allowed: set<string>
    var clementineAllow: set<string>

    constructor ()
      ensures builtins == {} && allowed == {} && clementineAllow == {}
    {
      builtins, allowed, clementineAllow := {}, {}, {};
    }

    method ApplyNormalizedTool(n: Normalized, skipBroadBash: bool)
      requires n.sdkTool == "" ==> n == Normalized("", "", "", false)
      modifies this
      ensures builtins == old(builtins) + AddBuiltin(n)
      ensures allowed == old(allowed) + AddAllowed(n, skipBroadBash)
      ensures clementineAllow == Absorb(old(clementineAllow), n.clementineTool)
    {
      if n.sdkTool == "" {
        assert "" !in SDK_BUILTIN_TOOLS;
        return;
      }
      if n.builtinTool in SDK_BUILTIN_TOOLS { builtins := builtins + {n.builtinTool}; }
      if !(skipBroadBash && n.sdkTool == "Bash") { allowed := allowed + {n.sdkTool}; }
      if n.clementineTool == "*" {
        clementineAllow := {};
        clementineAllow := clementineAllow + {"*"};
      } else if n.clementineTool != "" && "*" !in clementineAllow {
        clementineAllow := clementineAllow + {n.clementineTool};
      }
    }

    /** The loop over the requests. */
    method ApplyAll(norms: seq<Normalized>, skipBroadBash: bool)
      requires forall n :: n in norms ==> (n.sdkTool == "" ==> n == Normalized("", "", "", false))
      requires builtins == {} && allowed == {} && clementineAllow == {}
      modifies this
      ensures var ns := Elems(norms);
              && builtins == Builtins(ns) && allowed == Approved(ns, skipBroadBash)
              && clementineAllow == if Wild(ns) then {"*"} else Names(ns)
    {
      ghost var ns: set<Normalized> := {};
      for i := 0 to |norms|
        invariant ns == Elems(norms[..i])
        invariant builtins == Builtins(ns) && allowed == Approved(ns, skipBroadBash)
        invariant clementineAllow == if Wild(ns) then {"*"} else Names(ns)
      {
        PolicyStep(ns, norms[i], skipBroadBash);
        assert norms[..i + 1] == norms[..i] + [norms[i]];
        ApplyNormalizedTool(norms[i], skipBroadBash);
        ns := ns + {norms[i]};
      }
      assert norms[..|norms|] == norms;
    }

    method ApplyCompanion(c: string, requested: set<string>, env: Env)
      requires c in {"brain_save", "brain_ingest_folder"} && "*" !in clementineAllow
      modifies this
      ensures var extra := {c} * env.tools - requested;
              && builtins == old(builtins)
              && allowed == old(allowed) + McpTools(extra, env)
              && clementineAllow == old(clementineAllow) + extra
    {
      if c !in env.tools || c in requested {
        assert {c} * env.tools - requested == {} && McpTools({}, env) == {};
        return;
      }
      BareNormalizes(c, env);
      assert {c} * env.tools - requested == {c} && McpTools({c}, env) == {McpTool(env.server, c)};
      assert "" !in SDK_BUILTIN_TOOLS;
      ApplyNormalizedTool(Normalize(c, env), false);
    }

    method ApplyMemoryCompanionTools(norms: seq<Normalized>, env: Env)
      requires clementineAllow == if Wild(Elems(norms)) then {"*"} else Names(Elems(norms))
      modifies this
      ensures builtins == old(builtins)
      ensures allowed == old(allowed) + McpTools(Companions(Elems(norms), env), env)
      ensures clementineAllow == old(clementineAllow) + Companions(Elems(norms), env)
    {
      assert McpTools({}, env) == {};
      if "*" in clementineAllow { return; }
      var requested := set n | n in norms && n.clementineTool != "" && n.clementineTool != "*" :: n.clementineTool;
      NamesOfList(norms, requested);
      if "memory_write" !in requested { return; }
      var companions := ["brain_save"];
      var canReadLocalData := exists n :: n in norms && (n.builtinTool == "Read" || n.builtinTool == "Bash");
      if canReadLocalData { companions := companions + ["brain_ingest_folder"]; }
      CanReadOfList(norms, canReadLocalData);
      assert Elems(companions) * env.tools - requested == Companions(Elems(norms), env);
      ApplyCompanions(companions, requested, env);
    }

    /** The loop over the companion tools. */
    method ApplyCompanions(companions: seq<string>, requested: set<string>, env: Env)
      requires Elems(companions) <= {"brain_save", "brain_ingest_folder"} && "*" !in clementineAllow
      modifies this
      ensures var extra := Elems(companions) * env.tools - requested;
              && builtins == old(builtins)
              && allowed == old(allowed) + McpTools(extra, env)
              && clementineAllow == old(clementineAllow) + extra
    {
      ghost var extra: set<string> := {};
      assert McpTools({}, env) == {} && "*" !in {"brain_save", "brain_ingest_folder"};
      for i := 0 to |companions|
        invariant extra == Elems(companions[..i]) * env.tools - requested && extra <= Elems(companions)
        invariant builtins == old(builtins)
        invariant allowed == old(allowed) + McpTools(extra, env)
        invariant clementineAllow == old(clementineAllow) + extra
      {
        assert companions[..i + 1] == companions[..i] + [companions[i]];
        assert companions[i] in Elems(companions);
        ghost var more := {companions[i]} * env.tools - requested;
        ApplyCompanion(companions[i], requested, env);
        McpToolsUnion(extra, more, env);
        extra := extra + more;
      }
      assert companions[..|companions|] == companions;
    }

    /** The default mode: every mounted server's wildcard. */
    method AddServers(servers: seq<string>, env: Env)
      modifies this
      ensures builtins == old(builtins)
      ensures allowed == old(allowed) + Wildcards(Elems(servers))
      ensures clementineAllow == old(clementineAllow) + if env.server in Elems(servers) - {""} then {"*"} else {}
    {
      ghost var seen: set<string> := {};
      assert Wildcards({}) == {};
      for i := 0 to |servers|
        invariant seen == Elems(servers[..i])
        invariant builtins == old(builtins) && allowed == old(allowed) + Wildcards(seen)
        invariant clementineAllow == old(clementineAllow) + if env.server in seen - {""} then {"*"} else {}
      {
        assert servers[..i + 1] == servers[..i] + [servers[i]];
        WildcardsStep(seen, servers[i]);
        seen := seen + {servers[i]};
        if servers[i] == "" { continue; }
        allowed := allowed + {McpTool(servers[i], "*")};
        if servers[i] == env.server { clementineAllow := clementineAllow + {"*"}; }
      }
      assert servers[..|servers|] == servers;
    }
  }

  lemma McpToolsUnion(a: set<string>, b: set<string>, env: Env)
    ensures McpTools(a + b, env) == McpTools(a, env) + McpTools(b, env)
  {
  }

  lemma WildcardsStep(seen: set<string>, s: string)
    ensures Wildcards(seen + {s}) == Wildcards(seen) + if s == "" then {} else {McpTool(s, "*")}
  {
  }

  lemma NamesOfList(norms: seq<Normalized>, requested: set<string>)
    requires requested == set n | n in norms && n.clementineTool != "" && n.clementineTool != "*" :: n.clementineTool
    ensures requested == Names(Elems(norms))
  {
  }

  lemma CanReadOfList(norms: seq<Normalized>, canRead: bool)
    requires canRead == exists n :: n in norms && (n.builtinTool == "Read" || n.builtinTool == "Bash")
    ensures canRead == CanRead(Elems(norms))
  {
    assert "Read" in SDK_BUILTIN_TOOLS && "Bash" in SDK_BUILTIN_TOOLS;
    if canRead {
      var n :| n in norms && (n.builtinTool == "Read" || n.builtinTool == "Bash");
      assert n in Elems(norms);
    }
  }

  lemma BareNormalizes(c: string, env: Env)
    requires c in {"brain_save", "brain_ingest_folder"} && c in env.tools
    ensures Normalize(c, env) == Normalized(McpTool(env.server, c), c, "", false)
    ensures McpTool(env.server, c) != "" && McpTool(env.server, c) != "Bash"
  {
    McpForm(env.server, c);
    assert "mcp__"[0] != "Bash"[0] && c[0] == 'b' && "Bash("[0] == 'B';
    assert Trimmed(c);
    if c in SDK_BUILTIN_TOOLS { BuiltinsAreCapitalized(c); }
  }

  lemma NormsOfList(raw: seq<string>, norms: seq<Normalized>, env: Env)
    requires |norms| == |raw| && forall i :: 0 <= i < |raw| ==> norms[i] == Normalize(raw[i], env)
    ensures Elems(norms) == Norms(Elems(raw), env)
    ensures forall n :: n in norms ==> Consistent(n, env)
  {
    forall i | 0 <= i < |raw|
      ensures norms[i] in Norms(Elems(raw), env) && Consistent(norms[i], env)
    {
      assert raw[i] in Elems(raw);
      NormalizeIsConsistent(raw[i], env);
    }
    forall n | n in Norms(Elems(raw), env)
      ensures n in norms
    {
      var x :| x in raw && Normalize(x, env) == n;
      var i :| 0 <= i < |raw| && raw[i] == x;
      assert norms[i] == n;
    }
  }

  /** The whole compiler: the result depends only on the set of requested names. */
  method BuildExecutionToolPolicy(requested: Option<seq<string>>, defaults: seq<string>, servers: seq<string>, env: Env)
    returns (r: Policy)
    ensures requested.Some? ==> r == Compile(Elems(requested.value), env)
    ensures requested.None? ==> r == CompileDefaults(Elems(defaults), Elems(servers), env)
  {
    var sets := new Builder();
    var raw := if requested.Some? then requested.value else defaults;
    var norms := seq(|raw|, i requires 0 <= i < |raw| => Normalize(raw[i], env));
    NormsOfList(raw, norms, env);
    if requested.Some? {
      var hasScopedBash := exists n :: n in norms && n.scopedBash;
      assert hasScopedBash == HasScopedBash(Elems(norms));
      sets.ApplyAll(norms, hasScopedBash);
      if |requested.value| > 0 {
        sets.ApplyMemoryCompanionTools(norms, env);
      } else {
        assert Elems(norms) == {} && McpTools({}, env) == {};
      }
    } else {
      sets.ApplyAll(norms, false);
      sets.AddServers(servers, env);
    }
    if "*" in sets.clementineAllow {
      r := Policy(sets.builtins, sets.allowed, {"*"});
    } else {
      r := Policy(sets.builtins, sets.allowed, sets.clementineAllow);
    }
    NoStarAmongNames(Elems(norms), env);
  }

  lemma NoStarAmongNames(ns: set<Normalized>, env: Env)
    ensures "*" !in Names(ns) && "*" !in Companions(ns, env)
  {
    assert "brain_save" != "*" && "brain_ingest_folder" != "*";
  }
}
