/** What each requested name means by itself, and what names mean together: the compiler without its normal form. */
module ToolRequests {
  import opened Text
  import opened ToolPolicy
  import opened Wrappers

  // ---- One name ----

  lemma FullNameIsLong(env: Env, name: string)
    ensures |McpTool(env.server, name)| > |"Bash"|
  {
    assert McpTool(env.server, name) == "mcp__" + (env.server + "__" + name);
  }

  lemma EmptyIsNoBuiltin()
    ensures "" !in SDK_BUILTIN_TOOLS
  {
  }

  lemma OneParts(n: Normalized, env: Env)
    requires n.clementineTool != "memory_write"
    ensures Builtins({n}) == if n.builtinTool in SDK_BUILTIN_TOOLS then {n.builtinTool} else {}
    ensures HasScopedBash({n}) == n.scopedBash && Wild({n}) == (n.clementineTool == "*")
    ensures Approved({n}, n.scopedBash) == if Kept(n, n.scopedBash) then {n.sdkTool} else {}
    ensures Names({n}) == if n.clementineTool != "" && n.clementineTool != "*" then {n.clementineTool} else {}
    ensures Companions({n}, env) == {}
  {
    assert n in {n};
  }

  lemma OnePolicy(raw: string, n: Normalized, env: Env)
    requires Normalize(raw, env) == n && n.clementineTool != "memory_write"
    ensures Compile({raw}, env) ==
            Policy(if n.builtinTool in SDK_BUILTIN_TOOLS then {n.builtinTool} else {},
                   if Kept(n, n.scopedBash) then {n.sdkTool} else {},
                   if n.clementineTool != "" then {n.clementineTool} else {})
  {
    assert Norms({raw}, env) == {n};
    OneParts(n, env);
    assert McpTools({}, env) == {};
  }

  lemma PlainNameStands(name: string, env: Env)
    requires name != "" && Normalize(name, env) == Normalized(name, "", "", false)
    ensures Compile({name}, env) == Policy({}, {name}, {})
  {
    EmptyIsNoBuiltin();
    OnePolicy(name, Normalized(name, "", "", false), env);
  }

  lemma ListedName(full: string, name: string, env: Env)
    requires full != "" && name != "" && name != "memory_write"
    requires Normalize(full, env) == Normalized(full, name, "", false)
    ensures Compile({full}, env) == Policy({}, {full}, {name})
  {
    EmptyIsNoBuiltin();
    OnePolicy(full, Normalized(full, name, "", false), env);
  }

  /** White space around a name plays no part. */
  lemma PaddingIsIgnored(raw: string, env: Env)
    ensures Compile({raw}, env) == Compile({Trim(raw)}, env)
  {
    SameNormSamePolicy(raw, Trim(raw), env);
  }

  /** A blank name asks for nothing. */
  lemma BlankIsNothing(raw: string, env: Env)
    requires Blank(raw)
    ensures Compile({raw}, env) == Policy({}, {}, {})
  {
    OnePolicy(raw, Normalized("", "", "", false), env);
  }

  /** A bare name: none of the forms that carry their own meaning. */
  predicate Bare(name: string) { name != "" && Trimmed(name) && !("mcp__" <= name) && !("Bash(" <= name) }

  /** A command on PATH that is no tool. */
  predicate OnlyCommand(c: string, env: Env) {
    && c != "" && c in env.onPath && (forall i :: 0 <= i < |c| ==> NameChar(c[i]))
    && !("mcp__" <= c) && c !in SDK_BUILTIN_TOOLS && c !in env.tools
  }

  lemma CommandNormalized(c: string, env: Env)
    requires OnlyCommand(c, env)
    ensures Normalize(c, env) == Normalized("Bash(" + c + ":*)", "", "Bash", true)
  {
    assert NameChar(c[0]) && NameChar(c[|c| - 1]);
    assert Trimmed(c) && c[|c| - 1] != ')' && !BashForm(c);
  }

  /** It is approved as a Bash scope, and Bash is shown. */
  lemma CommandIsScoped(c: string, env: Env)
    requires OnlyCommand(c, env)
    ensures Compile({c}, env) == Policy({"Bash"}, {"Bash(" + c + ":*)"}, {})
  {
    CommandNormalized(c, env);
    CommandForm(c);
    OnePolicy(c, Normalized("Bash(" + c + ":*)", "", "Bash", true), env);
  }

  /** Beside anything else, it withholds broad Bash. */
  lemma CommandWithholdsBash(c: string, requested: set<string>, env: Env)
    requires c in requested && OnlyCommand(c, env)
    ensures var p := Compile(requested, env);
            "Bash" !in p.allowed && "Bash" in p.builtins && "Bash(" + c + ":*)" in p.allowed
  {
    CommandNormalized(c, env);
    ScopedBashNarrows(requested, env, c);
  }

  lemma BuiltinIsItself(b: string, env: Env)
    requires b in SDK_BUILTIN_TOOLS
    ensures Compile({b}, env) == Policy({b}, {b}, {})
  {
    BuiltinsAreBare(b);
    OnePolicy(b, Normalized(b, "", b, false), env);
  }

  lemma BuiltinsAreBare(b: string)
    requires b in SDK_BUILTIN_TOOLS
    ensures Bare(b) && !BashForm(b)
  {
    assert b[0] != 'm' && "mcp__"[0] == 'm' && b[|b| - 1] != ')' && (|b| < 5 || b[4] != '(');
  }

  /** A registered tool gets its full name and its place on the allowlist. */
  lemma RegisteredIsNamedInFull(t: string, env: Env)
    requires Discovered(env) && t in env.tools && t !in SDK_BUILTIN_TOOLS && !("mcp__" <= t) && t != "memory_write"
    ensures Compile({t}, env) == Policy({}, {"mcp__" + env.server + "__" + t}, {t})
  {
    RegisteredNormalizes(t, env);
    McpNormalizes(env, t);
    SameNormSamePolicy(t, McpTool(env.server, t), env);
    FullNameIsListed(t, env);
  }

  lemma SameNormSamePolicy(a: string, b: string, env: Env)
    requires Normalize(a, env) == Normalize(b, env)
    ensures Compile({a}, env) == Compile({b}, env)
  {
    assert Norms({a}, env) == {Normalize(a, env)} == Norms({b}, env);
  }

  lemma RegisteredNormalizes(t: string, env: Env)
    requires Discovered(env) && t in env.tools && t !in SDK_BUILTIN_TOOLS && !("mcp__" <= t)
    ensures Normalize(t, env) == Normalized(McpTool(env.server, t), t, "", false)
    ensures t != "" && !IsSpace(t[|t| - 1])
  {
    assert NameChar(t[0]) || t[0] == ':';
    assert NameChar(t[|t| - 1]) || t[|t| - 1] == ':';
    assert Trimmed(t) && t[|t| - 1] != ')' && !BashForm(t);
  }

  /** memory_write brings brain_save along, where that is registered. */
  lemma MemoryWriteBringsSave(env: Env)
    requires Discovered(env) && "memory_write" in env.tools
    ensures var p := Compile({"memory_write"}, env);
            && p.builtins == {}
            && p.clementine == {"memory_write"} + ({"brain_save"} * env.tools)
            && p.allowed == McpTools(p.clementine, env)
  {
    assert "memory_write" !in SDK_BUILTIN_TOOLS by { assert "memory_write"[0] == 'm'; MemoryWriteIsNoBuiltin(); }
    assert !("mcp__" <= "memory_write") by { assert "mcp__"[1] == 'c'; }
    RegisteredNormalizes("memory_write", env);
    MemoryWritePolicy(env);
  }

  lemma MemoryWriteIsNoBuiltin()
    ensures "memory_write" !in SDK_BUILTIN_TOOLS
  {
    if "memory_write" in SDK_BUILTIN_TOOLS { BuiltinsAreCapitalized("memory_write"); }
  }

  lemma MemoryWritePolicy(env: Env)
    requires var full := McpTool(env.server, "memory_write");
             Normalize("memory_write", env) == Normalized(full, "memory_write", "", false)
    ensures var p := Compile({"memory_write"}, env);
            && p.builtins == {}
            && p.clementine == {"memory_write"} + ({"brain_save"} * env.tools)
            && p.allowed == McpTools(p.clementine, env)
  {
    var full := McpTool(env.server, "memory_write");
    FullNameIsLong(env, "memory_write");
    MemoryCompiled("memory_write", full, env);
    assert McpTools({"memory_write"}, env) == {full};
    McpToolsUnion({"memory_write"}, {"brain_save"} * env.tools, env);
  }

  lemma MemoryWriteParts(full: string, env: Env)
    requires |full| > |"Bash"|
    ensures var ns := {Normalized(full, "memory_write", "", false)};
            && Builtins(ns) == {} && Approved(ns, HasScopedBash(ns)) == {full} && Names(ns) == {"memory_write"}
            && !Wild(ns) && Companions(ns, env) == {"brain_save"} * env.tools
  {
    var n := Normalized(full, "memory_write", "", false);
    assert n in {n};
    assert Builtins({n}) == {} && Names({n}) == {"memory_write"};
  }

  /** Any other bare name is approved as it stands. */
  lemma OtherNameStands(name: string, env: Env)
    requires Bare(name) && name !in SDK_BUILTIN_TOOLS && name !in env.tools
    requires name !in env.onPath || exists i :: 0 <= i < |name| && !NameChar(name[i])
    ensures Compile({name}, env) == Policy({}, {name}, {})
  {
    PlainNameStands(name, env);
  }

  /** A Bash scope shows Bash and stands, and only the scope of everything narrows nothing. */
  lemma ScopeStands(inner: string, env: Env)
    requires inner != "" && forall i :: 0 <= i < |inner| ==> !LineBreak(inner[i])
    ensures var name := "Bash(" + inner + ")";
            Compile({name}, env) == Policy({"Bash"}, {name}, {}) && (Normalize(name, env).scopedBash <==> inner != "*")
  {
    ScopeNormalizes(inner, env);
    var name := "Bash(" + inner + ")";
    ScopeIsLong(inner);
    OnePolicy(name, Normalized(name, "", "Bash", name != "Bash(*)"), env);
  }

  lemma ScopeIsLong(inner: string)
    ensures var name := "Bash(" + inner + ")";
            |name| == |inner| + 6 && name[5..|name| - 1] == inner && (name == "Bash(*)" <==> inner == "*")
  {
    var name := "Bash(" + inner + ")";
    assert name == "Bash(" + (inner + ")");
    if name == "Bash(*)" { assert inner == name[5..|name| - 1] == "*"; }
    if inner == "*" { assert name == "Bash(*)"; }
  }

  lemma ScopeNormalizes(inner: string, env: Env)
    requires inner != "" && forall i :: 0 <= i < |inner| ==> !LineEnd(inner[i])
    ensures var name := "Bash(" + inner + ")";
            Normalize(name, env) == Normalized(name, "", "Bash", name != "Bash(*)")
  {
    var name := "Bash(" + inner + ")";
    assert name == "Bash(" + (inner + ")") && name[0] == 'B' && name[|name| - 1] == ')';
    assert forall i :: 5 <= i < |name| - 1 ==> name[i] == inner[i - 5];
    assert BashForm(name) && Trimmed(name);
  }

  /** An empty scope or one broken over lines is none: the name stands and shows nothing. */
  lemma BrokenScopeIsAName(inner: string, env: Env)
    requires Discovered(env) && (inner == "" || exists k :: 0 <= k < |inner| && LineBreak(inner[k]))
    ensures var name := "Bash(" + inner + ")"; Compile({name}, env) == Policy({}, {name}, {})
  {
    var name := "Bash(" + inner + ")";
    BrokenScope(inner);
    BrokenScopeNormalizes(name, env);
    PlainNameStands(name, env);
  }

  predicate LineBreak(c: char) { c in {'\n', '\r', '\U{2028}', '\U{2029}'} }

  lemma BrokenScope(inner: string)
    requires inner == "" || exists k :: 0 <= k < |inner| && LineBreak(inner[k])
    ensures var name := "Bash(" + inner + ")";
            |name| > 5 && name[0] == 'B' && name[4] == '(' && name[|name| - 1] == ')' && !BashForm(name)
  {
    var name := "Bash(" + inner + ")";
    assert name[0] == "Bash("[0] && name[4] == "Bash("[4];
    if k :| 0 <= k < |inner| && LineBreak(inner[k]) { assert name[5 + k] == inner[k]; }
  }

  lemma BrokenScopeNormalizes(name: string, env: Env)
    requires Discovered(env) && |name| > 5 && name[0] == 'B' && name[4] == '(' && name[|name| - 1] == ')'
    requires !BashForm(name)
    ensures Normalize(name, env) == Normalized(name, "", "", false)
  {
    assert Trimmed(name) && !("mcp__" <= name) by { assert "mcp__"[0] == 'm'; }
    assert name !in env.tools && !CommandExistsOnPath(name, env) by { assert !NameChar(name[4]); }
    if name in SDK_BUILTIN_TOOLS { BuiltinsAreBare(name); }
  }

  /** In ASCII codes: letters, digits, hyphen, full stop and underscore. */
  lemma NameCharsAre(c: char)
    ensures NameChar(c) <==>
            65 <= c as int <= 90 || 97 <= c as int <= 122 || 48 <= c as int <= 57 || c as int in {45, 46, 95}
  {
  }

  /** The full name of one of Clementine's tools puts it on the allowlist, the wildcard too. */
  lemma FullNameIsListed(name: string, env: Env)
    requires name != "" && !IsSpace(name[|name| - 1]) && name != "memory_write"
    ensures var full := "mcp__" + env.server + "__" + name; Compile({full}, env) == Policy({}, {full}, {name})
  {
    var full := "mcp__" + env.server + "__" + name;
    assert full == McpTool(env.server, name) && |full| > 0;
    McpNormalizes(env, name);
    ListedName(full, name, env);
  }

  /** A name of another server stands. */
  lemma ForeignNameStands(name: string, env: Env)
    requires Trimmed(name) && "mcp__" <= name && !("mcp__" + env.server + "__" <= name)
    ensures Compile({name}, env) == Policy({}, {name}, {})
  {
    assert name[0] == 'm' && "Bash("[0] == 'B';
    McpForm(env.server, "*");
    PlainNameStands(name, env);
  }

  // ---- Names together ----

  /** By itself the name is a Bash scope, and not the scope of everything. */
  predicate Narrows(r: string, env: Env) {
    var p := Compile({r}, env);
    "Bash" in p.builtins && "Bash" !in p.allowed && "Bash(*)" !in p.allowed
  }

  lemma NarrowsExactly(r: string, env: Env)
    ensures Narrows(r, env) <==> Normalize(r, env).scopedBash
  {
    var n := Normalize(r, env);
    NormalizeIsConsistent(r, env);
    if n.clementineTool != "memory_write" {
      OnePolicy(r, n, env);
      ScopedForms(r, env);
    } else {
      MemoryHasNoBuiltin(r, env);
    }
  }

  lemma ScopedForms(r: string, env: Env)
    ensures var n := Normalize(r, env);
            n.scopedBash <==> n.builtinTool == "Bash" && n.sdkTool != "Bash" && n.sdkTool != "Bash(*)"
  {
    var tool := Trim(r);
    if CommandExistsOnPath(tool, env) { CommandForm(tool); }
  }

  lemma MemoryHasNoBuiltin(r: string, env: Env)
    requires Normalize(r, env).clementineTool == "memory_write"
    ensures !Narrows(r, env) && !Normalize(r, env).scopedBash
  {
    var n := Normalize(r, env);
    NormalizeIsConsistent(r, env);
    assert n.builtinTool == "" && Norms({r}, env) == {n};
    assert Builtins({n}) == {};
  }

  /** What one name is approved as, beside the companions it brings. */
  predicate ApprovedAlone(r: string, a: string, env: Env) {
    a in Compile({r}, env).allowed && !("memory_write" in Compile({r}, env).clementine && Companion(a, env))
  }

  predicate Companion(a: string, env: Env) {
    a == McpTool(env.server, "brain_save") || a == McpTool(env.server, "brain_ingest_folder")
  }

  lemma AloneIsItsName(r: string, a: string, env: Env)
    ensures ApprovedAlone(r, a, env) <==> Normalize(r, env).sdkTool == a != ""
    ensures "memory_write" in Compile({r}, env).clementine <==> Normalize(r, env).clementineTool == "memory_write"
  {
    var n := Normalize(r, env);
    NormalizeIsConsistent(r, env);
    if n.clementineTool != "memory_write" { OnePolicy(r, n, env); } else { MemoryAlone(r, a, env); }
  }

  lemma MemoryAlone(r: string, a: string, env: Env)
    requires Normalize(r, env).clementineTool == "memory_write"
    ensures ApprovedAlone(r, a, env) <==> Normalize(r, env).sdkTool == a != ""
    ensures "memory_write" in Compile({r}, env).clementine
  {
    var full := McpTool(env.server, "memory_write");
    NormalizeIsConsistent(r, env);
    FullNameIsLong(env, "memory_write");
    MemoryCompiled(r, full, env);
    CompanionsApart(env);
    assert a in McpTools({"brain_save"} * env.tools, env) ==> Companion(a, env);
  }

  lemma CompanionsApart(env: Env)
    ensures !Companion(McpTool(env.server, "memory_write"), env)
  {
    McpForm(env.server, "memory_write");
    McpForm(env.server, "brain_save");
    McpForm(env.server, "brain_ingest_folder");
  }

  lemma MemoryCompiled(r: string, full: string, env: Env)
    requires |full| > |"Bash"|
    requires Normalize(r, env).sdkTool == full && Normalize(r, env).clementineTool == "memory_write"
    ensures var extra := {"brain_save"} * env.tools;
            Compile({r}, env) == Policy({}, {full} + McpTools(extra, env), {"memory_write"} + extra)
  {
    MemoryIsPlain(r, env);
    assert Norms({r}, env) == {Normalized(full, "memory_write", "", false)};
    MemoryWriteParts(full, env);
  }

  lemma MemoryIsPlain(r: string, env: Env)
    requires Normalize(r, env).clementineTool != ""
    ensures Normalize(r, env).builtinTool == "" && !Normalize(r, env).scopedBash
  {
  }

  /** Names together show what each of them shows. */
  lemma TogetherShown(requested: set<string>, env: Env, b: string)
    ensures b in Compile(requested, env).builtins <==> exists r :: r in requested && b in Compile({r}, env).builtins
  {
    forall r | r in requested
      ensures b in Compile({r}, env).builtins <==> Normalize(r, env).builtinTool == b && b in SDK_BUILTIN_TOOLS
    {
      assert Norms({r}, env) == {Normalize(r, env)};
    }
  }

  /** And approve what each of them approves, but for broad Bash beside a scope. */
  lemma TogetherApproved(requested: set<string>, env: Env, a: string)
    requires !Companion(a, env)
    ensures a in Compile(requested, env).allowed <==>
            && (exists r :: r in requested && a in Compile({r}, env).allowed)
            && !(a == "Bash" && exists r :: r in requested && Narrows(r, env))
  {
    var ns := Norms(requested, env);
    forall r | r in requested
      ensures a in Compile({r}, env).allowed <==> Normalize(r, env).sdkTool == a != ""
      ensures Narrows(r, env) <==> Normalize(r, env).scopedBash
    {
      AloneIsItsName(r, a, env);
      NarrowsExactly(r, env);
    }
    assert a !in McpTools(Companions(ns, env), env);
  }

  /**
   The two ingestion tools are approved when asked for, or, where they are registered, beside memory_write: one
   always, the other as far as files can be read.
   */
  lemma TogetherCompanion(requested: set<string>, env: Env, c: string)
    requires c == "brain_save" || c == "brain_ingest_folder"
    ensures var p, a := Compile(requested, env), McpTool(env.server, c);
            a in p.allowed <==>
              || (exists r :: r in requested && ApprovedAlone(r, a, env))
              || (c in env.tools && "memory_write" in p.clementine
                  && (c == "brain_ingest_folder" ==> "Read" in p.builtins || "Bash" in p.builtins))
  {
    var ns, a := Norms(requested, env), McpTool(env.server, c);
    NormsAreConsistent(requested, env);
    McpForm(env.server, c);
    FullNameIsLong(env, c);
    forall r | r in requested
      ensures ApprovedAlone(r, a, env) <==> Normalize(r, env).sdkTool == a
    {
      AloneIsItsName(r, a, env);
    }
    assert a in Approved(ns, HasScopedBash(ns)) <==> exists r :: r in requested && ApprovedAlone(r, a, env);
    CompanionApproved(ns, env, c);
  }

  lemma CompanionApproved(ns: set<Normalized>, env: Env, c: string)
    requires AllConsistent(ns, env) && (c == "brain_save" || c == "brain_ingest_folder")
    ensures var p, a := PolicyOf(ns, env), McpTool(env.server, c);
            a in p.allowed <==>
              || a in Approved(ns, HasScopedBash(ns))
              || (c in env.tools && "memory_write" in p.clementine
                  && (c == "brain_ingest_folder" ==> "Read" in p.builtins || "Bash" in p.builtins))
  {
    var a := McpTool(env.server, c);
    forall d | d in Companions(ns, env) && McpTool(env.server, d) == a
      ensures d == c
    {
      McpForm(env.server, d);
      McpForm(env.server, c);
    }
    assert "memory_write" in PolicyOf(ns, env).clementine <==> !Wild(ns) && "memory_write" in Names(ns);
    if c in Names(ns) { NamedIsApproved(ns, env, c); }
  }

  lemma NamedIsApproved(ns: set<Normalized>, env: Env, c: string)
    requires AllConsistent(ns, env) && c in Names(ns)
    ensures McpTool(env.server, c) in Approved(ns, HasScopedBash(ns))
  {
    var n :| n in ns && n.clementineTool == c;
    FullNameIsLong(env, c);
  }
}
