/**
 Clementine's tool allowlist on its way to the tool server: src/agent/execution-policy.ts writes it into an
 environment variable, and src/tools/mcp-server.ts registers the tools it reads there.
 */
module Allowlist {
  import opened Text
  import opened ToolPolicy
  import opened Wrappers

  predicate Comma(c: char) { c == ',' }

  /** The sorted names in one string. */
  function Format(names: seq<string>): string { if "*" in names then "*" else Join(names, ",") }

  /** parseToolAllowlist; None registers every tool. */
  function Parse(configured: string): Option<set<string>> {
    var raw := Trim(configured);
    if raw == "*" then None
    else if raw == "" then Some({})
    else Some(set n | n in Pieces(raw, Comma) && Trim(n) != "" :: Trim(n))
  }

  predicate Registers(allowlist: Option<set<string>>, tool: string) {
    allowlist.None? || tool in allowlist.value
  }

  /** What the names mean. */
  function Meant(names: seq<string>): Option<set<string>> { if "*" in names then None else Some(Elems(names)) }

  predicate Plain(name: string) { name != "" && ',' !in name && Trimmed(name) }

  // ---- The string carries the list ----

  lemma {:induction false} JoinIsTrimmed(names: seq<string>)
    requires names != [] && forall n :: n in names ==> Plain(n)
    ensures Trimmed(Join(names, ",")) && Join(names, ",") != ""
    ensures !IsSpace(Join(names, ",")[0]) && !IsSpace(Join(names, ",")[|Join(names, ",")| - 1])
  {
    assert Plain(names[0]);
    if |names| > 1 {
      JoinIsTrimmed(names[1..]);
      var text, rest := Join(names, ","), Join(names[1..], ",");
      assert text[0] == names[0][0] && text[|text| - 1] == rest[|rest| - 1];
    }
  }

  lemma PlainNamesArrive(names: seq<string>)
    requires "*" !in names && forall n :: n in names ==> Plain(n)
    ensures Parse(Format(names)) == Some(Elems(names))
  {
    if names == [] {
      assert Trim("") == "" && Elems(names) == {};
    } else {
      JoinIsTrimmed(names);
      forall i, k | 0 <= i < |names| && 0 <= k < |names[i]|
        ensures !Comma(names[i][k])
      {
        assert Plain(names[i]);
      }
      PiecesOfJoin(names, ',', Comma);
      OnePiece("*", Comma);
      assert Pieces("*", Comma) == ["*"] && Join(names, ",") != "*";
      SameElements(names);
    }
  }

  lemma SameElements(names: seq<string>)
    requires forall n :: n in names ==> Plain(n)
    ensures (set n | n in names && Trim(n) != "" :: Trim(n)) == Elems(names)
  {
    forall n | n in names
      ensures Trim(n) == n != ""
    {
      assert Plain(n);
    }
  }

  lemma ParsedIsPlain(configured: string, n: string)
    requires Parse(configured).Some? && n in Parse(configured).value
    ensures Plain(n)
  {
    var raw := Trim(configured);
    var piece :| piece in Pieces(raw, Comma) && n == Trim(piece) && n != "";
    PiecesAreComplete(raw, Comma);
    var i :| 0 <= i < |Pieces(raw, Comma)| && Pieces(raw, Comma)[i] == piece;
    assert forall k :: 0 <= k < |piece| ==> !Comma(piece[k]);
    var from, to := TrimIsExact(piece);
    assert n == piece[from..to];
  }

  /** The server reads back what was meant exactly when no name is empty, holds a comma or has white space at an end. */
  lemma ListArrivesExactly(names: seq<string>)
    ensures Parse(Format(names)) == Meant(names) <==> "*" in names || forall n :: n in names ==> Plain(n)
  {
    if "*" in names {
      assert Trim("*") == "*";
    } else if forall n :: n in names ==> Plain(n) {
      PlainNamesArrive(names);
    } else if Parse(Format(names)) == Meant(names) {
      var n :| n in names && !Plain(n);
      assert n in Meant(names).value;
      ParsedIsPlain(Format(names), n);
    }
  }

  // ---- The compiled policy at the server ----

  lemma RegisteredIsPlain(env: Env, t: string)
    requires Discovered(env) && t in env.tools
    ensures Plain(t) && t != "*"
  {
    assert NameChar(t[0]) || t[0] == ':';
    assert NameChar(t[|t| - 1]) || t[|t| - 1] == ':';
    assert forall i :: 0 <= i < |t| ==> t[i] != ',' && t[i] != '*';
  }

  /** From the requests to the server: it registers exactly the tools that the policy approves. */
  lemma ServerRegistersTheApproved(requested: set<string>, env: Env, names: seq<string>, t: string)
    requires Discovered(env) && t in env.tools && Elems(names) == Compile(requested, env).clementine
    requires "*" in names || forall n :: n in names ==> Plain(n)
    ensures var allowed := Compile(requested, env).allowed;
            Registers(Parse(Format(names)), t) <==>
              McpTool(env.server, t) in allowed || McpTool(env.server, "*") in allowed
  {
    assert forall n :: n in names <==> n in Elems(names);
    ListArrivesExactly(names);
    WildcardAbsorbs(requested, env);
    RegisteredIsPlain(env, t);
    if "*" !in names { AllowlistMatchesApproval(requested, env, t); }
  }

  /** In particular when every Clementine name that was asked for is a registered one. */
  lemma RegisteredNamesArrive(requested: set<string>, env: Env, names: seq<string>)
    requires Discovered(env) && Elems(names) == Compile(requested, env).clementine
    requires Names(Norms(requested, env)) <= env.tools
    ensures Parse(Format(names)) == Meant(names)
  {
    ListArrivesExactly(names);
    if "*" !in names {
      forall n | n in names
        ensures Plain(n)
      {
        assert n in Elems(names);
        RegisteredIsPlain(env, n);
      }
    }
  }

  lemma OneOrTwo(a: string, b: string)
    requires a != "*" && b != "*"
    ensures Format([a]) == a && Format([a, b]) == a + "," + b
  {
    assert [a, b][1..] == [b] && Join([b], ",") == b;
    assert Join([a, b], ",") == a + "," + Join([b], ",");
    assert "*" !in [a, b];
  }

  lemma TwoInOne(a: string, b: string)
    requires Plain(a) && Plain(b) && a != "*" && b != "*"
    ensures Parse(Format([a + "," + b])) == Some({a, b})
  {
    var name := a + "," + b;
    assert |name| > |"*"|;
    OneOrTwo(a, b);
    OneOrTwo(name, b);
    PlainNamesArrive([a, b]);
    assert Elems([a, b]) == {a, b};
    assert Parse(Format([a, b])) == Parse(Format([name]));
  }

  /** The policy of a single Clementine name outside the registered ones. */
  lemma OneName(env: Env, name: string)
    requires name != "" && !IsSpace(name[|name| - 1]) && name != "*" && name != "memory_write"
    ensures Compile({McpTool(env.server, name)}, env).clementine == {name}
  {
    McpNormalizes(env, name);
    var n := Normalized(McpTool(env.server, name), name, "", false);
    var ns := Norms({McpTool(env.server, name)}, env);
    assert ns == {n};
    assert Names(ns) == {name} && !Wild(ns);
    assert Companions(ns, env) == {};
  }

  /** A name with a comma in it arrives as two: both are registered, and neither was approved. */
  lemma CommaIsReadAsTwo(env: Env, a: string, b: string)
    requires Plain(a) && Plain(b) && a != "*" && b != "*"
    ensures var name := a + "," + b;
            var policy := Compile({McpTool(env.server, name)}, env);
            && policy.clementine == {name} && Parse(Format([name])) == Some({a, b})
            && McpTool(env.server, a) !in policy.allowed && McpTool(env.server, b) !in policy.allowed
  {
    var name := a + "," + b;
    assert name[|a|] == ',' && ',' !in "memory_write" && |name| > |"*"|;
    assert name[|name| - 1] == b[|b| - 1];
    OneName(env, name);
    TwoInOne(a, b);
    NotApproved(env, name, a);
    NotApproved(env, name, b);
  }

  lemma NotApproved(env: Env, name: string, other: string)
    requires other != "" && other != name && Compile({McpTool(env.server, name)}, env).clementine == {name} != {"*"}
    ensures McpTool(env.server, other) !in Compile({McpTool(env.server, name)}, env).allowed
  {
    AllowlistMatchesApproval({McpTool(env.server, name)}, env, other);
  }
}
