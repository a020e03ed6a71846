/**
 Reloading the tool servers: each server that connects offers tools under bridged names; a server
 whose names collide with names already taken, or with each other, is refused and its tools are taken
 back out.
 */
module McpReload {
  import opened Basics

  /** A configured server; tools is None when it cannot be connected. */
  datatype Server = Server(name: string, tools: Option<seq<string>>)

  datatype Tool = Tool(server: string, remote: string)

  datatype Status = Status(name: string, connected: bool, tools: seq<string>)

  predicate IsWord(c: char) {
    'a' <= c <= 'z' || 'A' <= c <= 'Z' || '0' <= c <= '9' || c == '_'
  }

  function SanitizeChar(c: char): char {
    if !IsWord(c) then '_' else if 'A' <= c <= 'Z' then (c as int + 32) as char else c
  }

  function SanitizeName(s: string): string {
    seq(|s|, i requires 0 <= i < |s| => SanitizeChar(s[i]))
  }

  /** Letters are written small, digits and underscores stay, and everything else becomes an underscore. */
  lemma SanitizeLaw(s: string, i: nat)
    requires i < |s|
    ensures |SanitizeName(s)| == |s|
    ensures 'a' <= s[i] <= 'z' || '0' <= s[i] <= '9' || s[i] == '_' ==> SanitizeName(s)[i] == s[i]
    ensures 'A' <= s[i] <= 'Z' ==> SanitizeName(s)[i] as int - 'a' as int == s[i] as int - 'A' as int
    ensures SanitizeName(s)[i] == '_' || 'a' <= SanitizeName(s)[i] <= 'z' || '0' <= SanitizeName(s)[i] <= '9'
  {
  }

  function BridgeName(server: string, tool: string): string {
    "mcp__" + SanitizeName(server) + "__" + SanitizeName(tool)
  }

  /** The bridged names a connected server offers. */
  function Offers(s: Server): seq<string>
    requires s.tools.Some?
  {
    seq(|s.tools.value|, i requires 0 <= i < |s.tools.value| => BridgeName(s.name, s.tools.value[i]))
  }

  ghost predicate NoRepeats(names: seq<string>) {
    forall i, j :: 0 <= i < j < |names| ==> names[i] != names[j]
  }

  /** A server is connected exactly when it can be reached and none of its names is taken. */
  ghost predicate Connected(servers: seq<Server>, i: nat)
    requires i < |servers|
    decreases i
  {
    && servers[i].tools.Some?
    && NoRepeats(Offers(servers[i]))
    && forall j: nat, k: nat :: j < i && Connected(servers, j) && k < |Offers(servers[j])| ==>
         Offers(servers[j])[k] !in Offers(servers[i])
  }

  /** The tool map is the union of what the connected servers among the first n offer. */
  ghost predicate IsUnion(tools: map<string, Tool>, servers: seq<Server>, n: nat)
    requires n <= |servers|
  {
    && (forall i: nat, k: nat :: i < n && Connected(servers, i) && k < |Offers(servers[i])| ==>
         Provides(tools, servers[i], k))
    && (forall name :: name in tools ==>
          exists i: nat, k: nat ::
            i < n && Connected(servers, i) && k < |Offers(servers[i])| && Offers(servers[i])[k] == name)
  }

  ghost predicate Provides(tools: map<string, Tool>, s: Server, k: nat)
    requires s.tools.Some? && k < |Offers(s)|
  {
    Offers(s)[k] in tools && tools[Offers(s)[k]] == Tool(s.name, s.tools.value[k])
  }

  ghost predicate Reports(status: seq<Status>, servers: seq<Server>) {
    && |status| <= |servers|
    && forall i: nat :: i < |status| ==>
         status[i] == (if Connected(servers, i) then Status(servers[i].name, true, Offers(servers[i]))
                       else Status(servers[i].name, false, []))
  }

  function ToolsOf(s: Server): seq<Tool>
    requires s.tools.Some?
  {
    seq(|s.tools.value|, i requires 0 <= i < |s.tools.value| => Tool(s.name, s.tools.value[i]))
  }

  /** A map after taking in names one by one. */
  function Adding(base: map<string, Tool>, names: seq<string>, tools: seq<Tool>): map<string, Tool>
    requires |names| == |tools|
  {
    if |names| == 0 then base
    else Adding(base, names[..|names| - 1], tools[..|tools| - 1])[names[|names| - 1] := tools[|tools| - 1]]
  }

  lemma AddingPush(base: map<string, Tool>, names: seq<string>, tools: seq<Tool>, name: string, tool: Tool)
    requires |names| == |tools|
    ensures Adding(base, names + [name], tools + [tool]) == Adding(base, names, tools)[name := tool]
  {
    assert (names + [name])[..|names + [name]| - 1] == names && (tools + [tool])[..|tools + [tool]| - 1] == tools;
  }

  lemma {:induction false} AddingKeys(base: map<string, Tool>, names: seq<string>, tools: seq<Tool>)
    requires |names| == |tools|
    ensures forall name :: name in Adding(base, names, tools) <==> name in base || name in names
    ensures forall name :: name in base && name !in names ==> Adding(base, names, tools)[name] == base[name]
  {
    if |names| > 0 {
      AddingKeys(base, names[..|names| - 1], tools[..|tools| - 1]);
      assert names == names[..|names| - 1] + [names[|names| - 1]];
    }
  }

  lemma {:induction false} AddingProvides(base: map<string, Tool>, names: seq<string>, tools: seq<Tool>, j: nat)
    requires |names| == |tools| && NoRepeats(names) && j < |names|
    ensures names[j] in Adding(base, names, tools) && Adding(base, names, tools)[names[j]] == tools[j]
  {
    if j < |names| - 1 {
      AddingProvides(base, names[..|names| - 1], tools[..|tools| - 1], j);
    }
  }

  ghost predicate Free(names: seq<string>, base: map<string, Tool>) {
    NoRepeats(names) && forall k: nat :: k < |names| ==> names[k] !in base
  }

  lemma FreePush(names: seq<string>, base: map<string, Tool>, name: string)
    requires Free(names, base)
    ensures Free(names + [name], base) <==> name !in base && name !in names
  {
    var longer := names + [name];
    assert longer[|names|] == name;
    assert forall i :: 0 <= i < |names| ==> longer[i] == names[i];
  }

  lemma FreePrefix(names: seq<string>, base: map<string, Tool>, n: nat)
    requires n <= |names|
    ensures Free(names, base) ==> Free(names[..n], base)
  {
  }

  /** Taking the added names back out gives the map as it was. */
  lemma RolledBack(base: map<string, Tool>, names: seq<string>, tools: seq<Tool>)
    requires |names| == |tools| && Free(names, base)
    ensures var added := Adding(base, names, tools); (map n | n in added && n !in names :: added[n]) == base
  {
    AddingKeys(base, names, tools);
    assert forall n :: n in base ==> n !in names;
  }

  /** Takes in the tools of one connected server, or none of them. */
  method TakeIn(base: map<string, Tool>, s: Server) returns (tools: map<string, Tool>, ok: bool)
    requires s.tools.Some?
    ensures ok <==> Free(Offers(s), base)
    ensures tools == if ok then Adding(base, Offers(s), ToolsOf(s)) else base
  {
    var remotes := s.tools.value;
    var names: seq<string> := [];
    ghost var taken: seq<Tool> := [];
    tools := base;
    for k := 0 to |remotes|
      invariant names == Offers(s)[..k] && taken == ToolsOf(s)[..k]
      invariant Free(names, base) && tools == Adding(base, names, taken)
    {
      var name, tool := BridgeName(s.name, remotes[k]), Tool(s.name, remotes[k]);
      assert Offers(s)[..k + 1] == names + [name] && ToolsOf(s)[..k + 1] == taken + [tool];
      AddingKeys(base, names, taken);
      FreePush(names, base, name);
      if name in tools {
        FreePrefix(Offers(s), base, k + 1);
        RolledBack(base, names, taken);
        tools := map n | n in tools && n !in names :: tools[n];
        return tools, false;
      }
      AddingPush(base, names, taken, name, tool);
      names, taken := names + [name], taken + [tool];
      tools := tools[name := tool];
    }
    assert Offers(s)[..|remotes|] == Offers(s) && ToolsOf(s)[..|remotes|] == ToolsOf(s);
    ok := true;
  }

  /**
   After a reload the tool map is the disjoint union of what exactly the connected servers offer, and
   every server is reported as connected or not accordingly.
   */
  method Reload(servers: seq<Server>) returns (tools: map<string, Tool>, status: seq<Status>)
    ensures IsUnion(tools, servers, |servers|)
    ensures |status| == |servers| && Reports(status, servers)
  {
    tools, status := map[], [];
    for i := 0 to |servers|
      invariant IsUnion(tools, servers, i)
      invariant |status| == i && Reports(status, servers)
    {
      var s := servers[i];
      var connected := false;
      if s.tools.Some? {
        var base := tools;
        tools, connected := TakeIn(base, s);
        TakenIn(base, servers, i, connected);
      } else {
        UnionUnchanged(tools, servers, i);
      }
      var names := if connected then Offers(s) else [];
      status := status + [Status(s.name, connected, names)];
    }
  }

  lemma UnionUnchanged(tools: map<string, Tool>, servers: seq<Server>, i: nat)
    requires i < |servers| && IsUnion(tools, servers, i) && !Connected(servers, i)
    ensures IsUnion(tools, servers, i + 1)
  {
  }

  lemma FreeMeansConnected(base: map<string, Tool>, servers: seq<Server>, i: nat)
    requires i < |servers| && servers[i].tools.Some? && IsUnion(base, servers, i)
    ensures Connected(servers, i) <==> Free(Offers(servers[i]), base)
  {
    var offers := Offers(servers[i]);
    if Connected(servers, i) {
      forall k: nat | k < |offers| ensures offers[k] !in base {
        assert offers[k] in offers;
      }
    } else if NoRepeats(offers) {
      var j: nat, k: nat :| j < i && Connected(servers, j) && k < |Offers(servers[j])| &&
        Offers(servers[j])[k] in offers;
      assert Provides(base, servers[j], k);
    }
  }

  lemma TakenIn(base: map<string, Tool>, servers: seq<Server>, i: nat, ok: bool)
    requires i < |servers| && servers[i].tools.Some? && IsUnion(base, servers, i)
    requires ok <==> Free(Offers(servers[i]), base)
    ensures ok <==> Connected(servers, i)
    ensures IsUnion(if ok then Adding(base, Offers(servers[i]), ToolsOf(servers[i])) else base, servers, i + 1)
  {
    FreeMeansConnected(base, servers, i);
    if ok {
      UnionGrows(base, servers, i);
    } else {
      UnionUnchanged(base, servers, i);
    }
  }

  lemma UnionGrows(base: map<string, Tool>, servers: seq<Server>, i: nat)
    requires i < |servers| && IsUnion(base, servers, i) && Connected(servers, i) && Free(Offers(servers[i]), base)
    ensures IsUnion(Adding(base, Offers(servers[i]), ToolsOf(servers[i])), servers, i + 1)
  {
    var s := servers[i];
    var offers := Offers(s);
    var tools := Adding(base, offers, ToolsOf(s));
    AddingKeys(base, offers, ToolsOf(s));
    forall j: nat, k: nat | j < i + 1 && Connected(servers, j) && k < |Offers(servers[j])|
      ensures Provides(tools, servers[j], k)
    {
      if j < i {
        assert Provides(base, servers[j], k);
      } else {
        AddingProvides(base, offers, ToolsOf(s), k);
      }
    }
    forall name | name in tools
      ensures exists j: nat, k: nat ::
              j < i + 1 && Connected(servers, j) && k < |Offers(servers[j])| && Offers(servers[j])[k] == name
    {
      if name in base {
        var j: nat, k: nat :| j < i && Connected(servers, j) && k < |Offers(servers[j])| &&
          Offers(servers[j])[k] == name;
      } else {
        var k :| 0 <= k < |offers| && offers[k] == name;
        assert Connected(servers, i) && Offers(servers[i])[k] == name;
      }
    }
  }

  // ----- when two bridged names are the same -----------------------------------------------------------

  /** Within one server, tools share a bridged name exactly when their sanitized names are equal. */
  lemma SameServerNames(server: string, a: string, b: string)
    ensures BridgeName(server, a) == BridgeName(server, b) <==> SanitizeName(a) == SanitizeName(b)
  {
    var head := "mcp__" + SanitizeName(server) + "__";
    assert BridgeName(server, a) == head + SanitizeName(a) && BridgeName(server, b) == head + SanitizeName(b);
    assert SanitizeName(a) == BridgeName(server, a)[|head|..] && SanitizeName(b) == BridgeName(server, b)[|head|..];
  }

  function ServerPart(server: string): string {
    SanitizeName(server) + "__"
  }

  /** What a bridged name looks like. */
  lemma PrintedBridgeName()
    ensures BridgeName("Git.Hub", "List-9") == "mcp__git_hub__list_9"
  {
    assert SanitizeName("Git.Hub") == "git_hub";
    assert SanitizeName("List-9") == "list_9";
  }

  lemma BridgeParts(server: string, tool: string)
    ensures BridgeName(server, tool) == "mcp__" + (ServerPart(server) + SanitizeName(tool))
  {
    assert "mcp__" + (SanitizeName(server) + "__" + SanitizeName(tool)) ==
           "mcp__" + SanitizeName(server) + "__" + SanitizeName(tool);
  }

  /** A longer server part leaves its rest to the tool of the other server. */
  lemma NestedPartsCollide(a: string, b: string) returns (tool: string)
    requires ServerPart(a) <= ServerPart(b)
    ensures tool != "" && BridgeName(a, tool) == BridgeName(b, "t")
  {
    var rest := ServerPart(b)[|ServerPart(a)|..];
    tool := rest + "t";
    assert ServerPart(b) == SanitizeName(b + "__") == SanitizeName(SanitizeName(b + "__"));
    assert SanitizeName(rest) == rest && SanitizeName("t") == "t";
    assert SanitizeName(tool) == rest + "t";
    BridgeParts(a, tool);
    BridgeParts(b, "t");
    assert ServerPart(b) == ServerPart(a) + rest;
    assert ServerPart(a) + (rest + "t") == ServerPart(b) + "t";
  }

  /**
   Two servers have tools that share a bridged name exactly when one of their sanitized names, followed by
   the separator, is a prefix of the other's.
   */
  lemma ServersCollideExactly(a: string, b: string)
    ensures (exists x, y :: x != "" && y != "" && BridgeName(a, x) == BridgeName(b, y)) <==>
            ServerPart(a) <= ServerPart(b) || ServerPart(b) <= ServerPart(a)
  {
    forall x, y | BridgeName(a, x) == BridgeName(b, y)
      ensures ServerPart(a) <= ServerPart(b) || ServerPart(b) <= ServerPart(a)
    {
      BridgeParts(a, x);
      BridgeParts(b, y);
      var whole := BridgeName(a, x)[5..];
      assert whole == ServerPart(a) + SanitizeName(x) && whole == ServerPart(b) + SanitizeName(y);
      assert ServerPart(a) == whole[..|ServerPart(a)|] && ServerPart(b) == whole[..|ServerPart(b)|];
    }
    if ServerPart(a) <= ServerPart(b) {
      var x := NestedPartsCollide(a, b);
    } else if ServerPart(b) <= ServerPart(a) {
      var y := NestedPartsCollide(b, a);
    }
  }

  /** Different servers and tools that share a bridged name, in two ways. */
  lemma BridgeNamesCollide()
    ensures BridgeName("a.b", "t") == BridgeName("a_b", "t")
    ensures BridgeName("a__b", "t") == BridgeName("a", "b__t")
  {
    assert SanitizeName("a.b") == "a_b" == SanitizeName("a_b");
    assert SanitizeName("a__b") == "a__b" && SanitizeName("b__t") == "b__t" && SanitizeName("a") == "a" &&
           SanitizeName("t") == "t";
  }
}
