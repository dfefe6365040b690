// What each operation on MCP servers does, read off its own inputs (internal/mcp/manager.go).
module McpLaws {
  import opened Options
  import opened Text
  import opened Catalog
  import opened McpNames
  import opened McpManager

  function PublicName(server: string, tool: string): string {
    "mcp__" + server + "__" + tool
  }

  lemma PublicNameIsQualified(server: string, tool: string)
    ensures PublicName(server, tool) == Qualified(server, tool)
    ensures "mcp__" + server + "__" == ServerPrefix(server)
  {
  }

  ghost predicate Offers(server: string, tools: seq<ToolInfo>, n: string) {
    exists i :: 0 <= i < |tools| && n == PublicName(server, tools[i].name)
  }

  // The catalog has each tool of the server under its public name, described as that server's and
  // handled under the same name, the last of equal names counting; everything else stays, in front.
  ghost predicate Gains(s: Snapshot, s': Snapshot, server: string, tools: seq<ToolInfo>) {
    && s.order <= s'.order
    && (forall n :: n in s'.definitions <==> n in s.definitions || Offers(server, tools, n))
    && (forall n :: n in s.definitions && !Offers(server, tools, n) ==> s'.definitions[n] == s.definitions[n])
    && forall i :: 0 <= i < |tools| && (forall j :: i < j < |tools| ==> tools[j].name != tools[i].name) ==>
         var n := PublicName(server, tools[i].name);
         n in s'.definitions && s'.definitions[n] == Definition(n, "[MCP:" + server + "] " + tools[i].description, n)
  }

  lemma {:induction false} OffersIff(server: string, tools: seq<ToolInfo>, n: string)
    ensures Names(DefinitionsOf(server, tools), n) <==> Offers(server, tools, n)
  {
    var defs := DefinitionsOf(server, tools);
    forall i | 0 <= i < |tools|
      ensures defs[i].name == PublicName(server, tools[i].name)
    {
      PublicNameIsQualified(server, tools[i].name);
    }
    if Names(defs, n) {
      var i :| 0 <= i < |defs| && defs[i].name == n;
      assert n == PublicName(server, tools[i].name);
    }
    if Offers(server, tools, n) {
      var i :| 0 <= i < |tools| && n == PublicName(server, tools[i].name);
      assert defs[i].name == n;
    }
  }

  lemma SamePublicName(server: string, tool: string, other: string)
    ensures PublicName(server, tool) == PublicName(server, other) <==> tool == other
  {
    var prefix := "mcp__" + server + "__";
    assert PublicName(server, tool)[|prefix|..] == tool && PublicName(server, other)[|prefix|..] == other;
  }

  lemma {:induction false} DiscoveredGains(s: Snapshot, server: string, tools: seq<ToolInfo>)
    requires Consistent(s)
    ensures Gains(s, WithAll(s, DefinitionsOf(server, tools)), server, tools)
  {
    var defs := DefinitionsOf(server, tools);
    RegisterOnlyExtends(s, defs);
    forall n
      ensures Names(defs, n) <==> Offers(server, tools, n)
    {
      OffersIff(server, tools, n);
    }
    forall i | 0 <= i < |tools| && (forall j :: i < j < |tools| ==> tools[j].name != tools[i].name)
      ensures var n, s' := PublicName(server, tools[i].name), WithAll(s, defs);
        n in s'.definitions && s'.definitions[n] == Definition(n, "[MCP:" + server + "] " + tools[i].description, n)
    {
      PublicNameIsQualified(server, tools[i].name);
      forall j | i < j < |defs|
        ensures defs[j].name != defs[i].name
      {
        PublicNameIsQualified(server, tools[j].name);
        SamePublicName(server, tools[j].name, tools[i].name);
      }
      LastDefinitionCounts(s, defs, i);
    }
  }

  // The server is connected, with its tools in the catalog and no failure on record; nothing else
  // changes.
  ghost predicate Connects(st: State, st': State, name: string, tools: seq<ToolInfo>) {
    && st'.closed == st.closed && st'.clients == st.clients[name := tools]
    && st'.toolCounts == st.toolCounts[name := |tools|] && st'.failures == st.failures - {name}
    && Gains(st.catalog, st'.catalog, name, tools)
  }

  // A server is started when its configuration is valid, the manager open and the name free; what it
  // offers is then in the catalog, and a failed start is remembered and changes nothing else.
  lemma ConnectMeans(st: State, cfg: ServerConfig, outcome: Outcome, alphanumeric: char -> bool)
    requires Consistent(st.catalog)
    ensures var (st', reply) := Step(st, Connect(cfg, outcome), alphanumeric);
      if !ValidConfig(alphanumeric, cfg) then st' == st && reply == Rejected
      else if st.closed then st' == st && reply == ManagerClosed
      else if cfg.name in st.clients then st' == st && reply == AlreadyConnected
      else if outcome.Discovered? then
        && Connects(st, st', cfg.name, outcome.tools) && st'.pending == st.pending
        && reply == Connected(|outcome.tools|)
      else st' == st.(failures := st.failures + {cfg.name}) && reply == StartError
  {
    hide Gains, ValidConfig, WithAll, DefinitionsOf;
    if outcome.Discovered? {
      DiscoveredGains(st.catalog, cfg.name, outcome.tools);
    }
  }

  // Approving starts the pending configuration of that name, which stays pending until it succeeds.
  lemma ApproveMeans(st: State, name: string, outcome: Outcome, alphanumeric: char -> bool)
    ensures var (st', reply) := Step(st, Approve(name, outcome), alphanumeric);
      if name !in st.pending then st' == st && reply == NoPending
      else
        var started := Step(st, Connect(st.pending[name], outcome), alphanumeric);
        && reply == started.1
        && st' == (if reply.Connected? then started.0.(pending := started.0.pending - {name}) else started.0)
  {
  }

  // A valid configuration of a server of that name that is not connected.
  ghost predicate Staged(
    st: State, configs: seq<ServerConfig>, alphanumeric: char -> bool, name: string, i: int)
  {
    0 <= i < |configs| && configs[i].name == name && ValidConfig(alphanumeric, configs[i]) && name !in st.clients
  }

  // Loading stages valid configurations of servers that are not connected, the last one of each
  // name, and starts nothing.
  lemma {:induction false} StageMeans(st: State, configs: seq<ServerConfig>, alphanumeric: char -> bool, name: string)
    returns (last: int)
    ensures forall i :: last < i ==> !Staged(st, configs, alphanumeric, name, i)
    ensures var st' := Step(st, Stage(configs), alphanumeric).0;
      && st' == st.(pending := st'.pending)
      && if last < 0 then
           && (name in st'.pending <==> name in st.pending)
           && (name in st.pending ==> st'.pending[name] == st.pending[name])
         else
           && Staged(st, configs, alphanumeric, name, last)
           && name in st'.pending && st'.pending[name] == configs[last]
  {
    last := -1;
    if configs != [] {
      hide ValidConfig;
      var n := |configs| - 1;
      if Staged(st, configs, alphanumeric, name, n) {
        last := n;
      } else {
        last := StageMeans(st, configs[..n], alphanumeric, name);
        assert forall i :: i < n ==>
          (Staged(st, configs, alphanumeric, name, i) <==> Staged(st, configs[..n], alphanumeric, name, i));
      }
      StagingKeepsRest(st, configs[..n], alphanumeric);
    }
  }

  lemma {:induction false} StagingKeepsRest(st: State, configs: seq<ServerConfig>, alphanumeric: char -> bool)
    ensures var st' := StageOn(st, configs, alphanumeric); st' == st.(pending := st'.pending)
  {
    if configs != [] {
      hide ValidConfig;
      StagingKeepsRest(st, configs[..|configs| - 1], alphanumeric);
    }
  }

  // Disconnecting forgets the server and takes every tool whose name starts as its tools' do; the
  // rest of the catalog stays, in order.
  lemma DisconnectMeans(st: State, name: string, alphanumeric: char -> bool)
    requires Consistent(st.catalog)
    ensures var (st', reply) := Step(st, Disconnect(name), alphanumeric);
      if name !in st.clients then st' == st && reply == NotConnected
      else
        && reply == Stopped && st'.closed == st.closed && st'.pending == st.pending
        && st'.clients == st.clients - {name} && st'.toolCounts == st.toolCounts - {name}
        && st'.failures == st.failures - {name}
        && (forall n :: n in st'.catalog.definitions <==>
              n in st.catalog.definitions && !("mcp__" + name + "__" <= n))
        && forall n :: n in st'.catalog.definitions ==> st'.catalog.definitions[n] == st.catalog.definitions[n]
  {
    PublicNameIsQualified(name, "");
    RestrictedIsConsistent(st.catalog, Unprefixed(ServerPrefix(name)));
    hide Restricted, ServerPrefix;
  }

  // Shutting down closes the manager for good and takes the tools of every connected server.
  lemma ShutdownMeans(st: State, alphanumeric: char -> bool)
    requires Consistent(st.catalog)
    ensures var st' := Step(st, Shutdown, alphanumeric).0;
      if st.closed then st' == st
      else
        && st'.closed && st'.clients == map[] && st'.toolCounts == map[]
        && st'.pending == st.pending && st'.failures == st.failures
        && (forall n :: n in st'.catalog.definitions <==>
              n in st.catalog.definitions && forall s :: s in st.clients ==> !("mcp__" + s + "__" <= n))
        && forall n :: n in st'.catalog.definitions ==> st'.catalog.definitions[n] == st.catalog.definitions[n]
  {
    forall s | s in st.clients
      ensures "mcp__" + s + "__" == ServerPrefix(s)
    {
      PublicNameIsQualified(s, "");
    }
    RestrictedIsConsistent(st.catalog, Spared(st.clients.Keys));
    hide Restricted, ServerPrefix;
  }
}
