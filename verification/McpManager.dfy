// Connecting and disconnecting MCP servers (internal/mcp/manager.go): which tools the catalog
// holds, and that a call to any of them reaches the tool it was registered for.
module McpManager {
  import opened Options
  import opened Text
  import opened Catalog
  import opened McpNames

  datatype ToolInfo = ToolInfo(name: string, description: string)

  // How starting a server ends, once its configuration has been accepted.
  datatype Outcome = StartFailed | DiscoveryFailed | Cancelled | Discovered(tools: seq<ToolInfo>)

  datatype State = State(
    closed: bool, clients: map<string, seq<ToolInfo>>, toolCounts: map<string, nat>,
    pending: map<string, ServerConfig>, failures: set<string>, catalog: Snapshot)

  datatype Reply = Rejected | ManagerClosed | AlreadyConnected | StartError | Connected(toolCount: nat) | NoPending
    | NotConnected | Stopped

  datatype Op = Stage(configs: seq<ServerConfig>) | Approve(name: string, outcome: Outcome)
    | Connect(config: ServerConfig, outcome: Outcome) | Disconnect(name: string) | Shutdown

  // --- The steps ---

  function DefinitionOf(server: string, t: ToolInfo): Definition {
    Definition(Qualified(server, t.name), "[MCP:" + server + "] " + t.description, Qualified(server, t.name))
  }

  function DefinitionsOf(server: string, tools: seq<ToolInfo>): (r: seq<Definition>)
    ensures |r| == |tools| && forall i :: 0 <= i < |r| ==> r[i] == DefinitionOf(server, tools[i])
  {
    if tools == [] then [] else DefinitionsOf(server, tools[..|tools| - 1]) + [DefinitionOf(server, tools[|tools| - 1])]
  }

  function StageOn(st: State, configs: seq<ServerConfig>, alphanumeric: char -> bool): State {
    if configs == [] then st else
      var s := StageOn(st, configs[..|configs| - 1], alphanumeric);
      var cfg := configs[|configs| - 1];
      if ValidConfig(alphanumeric, cfg) && cfg.name !in s.clients then s.(pending := s.pending[cfg.name := cfg]) else s
  }

  function StartOn(st: State, cfg: ServerConfig, outcome: Outcome, alphanumeric: char -> bool): (State, Reply) {
    if !ValidConfig(alphanumeric, cfg) then (st, Rejected)
    else if st.closed then (st, ManagerClosed)
    else if cfg.name in st.clients then (st, AlreadyConnected)
    else match outcome
      case Discovered(tools) =>
        (st.(clients := st.clients[cfg.name := tools], toolCounts := st.toolCounts[cfg.name := |tools|],
             failures := st.failures - {cfg.name}, catalog := WithAll(st.catalog, DefinitionsOf(cfg.name, tools))),
         Connected(|tools|))
      case _ => (st.(failures := st.failures + {cfg.name}), StartError)
  }

  function ApproveOn(st: State, name: string, outcome: Outcome, alphanumeric: char -> bool): (State, Reply) {
    if name !in st.pending then (st, NoPending) else
      var r := StartOn(st, st.pending[name], outcome, alphanumeric);
      if r.1.Connected? then (r.0.(pending := r.0.pending - {name}), r.1) else r
  }

  function DisconnectOn(st: State, name: string): (State, Reply) {
    if name !in st.clients then (st, NotConnected)
    else
      (st.(clients := st.clients - {name}, toolCounts := st.toolCounts - {name}, failures := st.failures - {name},
           catalog := Restricted(st.catalog, Unprefixed(ServerPrefix(name)))),
       Stopped)
  }

  // Names that belong to none of the servers, by prefix.
  function Spared(servers: set<string>): string -> bool {
    (n: string) => forall s :: s in servers ==> !HasPrefix(n, ServerPrefix(s))
  }

  function ShutdownOn(st: State): State {
    if st.closed then st else
      st.(closed := true, clients := map[], toolCounts := map[],
        catalog := Restricted(st.catalog, Spared(st.clients.Keys)))
  }

  function Step(st: State, op: Op, alphanumeric: char -> bool): (State, Reply) {
    match op
    case Stage(configs) => (StageOn(st, configs, alphanumeric), Stopped)
    case Approve(name, outcome) => ApproveOn(st, name, outcome, alphanumeric)
    case Connect(config, outcome) => StartOn(st, config, outcome, alphanumeric)
    case Disconnect(name) => DisconnectOn(st, name)
    case Shutdown => (ShutdownOn(st), Stopped)
  }

  function Run(st: State, ops: seq<Op>, alphanumeric: char -> bool): State {
    if ops == [] then st else Step(Run(st, ops[..|ops| - 1], alphanumeric), ops[|ops| - 1], alphanumeric).0
  }

  // --- What every run keeps ---

  ghost predicate OwnedBy(clients: map<string, seq<ToolInfo>>, n: string, server: string, i: int) {
    server in clients && 0 <= i < |clients[server]| && n == Qualified(server, clients[server][i].name)
  }

  ghost predicate Owned(clients: map<string, seq<ToolInfo>>, n: string) {
    exists server, i :: OwnedBy(clients, n, server, i)
  }

  // Disconnecting this server takes that tool of another one.
  predicate Neighbouring(server: string, other: string, toolName: string) {
    other == server + "_" || (server == other + "_" && StartsWithUnderscore(toolName))
  }

  ghost predicate Takes(clients: map<string, seq<ToolInfo>>, server: string, other: string, i: int) {
    other in clients && 0 <= i < |clients[other]| && Neighbouring(server, other, clients[other][i].name)
  }

  ghost predicate TakesSome(clients: map<string, seq<ToolInfo>>, server: string) {
    exists other, i :: Takes(clients, server, other, i)
  }

  // Tools that were there before any server.
  ghost predicate Builtin(builtins: Snapshot) {
    Consistent(builtins) && forall n :: n in builtins.definitions ==> !HasPrefix(n, "mcp__")
  }

  // Besides the built-in tools, the catalog holds exactly the tools of the connected servers,
  // each with a handler of its own; built-in tools keep their definitions and come first, in
  // their order.
  ghost predicate Owns(st: State, builtins: Snapshot) {
    && Consistent(st.catalog) && builtins.order <= st.catalog.order
    && (forall n :: n in st.catalog.definitions <==> n in builtins.definitions || Owned(st.clients, n))
    && (forall n :: n in builtins.definitions ==> st.catalog.definitions[n] == builtins.definitions[n])
    && forall n :: Owned(st.clients, n) && n !in builtins.definitions ==> st.catalog.definitions[n].handler == n
  }

  ghost predicate Tracked(st: State) {
    && st.toolCounts.Keys == st.clients.Keys
    && (forall s :: s in st.clients ==> !HasDouble(s) && st.toolCounts[s] == |st.clients[s]| && s !in st.failures)
    && (forall s :: s in st.pending ==> st.pending[s].name == s)
    && (st.closed ==> st.clients == map[])
  }

  ghost predicate Inv(st: State, builtins: Snapshot) {
    Owns(st, builtins) && Tracked(st)
  }

  lemma OwnedAfterStart(clients: map<string, seq<ToolInfo>>, server: string, tools: seq<ToolInfo>, n: string)
    requires server !in clients
    ensures Owned(clients[server := tools], n) <==> Owned(clients, n) || Names(DefinitionsOf(server, tools), n)
  {
    var clients' := clients[server := tools];
    if Owned(clients, n) {
      var s, i :| OwnedBy(clients, n, s, i);
      assert OwnedBy(clients', n, s, i);
    }
    if Names(DefinitionsOf(server, tools), n) {
      var i :| 0 <= i < |tools| && DefinitionsOf(server, tools)[i].name == n;
      assert OwnedBy(clients', n, server, i);
    }
    if Owned(clients', n) {
      var s, i :| OwnedBy(clients', n, s, i);
      if s == server {
        assert DefinitionsOf(server, tools)[i].name == n;
      } else {
        assert OwnedBy(clients, n, s, i);
      }
    }
  }

  lemma QualifiedIsMarked(server: string, toolName: string)
    ensures HasPrefix(Qualified(server, toolName), "mcp__")
  {
  }

  lemma OwnedIsMarked(clients: map<string, seq<ToolInfo>>, n: string)
    requires Owned(clients, n)
    ensures HasPrefix(n, "mcp__")
  {
    var s, i :| OwnedBy(clients, n, s, i);
    QualifiedIsMarked(s, clients[s][i].name);
  }

  // Every definition a server registers hands its own name on.
  lemma {:induction false} RegisteredHandlers(s: Snapshot, server: string, tools: seq<ToolInfo>, n: string)
    requires Consistent(s) && Names(DefinitionsOf(server, tools), n)
    ensures var s' := WithAll(s, DefinitionsOf(server, tools));
      n in s'.definitions && s'.definitions[n].handler == n
    decreases |tools|
  {
    var init, last := tools[..|tools| - 1], tools[|tools| - 1];
    var defs := DefinitionsOf(server, tools);
    assert defs[..|defs| - 1] == DefinitionsOf(server, init);
    if defs[|defs| - 1].name != n {
      var i :| 0 <= i < |defs| && defs[i].name == n;
      assert DefinitionsOf(server, init)[i].name == n;
      RegisteredHandlers(s, server, init, n);
    }
  }

  // What registering these definitions must have done for the catalog to own its tools again.
  ghost predicate Registered(s: Snapshot, defs: seq<Definition>, s': Snapshot) {
    && Consistent(s') && s.order <= s'.order
    && (forall n :: n in s'.definitions <==> n in s.definitions || Names(defs, n))
    && (forall n :: n in s.definitions && !Names(defs, n) ==> s'.definitions[n] == s.definitions[n])
    && forall n :: Names(defs, n) ==> s'.definitions[n].handler == n
  }

  lemma DefinitionsRegistered(s: Snapshot, server: string, tools: seq<ToolInfo>)
    requires Consistent(s)
    ensures Registered(s, DefinitionsOf(server, tools), WithAll(s, DefinitionsOf(server, tools)))
  {
    var defs := DefinitionsOf(server, tools);
    WithAllConsistent(s, defs);
    RegisterOnlyExtends(s, defs);
    forall n | Names(defs, n)
      ensures n in WithAll(s, defs).definitions && WithAll(s, defs).definitions[n].handler == n
    {
      RegisteredHandlers(s, server, tools, n);
    }
  }

  lemma OwnsOnceRegistered(
    st: State, builtins: Snapshot, clients: map<string, seq<ToolInfo>>, defs: seq<Definition>, s': Snapshot)
    requires Owns(st, builtins) && Registered(st.catalog, defs, s')
    requires forall n :: Owned(clients, n) <==> Owned(st.clients, n) || Names(defs, n)
    requires forall n :: Names(defs, n) ==> n !in builtins.definitions
    ensures Owns(st.(clients := clients, catalog := s'), builtins)
  {
  }

  lemma StartOwns(st: State, builtins: Snapshot, server: string, tools: seq<ToolInfo>)
    requires Owns(st, builtins) && Builtin(builtins) && server !in st.clients
    ensures Owns(st.(clients := st.clients[server := tools],
      catalog := WithAll(st.catalog, DefinitionsOf(server, tools))), builtins)
  {
    var defs, clients' := DefinitionsOf(server, tools), st.clients[server := tools];
    DefinitionsRegistered(st.catalog, server, tools);
    forall n
      ensures Owned(clients', n) <==> Owned(st.clients, n) || Names(defs, n)
      ensures Names(defs, n) ==> n !in builtins.definitions
    {
      OwnedAfterStart(st.clients, server, tools, n);
      if Names(defs, n) {
        OwnedIsMarked(clients', n);
      }
    }
    OwnsOnceRegistered(st, builtins, clients', defs, WithAll(st.catalog, defs));
  }

  lemma StartTracked(st: State, cfg: ServerConfig, outcome: Outcome, alphanumeric: char -> bool)
    requires Tracked(st)
    ensures Tracked(StartOn(st, cfg, outcome, alphanumeric).0)
  {
  }

  lemma StartKeepsInv(st: State, builtins: Snapshot, cfg: ServerConfig, outcome: Outcome, alphanumeric: char -> bool)
    requires Inv(st, builtins) && Builtin(builtins)
    ensures Inv(StartOn(st, cfg, outcome, alphanumeric).0, builtins)
  {
    hide Owned, Consistent, Builtin, Tracked, WithAll, DefinitionsOf, ValidConfig;
    StartTracked(st, cfg, outcome, alphanumeric);
    if ValidConfig(alphanumeric, cfg) && !st.closed && cfg.name !in st.clients && outcome.Discovered? {
      StartOwns(st, builtins, cfg.name, outcome.tools);
    }
  }

  lemma ApproveKeepsInv(st: State, builtins: Snapshot, name: string, outcome: Outcome, alphanumeric: char -> bool)
    requires Inv(st, builtins) && Builtin(builtins)
    ensures Inv(ApproveOn(st, name, outcome, alphanumeric).0, builtins)
  {
    hide StartOn, Builtin, Owned, Consistent;
    if name in st.pending {
      StartKeepsInv(st, builtins, st.pending[name], outcome, alphanumeric);
    }
  }

  lemma TakenIsCovered(clients: map<string, seq<ToolInfo>>, server: string, other: string, i: nat)
    requires !HasDouble(server) && other in clients && !HasDouble(other) && i < |clients[other]|
    ensures HasPrefix(Qualified(other, clients[other][i].name), ServerPrefix(server))
       <==> other == server || Takes(clients, server, other, i)
  {
    CoversIff(server, other, clients[other][i].name);
  }

  lemma NoNeighbourIsItself(clients: map<string, seq<ToolInfo>>, server: string, other: string, i: int)
    requires Takes(clients, server, other, i)
    ensures other != server
  {
    assert |server + "_"| != |server| && |other + "_"| != |other|;
  }

  lemma OwnedAfterDisconnect(clients: map<string, seq<ToolInfo>>, server: string, n: string)
    requires !HasDouble(server) && (forall s :: s in clients ==> !HasDouble(s)) && !TakesSome(clients, server)
    ensures Owned(clients - {server}, n) <==> Owned(clients, n) && !HasPrefix(n, ServerPrefix(server))
  {
    var clients' := clients - {server};
    if Owned(clients', n) {
      var s, i :| OwnedBy(clients', n, s, i);
      assert OwnedBy(clients, n, s, i);
      TakenIsCovered(clients, server, s, i);
    }
    if Owned(clients, n) && !HasPrefix(n, ServerPrefix(server)) {
      var s, i :| OwnedBy(clients, n, s, i);
      TakenIsCovered(clients, server, s, i);
      assert OwnedBy(clients', n, s, i);
    }
  }

  lemma BuiltinIsUncovered(n: string, server: string)
    requires !HasPrefix(n, "mcp__")
    ensures !HasPrefix(n, ServerPrefix(server))
  {
    PrefixIsMarked(n, server);
  }

  lemma PrefixIsMarked(n: string, server: string)
    ensures HasPrefix(n, ServerPrefix(server)) ==> HasPrefix(n, "mcp__")
  {
    assert ServerPrefix(server)[..5] == "mcp__";
    if HasPrefix(n, ServerPrefix(server)) {
      assert n[..|ServerPrefix(server)|][..5] == n[..5];
    }
  }

  lemma BuiltinsComeFirst(st: State, builtins: Snapshot, keep: string -> bool)
    requires Owns(st, builtins) && Consistent(builtins) && forall n :: n in builtins.definitions ==> keep(n)
    ensures builtins.order <= Restricted(st.catalog, keep).order
  {
    forall i | 0 <= i < |builtins.order|
      ensures keep(builtins.order[i])
    {
      assert builtins.order[i] in builtins.order;
    }
    KeptNamesPrefix(builtins.order, st.catalog.order, keep);
  }

  lemma DisconnectOwns(st: State, builtins: Snapshot, server: string, keep: string -> bool)
    requires Owns(st, builtins) && Builtin(builtins) && !HasDouble(server) && !TakesSome(st.clients, server)
    requires forall s :: s in st.clients ==> !HasDouble(s)
    requires forall n :: keep(n) <==> !HasPrefix(n, ServerPrefix(server))
    ensures Owns(st.(clients := st.clients - {server}, catalog := Restricted(st.catalog, keep)), builtins)
  {
    RestrictedIsConsistent(st.catalog, keep);
    forall n
      ensures Owned(st.clients - {server}, n) <==> Owned(st.clients, n) && !HasPrefix(n, ServerPrefix(server))
      ensures n in builtins.definitions ==> !HasPrefix(n, ServerPrefix(server))
    {
      OwnedAfterDisconnect(st.clients, server, n);
      if n in builtins.definitions {
        BuiltinIsUncovered(n, server);
      }
    }
    BuiltinsComeFirst(st, builtins, keep);
  }

  // A tool taken from a server that stays connected is in the catalog no more.
  lemma TakenIsGone(st: State, server: string, other: string, i: nat)
    requires Consistent(st.catalog) && server in st.clients && !HasDouble(server) && Takes(st.clients, server, other, i)
    requires !HasDouble(other)
    ensures var st' := DisconnectOn(st, server).0;
      && other in st'.clients && st'.clients[other] == st.clients[other]
      && Qualified(other, st.clients[other][i].name) !in st'.catalog.definitions
  {
    TakenIsCovered(st.clients, server, other, i);
    NoNeighbourIsItself(st.clients, server, other, i);
    RestrictedIsConsistent(st.catalog, Unprefixed(ServerPrefix(server)));
  }

  lemma MissingToolBreaksInv(st: State, builtins: Snapshot, server: string, i: nat)
    requires server in st.clients && i < |st.clients[server]|
    requires Qualified(server, st.clients[server][i].name) !in st.catalog.definitions
    ensures !Inv(st, builtins)
  {
    hide Tracked, Consistent, Qualified;
    var n := Qualified(server, st.clients[server][i].name);
    assert OwnedBy(st.clients, n, server, i);
    assert Owned(st.clients, n);
  }

  lemma DisconnectBreaksInv(st: State, builtins: Snapshot, server: string)
    requires Consistent(st.catalog) && Tracked(st) && server in st.clients && TakesSome(st.clients, server)
    ensures !Inv(DisconnectOn(st, server).0, builtins)
  {
    hide Consistent, DisconnectOn, Qualified, Inv, Neighbouring;
    var other, i :| Takes(st.clients, server, other, i);
    TakenIsGone(st, server, other, i);
    MissingToolBreaksInv(DisconnectOn(st, server).0, builtins, other, i);
  }

  lemma DisconnectTracked(st: State, server: string)
    requires Tracked(st)
    ensures Tracked(DisconnectOn(st, server).0)
  {
    hide Restricted, ServerPrefix, HasDouble;
  }

  lemma DisconnectOwnsRest(st: State, builtins: Snapshot, server: string)
    requires Owns(st, builtins) && Builtin(builtins) && Tracked(st) && server in st.clients
      && !TakesSome(st.clients, server)
    ensures Owns(DisconnectOn(st, server).0, builtins)
  {
    hide Owned, TakesSome, Consistent, Builtin, HasDouble, ServerPrefix, Restricted;
    DisconnectOwns(st, builtins, server, Unprefixed(ServerPrefix(server)));
  }

  lemma DisconnectKeepsInv(st: State, builtins: Snapshot, server: string)
    requires Inv(st, builtins) && Builtin(builtins) && server in st.clients && !TakesSome(st.clients, server)
    ensures Inv(DisconnectOn(st, server).0, builtins)
  {
    hide Owns, Tracked, TakesSome, DisconnectOn, Builtin;
    DisconnectOwnsRest(st, builtins, server);
    DisconnectTracked(st, server);
  }

  // Disconnecting keeps the catalog in step exactly when the prefix takes nothing from the servers
  // that stay.
  lemma DisconnectKeepsInvIff(st: State, builtins: Snapshot, server: string)
    requires Inv(st, builtins) && Builtin(builtins)
    ensures Inv(DisconnectOn(st, server).0, builtins) <==> !(server in st.clients && TakesSome(st.clients, server))
  {
    hide TakesSome, Tracked, Consistent, Restricted;
    if server in st.clients {
      if TakesSome(st.clients, server) {
        hide Inv, DisconnectOn, Owns;
        DisconnectBreaksInv(st, builtins, server);
      } else {
        hide Inv, DisconnectOn, Owns;
        DisconnectKeepsInv(st, builtins, server);
      }
    }
  }

  lemma ShutdownOwns(st: State, builtins: Snapshot, keep: string -> bool)
    requires Owns(st, builtins) && Builtin(builtins)
    requires forall n :: keep(n) <==> forall s :: s in st.clients.Keys ==> !HasPrefix(n, ServerPrefix(s))
    ensures Owns(st.(clients := map[], catalog := Restricted(st.catalog, keep)), builtins)
  {
    RestrictedIsConsistent(st.catalog, keep);
    forall n
      ensures !Owned(map[], n)
      ensures Owned(st.clients, n) ==> !keep(n)
      ensures n in builtins.definitions ==> keep(n)
    {
      if Owned(st.clients, n) {
        var s, i :| OwnedBy(st.clients, n, s, i);
        MarkCancels(s + "__", s + ("__" + st.clients[s][i].name));
        CoversOwn(s, st.clients[s][i].name);
        assert s in st.clients.Keys;
      }
      if n in builtins.definitions {
        forall s | s in st.clients.Keys
          ensures !HasPrefix(n, ServerPrefix(s))
        {
          BuiltinIsUncovered(n, s);
        }
      }
    }
    BuiltinsComeFirst(st, builtins, keep);
  }

  lemma ShutdownKeepsInv(st: State, builtins: Snapshot)
    requires Inv(st, builtins) && Builtin(builtins)
    ensures Inv(ShutdownOn(st), builtins)
  {
    if !st.closed {
      ShutdownOwns(st, builtins, Spared(st.clients.Keys));
    }
  }

  lemma {:induction false} StageKeepsInv(
    st: State, builtins: Snapshot, configs: seq<ServerConfig>, alphanumeric: char -> bool)
    requires Inv(st, builtins)
    ensures Inv(StageOn(st, configs, alphanumeric), builtins)
  {
    if configs != [] {
      StageKeepsInv(st, builtins, configs[..|configs| - 1], alphanumeric);
    }
  }

  // The operation disconnects a server whose prefix covers tools of another connected one.
  ghost predicate Overreaches(st: State, op: Op) {
    op.Disconnect? && op.name in st.clients && TakesSome(st.clients, op.name)
  }

  // Overreaching is the one way to get the catalog out of step.
  lemma StepKeepsInvIff(st: State, builtins: Snapshot, op: Op, alphanumeric: char -> bool)
    requires Inv(st, builtins) && Builtin(builtins)
    ensures Inv(Step(st, op, alphanumeric).0, builtins) <==> !Overreaches(st, op)
  {
    hide Inv, StartOn, ApproveOn, DisconnectOn, ShutdownOn, StageOn, TakesSome;
    match op {
      case Stage(configs) => StageKeepsInv(st, builtins, configs, alphanumeric);
      case Approve(name, outcome) => ApproveKeepsInv(st, builtins, name, outcome, alphanumeric);
      case Connect(config, outcome) => StartKeepsInv(st, builtins, config, outcome, alphanumeric);
      case Disconnect(name) => DisconnectKeepsInvIff(st, builtins, name);
      case Shutdown => ShutdownKeepsInv(st, builtins);
    }
  }

  function Initial(builtins: Snapshot): State {
    State(false, map[], map[], map[], {}, builtins)
  }

  lemma InitialInv(builtins: Snapshot)
    requires Builtin(builtins)
    ensures Inv(Initial(builtins), builtins)
  {
  }

  // Over every run that never overreaches, the catalog is the built-in tools and exactly the tools
  // of the servers connected at the time.
  lemma {:induction false} CatalogFollowsServers(builtins: Snapshot, ops: seq<Op>, alphanumeric: char -> bool)
    requires Builtin(builtins)
    requires forall k :: 0 <= k < |ops| ==> !Overreaches(Run(Initial(builtins), ops[..k], alphanumeric), ops[k])
    ensures Inv(Run(Initial(builtins), ops, alphanumeric), builtins)
  {
    hide Overreaches, Step, Inv;
    if ops == [] {
      InitialInv(builtins);
    } else {
      var init, n := ops[..|ops| - 1], |ops| - 1;
      forall k | 0 <= k < |init|
        ensures !Overreaches(Run(Initial(builtins), init[..k], alphanumeric), init[k])
      {
        assert init[..k] == ops[..k] && init[k] == ops[k];
      }
      CatalogFollowsServers(builtins, init, alphanumeric);
      StepKeepsInvIff(Run(Initial(builtins), init, alphanumeric), builtins, ops[n], alphanumeric);
    }
  }

  // No two of the servers differ by a trailing underscore only.
  ghost predicate NoNeighbours(clients: map<string, seq<ToolInfo>>) {
    forall s :: s in clients ==> s + "_" !in clients
  }

  // It suffices that no two such servers are ever connected at once.
  lemma ApartNeverOverreaches(st: State, op: Op)
    requires NoNeighbours(st.clients)
    ensures !Overreaches(st, op)
  {
  }

  // A call by qualified name goes to this server and tool.
  function Route(clients: map<string, seq<ToolInfo>>, fullName: string): Option<(string, string)> {
    match ParseToolName(fullName)
    case None => None
    case Some(target) => if target.0 in clients then Some(target) else None
  }

  // Every tool of a connected server is in the catalog, and running its handler reaches that
  // server's tool of that name exactly when the server's name does not end in an underscore.
  lemma RegisteredToolsAreReachable(st: State, builtins: Snapshot, server: string, i: nat)
    requires Inv(st, builtins) && Builtin(builtins) && server in st.clients && i < |st.clients[server]|
    ensures var n := Qualified(server, st.clients[server][i].name);
      && n in st.catalog.definitions
      && (Route(st.clients, st.catalog.definitions[n].handler) == Some((server, st.clients[server][i].name))
          <==> !EndsInUnderscore(server))
  {
    var toolName := st.clients[server][i].name;
    var n := Qualified(server, toolName);
    assert OwnedBy(st.clients, n, server, i);
    OwnedIsMarked(st.clients, n);
    ParseGivesBackIff(server, toolName);
  }

  // Connecting a new server and disconnecting it again restores the catalog exactly, unless its
  // prefix covers tools of a server already connected.
  lemma ConnectThenDisconnectRestoresIff(
    st: State, builtins: Snapshot, cfg: ServerConfig, tools: seq<ToolInfo>, alphanumeric: char -> bool)
    requires Inv(st, builtins) && Builtin(builtins)
    requires StartOn(st, cfg, Discovered(tools), alphanumeric).1.Connected?
    ensures DisconnectOn(StartOn(st, cfg, Discovered(tools), alphanumeric).0, cfg.name).0.catalog == st.catalog
       <==> !TakesSome(st.clients, cfg.name)
  {
    hide Restricted, WithAll, DefinitionsOf, ServerPrefix, Neighbouring, TrimSpace, Permitted, HasDouble;
    var st' := StartOn(st, cfg, Discovered(tools), alphanumeric).0;
    if TakesSome(st.clients, cfg.name) {
      var other, i :| Takes(st.clients, cfg.name, other, i);
      NoNeighbourIsItself(st.clients, cfg.name, other, i);
      assert OwnedBy(st.clients, Qualified(other, st.clients[other][i].name), other, i);
      StartKeepsInv(st, builtins, cfg, Discovered(tools), alphanumeric);
      assert Takes(st'.clients, cfg.name, other, i);
      TakenIsGone(st', cfg.name, other, i);
    } else {
      RestoresWhenApart(st, builtins, cfg.name, tools);
    }
  }

  lemma RestoresWhenApart(st: State, builtins: Snapshot, server: string, tools: seq<ToolInfo>)
    requires Inv(st, builtins) && Builtin(builtins) && !HasDouble(server) && server !in st.clients
    requires !TakesSome(st.clients, server)
    ensures Restricted(WithAll(st.catalog, DefinitionsOf(server, tools)), Unprefixed(ServerPrefix(server)))
      == st.catalog
  {
    hide Restricted, WithAll, TakesSome, HasDouble;
    ForeignNamesStay(st, builtins, server);
    OwnNamesGo(server, tools);
    RegisterThenDropRestores(st.catalog, DefinitionsOf(server, tools), Unprefixed(ServerPrefix(server)));
  }

  lemma ForeignNamesStay(st: State, builtins: Snapshot, server: string)
    requires Inv(st, builtins) && Builtin(builtins) && !HasDouble(server) && server !in st.clients
    requires !TakesSome(st.clients, server)
    ensures forall n :: n in st.catalog.definitions ==> Unprefixed(ServerPrefix(server))(n)
  {
    forall n | n in st.catalog.definitions
      ensures Unprefixed(ServerPrefix(server))(n)
    {
      if n in builtins.definitions {
        BuiltinIsUncovered(n, server);
      } else {
        var s, i :| OwnedBy(st.clients, n, s, i);
        TakenIsCovered(st.clients, server, s, i);
      }
    }
  }

  lemma OwnNamesGo(server: string, tools: seq<ToolInfo>)
    ensures var defs := DefinitionsOf(server, tools);
      forall i :: 0 <= i < |defs| ==> !Unprefixed(ServerPrefix(server))(defs[i].name)
  {
    var defs := DefinitionsOf(server, tools);
    forall i | 0 <= i < |defs|
      ensures !Unprefixed(ServerPrefix(server))(defs[i].name)
    {
      MarkCancels(server + "__", server + ("__" + tools[i].name));
      CoversOwn(server, tools[i].name);
    }
  }

  // --- It does happen ---

  const PLAIN := ServerConfig("a", "run")
  const TRAILING := ServerConfig("a_", "run")
  const ONE_TOOL := [ToolInfo("t", "")]

  lemma BothAreValid(alphanumeric: char -> bool)
    requires alphanumeric('a')
    ensures ValidConfig(alphanumeric, PLAIN) && ValidConfig(alphanumeric, TRAILING)
    ensures TRAILING.name == PLAIN.name + "_" && !HasDouble(PLAIN.name) && !HasDouble(TRAILING.name)
  {
    assert TrimSpace("a") == "a" && TrimSpace("a_") == "a_" && TrimSpace("run") == "run";
  }

  lemma RunSnoc(st: State, ops: seq<Op>, op: Op, alphanumeric: char -> bool)
    ensures Run(st, ops + [op], alphanumeric) == Step(Run(st, ops, alphanumeric), op, alphanumeric).0
  {
    assert (ops + [op])[..|ops|] == ops;
  }

  const FIRST := Connect(PLAIN, Discovered([]))
  const SECOND := Connect(TRAILING, Discovered(ONE_TOOL))

  lemma ConnectedOne(st: State, cfg: ServerConfig, tools: seq<ToolInfo>, alphanumeric: char -> bool)
    requires Inv(st, NO_TOOLS) && ValidConfig(alphanumeric, cfg) && !st.closed && cfg.name !in st.clients
    ensures var st' := Step(st, Connect(cfg, Discovered(tools)), alphanumeric).0;
      Inv(st', NO_TOOLS) && !st'.closed && st'.clients == st.clients[cfg.name := tools]
  {
    hide Inv, ValidConfig, WithAll, DefinitionsOf;
    StepKeepsInvIff(st, NO_TOOLS, Connect(cfg, Discovered(tools)), alphanumeric);
  }

  lemma BothConnected(alphanumeric: char -> bool) returns (ops: seq<Op>)
    requires alphanumeric('a')
    ensures var st := Run(Initial(NO_TOOLS), ops, alphanumeric);
      && st.clients == map[PLAIN.name := [], TRAILING.name := ONE_TOOL]
      && Inv(st, NO_TOOLS)
  {
    var st := Initial(NO_TOOLS);
    BothAreValid(alphanumeric);
    InitialInv(NO_TOOLS);
    assert Run(st, [], alphanumeric) == st;
    hide Run, ValidConfig, Inv, Step, HasDouble;
    RunSnoc(st, [], FIRST, alphanumeric);
    ConnectedOne(st, PLAIN, [], alphanumeric);
    RunSnoc(st, [] + [FIRST], SECOND, alphanumeric);
    ConnectedOne(Step(st, FIRST, alphanumeric).0, TRAILING, ONE_TOOL, alphanumeric);
    ops := [] + [FIRST] + [SECOND];
  }

  // Both servers are accepted and connected; disconnecting the one takes the other's tool with it.
  lemma DisconnectTakesNeighbours(alphanumeric: char -> bool) returns (ops: seq<Op>)
    requires alphanumeric('a')
    ensures var st := Run(Initial(NO_TOOLS), ops, alphanumeric);
      var st' := Step(st, Disconnect("a"), alphanumeric).0;
      && Qualified("a_", "t") in st.catalog.definitions && Qualified("a_", "t") !in st'.catalog.definitions
      && "a_" in st'.clients && st'.clients["a_"] == ONE_TOOL
  {
    hide Run, Qualified, ServerPrefix, ValidConfig;
    ops := BothConnected(alphanumeric);
    BothAreValid(alphanumeric);
    var st := Run(Initial(NO_TOOLS), ops, alphanumeric);
    assert OwnedBy(st.clients, Qualified("a_", "t"), "a_", 0);
    assert Takes(st.clients, "a", "a_", 0);
    TakenIsGone(st, "a", "a_", 0);
  }

  lemma SpareOneLess(s: Snapshot, done: set<string>, name: string)
    requires Consistent(s)
    ensures ServerPrefix(name) != ""
    ensures Restricted(Restricted(s, Spared(done)), Unprefixed(ServerPrefix(name)))
      == Restricted(s, Spared(done + {name}))
  {
    RestrictedTwice(s, Spared(done), Unprefixed(ServerPrefix(name)), Spared(done + {name}));
  }

  lemma StageNext(st: State, configs: seq<ServerConfig>, i: nat, alphanumeric: char -> bool)
    requires i < |configs|
    ensures var s, cfg := StageOn(st, configs[..i], alphanumeric), configs[i];
      StageOn(st, configs[..i + 1], alphanumeric) ==
        if ValidConfig(alphanumeric, cfg) && cfg.name !in s.clients then s.(pending := s.pending[cfg.name := cfg])
          else s
  {
    assert configs[..i + 1][..i] == configs[..i];
  }

  // --- The manager ---

  class Manager {
    const alphanumeric: char -> bool
    const registry: ToolCatalog
    var closed: bool
    var clients: map<string, seq<ToolInfo>>
    var toolCounts: map<string, nat>
    var pendingServers: map<string, ServerConfig>
    var failures: set<string>

    ghost predicate Valid()
      reads this, registry
    {
      registry.Valid()
    }

    function View(): State
      reads this, registry
    {
      State(closed, clients, toolCounts, pendingServers, failures, registry.snapshot)
    }

    constructor (registry: ToolCatalog, alphanumeric: char -> bool)
      requires registry.Valid()
      ensures Valid() && View() == Initial(registry.snapshot) && this.registry == registry
        && this.alphanumeric == alphanumeric
    {
      this.registry, this.alphanumeric := registry, alphanumeric;
      closed, clients, toolCounts, pendingServers, failures := false, map[], map[], map[], {};
    }

    // Configured servers wait for approval.
    method LoadAndStart(configs: seq<ServerConfig>) returns (rejected: nat)
      requires Valid()
      modifies this`pendingServers
      ensures Valid() && View() == StageOn(old(View()), configs, alphanumeric)
      ensures rejected == 0 <==> forall i :: 0 <= i < |configs| ==> ValidConfig(alphanumeric, configs[i])
    {
      hide ValidConfig;
      rejected := 0;
      for i := 0 to |configs|
        invariant View() == StageOn(old(View()), configs[..i], alphanumeric)
        invariant rejected == 0 <==> forall j :: 0 <= j < i ==> ValidConfig(alphanumeric, configs[j])
      {
        StageNext(old(View()), configs, i, alphanumeric);
        var cfg := configs[i];
        var err := ValidateServerConfig(cfg, alphanumeric);
        if err.Some? {
          rejected := rejected + 1;
          continue;
        }
        if cfg.name !in clients {
          pendingServers := pendingServers[cfg.name := cfg];
        }
      }
      assert configs[..|configs|] == configs;
    }

    method StartServer(cfg: ServerConfig, outcome: Outcome) returns (reply: Reply)
      requires Valid()
      modifies this, registry
      ensures Valid() && (View(), reply) == StartOn(old(View()), cfg, outcome, alphanumeric)
    {
      var err := ValidateServerConfig(cfg, alphanumeric);
      if err.Some? {
        return Rejected;
      }
      if closed {
        return ManagerClosed;
      }
      if cfg.name in clients {
        return AlreadyConnected;
      }
      match outcome {
        case Discovered(tools) =>
          RegisterMCPTools(cfg.name, tools);
          clients := clients[cfg.name := tools];
          toolCounts := toolCounts[cfg.name := |tools|];
          failures := failures - {cfg.name};
          reply := Connected(|tools|);
        case _ =>
          failures := failures + {cfg.name};
          reply := StartError;
      }
    }

    method RegisterMCPTools(server: string, tools: seq<ToolInfo>)
      requires Valid()
      modifies registry
      ensures Valid() && registry.snapshot == WithAll(old(registry.snapshot), DefinitionsOf(server, tools))
    {
      var defs: seq<Definition> := [];
      for i := 0 to |tools|
        invariant defs == DefinitionsOf(server, tools[..i])
      {
        assert tools[..i + 1][..i] == tools[..i];
        var fullName := Qualified(server, tools[i].name);
        defs := defs + [Definition(fullName, "[MCP:" + server + "] " + tools[i].description, fullName)];
      }
      assert tools[..|tools|] == tools;
      registry.Register(defs);
    }

    method Approve(name: string, outcome: Outcome) returns (reply: Reply)
      requires Valid()
      modifies this, registry
      ensures Valid() && (View(), reply) == ApproveOn(old(View()), name, outcome, alphanumeric)
    {
      if name !in pendingServers {
        return NoPending;
      }
      reply := StartServer(pendingServers[name], outcome);
      if !reply.Connected? {
        return;
      }
      pendingServers := pendingServers - {name};
    }

    method Disconnect(name: string) returns (reply: Reply)
      requires Valid()
      modifies this, registry
      ensures Valid() && (View(), reply) == DisconnectOn(old(View()), name)
    {
      if name !in clients {
        return NotConnected;
      }
      clients := clients - {name};
      toolCounts := toolCounts - {name};
      failures := failures - {name};
      UnregisterMCPTools(name);
      reply := Stopped;
    }

    method UnregisterMCPTools(server: string)
      requires Valid()
      modifies registry
      ensures Valid() && registry.snapshot == Restricted(old(registry.snapshot), Unprefixed(ServerPrefix(server)))
    {
      var removed := registry.UnregisterPrefix(ServerPrefix(server));
    }

    method Shutdown()
      requires Valid()
      modifies this, registry
      ensures Valid() && View() == ShutdownOn(old(View()))
    {
      if closed {
        return;
      }
      var names := clients.Keys;
      closed := true;
      clients, toolCounts := map[], map[];
      UnregisterAll(names);
    }

    // The servers are stopped in no particular order.
    method UnregisterAll(names: set<string>)
      requires Valid()
      modifies registry
      ensures Valid() && registry.snapshot == Restricted(old(registry.snapshot), Spared(names))
    {
      var left, done := names, {};
      RestrictedToAll(registry.snapshot, Spared(done));
      hide Restricted, Spared, ServerPrefix, Consistent, Unprefixed, Prefixed;
      while left != {}
        invariant Valid() && done + left == names
        invariant registry.snapshot == Restricted(old(registry.snapshot), Spared(done))
        decreases left
      {
        var name :| name in left;
        UnregisterMCPTools(name);
        SpareOneLess(old(registry.snapshot), done, name);
        left, done := left - {name}, done + {name};
      }
      assert done == names;
    }

    method CallTool(fullName: string) returns (target: Option<(string, string)>)
      requires Valid()
      ensures target == Route(clients, fullName)
    {
      var parts := SplitN(fullName, 3);
      if |parts| != 3 {
        return None;
      }
      if parts[1] !in clients {
        return None;
      }
      target := Some((parts[1], parts[2]));
    }
  }
}
