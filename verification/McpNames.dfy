// Names of MCP servers and of the tools they own in the catalog (internal/mcp/manager.go).
module McpNames {
  import opened Options
  import opened Text

  datatype ServerConfig = ServerConfig(name: string, command: string)

  datatype ConfigError = NameRequired | InvalidName | InvalidCharacter | CommandRequired

  predicate DoubleAt(s: string, i: int) {
    0 <= i < |s| - 1 && s[i] == '_' && s[i + 1] == '_'
  }

  predicate HasDouble(s: string) {
    exists i :: 0 <= i < |s| - 1 && DoubleAt(s, i)
  }

  // Which characters are letters or digits is the caller's business.
  predicate Permitted(alphanumeric: char -> bool, c: char) {
    alphanumeric(c) || c == '.' || c == '-' || c == '_'
  }

  predicate ValidName(alphanumeric: char -> bool, name: string) {
    TrimSpace(name) != "" && name == TrimSpace(name) && !HasDouble(name)
    && forall i :: 0 <= i < |name| ==> Permitted(alphanumeric, name[i])
  }

  predicate ValidConfig(alphanumeric: char -> bool, cfg: ServerConfig) {
    ValidName(alphanumeric, cfg.name) && TrimSpace(cfg.command) != ""
  }

  method ValidateServerConfig(cfg: ServerConfig, alphanumeric: char -> bool) returns (err: Option<ConfigError>)
    ensures err == None <==> ValidConfig(alphanumeric, cfg)
  {
    if TrimSpace(cfg.name) == "" {
      return Some(NameRequired);
    }
    if cfg.name != TrimSpace(cfg.name) || HasDouble(cfg.name) {
      return Some(InvalidName);
    }
    for i := 0 to |cfg.name|
      invariant forall j :: 0 <= j < i ==> Permitted(alphanumeric, cfg.name[j])
    {
      var c := cfg.name[i];
      if alphanumeric(c) || c == '.' || c == '-' || c == '_' {
        continue;
      }
      return Some(InvalidCharacter);
    }
    if TrimSpace(cfg.command) == "" {
      return Some(CommandRequired);
    }
    err := None;
  }

  // --- Qualified names ---

  // What every tool name of a server starts with.
  function ServerPrefix(server: string): string {
    "mcp__" + (server + "__")
  }

  function Qualified(server: string, toolName: string): string {
    "mcp__" + (server + ("__" + toolName))
  }

  function FirstDouble(s: string, from: nat): (at: int)
    requires from <= |s|
    ensures at == -1 ==> forall i :: from <= i ==> !DoubleAt(s, i)
    ensures at != -1 ==> from <= at && DoubleAt(s, at) && forall i :: from <= i < at ==> !DoubleAt(s, i)
    decreases |s| - from
  {
    if from == |s| then -1 else if DoubleAt(s, from) then from else FirstDouble(s, from + 1)
  }

  // At most n pieces, cut at the leftmost separators.
  function SplitN(s: string, n: nat): seq<string>
    requires 0 < n
    decreases n
  {
    var at := FirstDouble(s, 0);
    if n == 1 || at == -1 then [s] else [s[..at]] + SplitN(s[at + 2..], n - 1)
  }

  // The server and the tool a qualified name is taken to mean.
  function ParseToolName(fullName: string): Option<(string, string)> {
    var parts := SplitN(fullName, 3);
    if |parts| != 3 then None else Some((parts[1], parts[2]))
  }

  predicate EndsInUnderscore(s: string) {
    s != "" && s[|s| - 1] == '_'
  }

  lemma FirstDoubleIs(s: string, at: nat)
    requires DoubleAt(s, at) && forall i :: 0 <= i < at ==> !DoubleAt(s, i)
    ensures FirstDouble(s, 0) == at
  {
  }

  lemma SplitServer(server: string, toolName: string)
    requires !HasDouble(server)
    ensures var rest := server + ("__" + toolName);
      FirstDouble(rest, 0) == if EndsInUnderscore(server) then |server| - 1 else |server|
  {
    var rest := server + ("__" + toolName);
    var at := if EndsInUnderscore(server) then |server| - 1 else |server|;
    forall i | 0 <= i < at
      ensures !DoubleAt(rest, i)
    {
      if i < |server| - 1 {
        assert !DoubleAt(server, i);
      }
    }
    FirstDoubleIs(rest, at);
  }

  lemma SplitMark(rest: string)
    ensures SplitN("mcp__" + rest, 3) == ["mcp"] + SplitN(rest, 2)
  {
    var full := "mcp__" + rest;
    assert DoubleAt(full, 3) && full[0] == 'm' && full[1] == 'c' && full[2] == 'p';
    FirstDoubleIs(full, 3);
    assert full[..3] == "mcp" && full[5..] == rest;
  }

  // Parsing gives back the server and the tool exactly for servers whose name does not end in
  // an underscore.
  lemma ParseGivesBackIff(server: string, toolName: string)
    requires !HasDouble(server)
    ensures ParseToolName(Qualified(server, toolName)) == Some((server, toolName)) <==> !EndsInUnderscore(server)
  {
    hide HasDouble, FirstDouble, SplitN;
    var rest := server + ("__" + toolName);
    SplitMark(rest);
    SplitServer(server, toolName);
    var at := FirstDouble(rest, 0);
    SplitRest(rest);
    if EndsInUnderscore(server) {
      assert |rest[..at]| != |server|;
    } else {
      assert rest[..at] == server && rest[at + 2..] == toolName;
    }
  }

  lemma SplitRest(rest: string)
    requires FirstDouble(rest, 0) != -1
    ensures var at := FirstDouble(rest, 0); SplitN(rest, 2) == [rest[..at], rest[at + 2..]]
  {
  }

  // --- Prefixes ---

  predicate StartsWithUnderscore(s: string) {
    s != "" && s[0] == '_'
  }

  lemma MarkCancels(a: string, b: string)
    ensures HasPrefix("mcp__" + b, "mcp__" + a) <==> HasPrefix(b, a)
  {
    var x, y := "mcp__" + a, "mcp__" + b;
    assert x[5..] == a && y[5..] == b;
    if HasPrefix(y, x) {
      assert y[..|x|] == x && y[..|x|][5..] == b[..|a|];
    }
    if HasPrefix(b, a) {
      assert b[..|a|] == a;
      assert y[..|x|] == x;
    }
  }

  lemma CoversOwn(server: string, toolName: string)
    ensures HasPrefix(server + ("__" + toolName), server + "__")
  {
    assert server + ("__" + toolName) == (server + "__") + toolName;
  }

  lemma CoversNeighbour(server: string, toolName: string)
    ensures HasPrefix(server + "_" + ("__" + toolName), server + "__")
    ensures StartsWithUnderscore(toolName) ==> HasPrefix(server + ("__" + toolName), server + "_" + "__")
  {
    assert server + "_" + ("__" + toolName) == (server + "__") + ("_" + toolName);
    if StartsWithUnderscore(toolName) {
      assert server + ("__" + toolName) == (server + "_" + "__") + toolName[1..];
    }
  }

  lemma CoversOnly(server: string, other: string, toolName: string)
    requires !HasDouble(server) && !HasDouble(other) && HasPrefix(other + ("__" + toolName), server + "__")
    ensures other == server || other == server + "_" || (server == other + "_" && StartsWithUnderscore(toolName))
  {
    var whole, prefix := other + ("__" + toolName), server + "__";
    var n, m := |server|, |other|;
    assert whole[..|prefix|] == prefix;
    forall i | 0 <= i < n
      ensures server[i] == whole[i]
    {
      assert whole[..|prefix|][i] == prefix[i];
    }
    assert forall i :: 0 <= i < m ==> whole[i] == other[i];
    assert whole[n] == prefix[n] && whole[n + 1] == prefix[n + 1];
    assert whole[n] == '_' && whole[n + 1] == '_';
    if n + 1 < m {
      assert other[n] == '_' && other[n + 1] == '_';
      assert DoubleAt(other, n);
    } else if n == m {
      assert other == server;
    } else if n + 1 == m {
      assert other == server + "_";
    } else if n == m + 1 {
      assert server[m] == whole[m];
      assert server == other + "_";
      assert whole[n + 1] == toolName[0];
    } else {
      assert server[m] == whole[m] && server[m + 1] == whole[m + 1];
      assert DoubleAt(server, m);
    }
  }

  // The prefix of one server covers a tool of another exactly when their names differ by a
  // trailing underscore (and the tool's name makes up for it where it is the shorter one).
  lemma CoversIff(server: string, other: string, toolName: string)
    requires !HasDouble(server) && !HasDouble(other)
    ensures HasPrefix(Qualified(other, toolName), ServerPrefix(server)) <==>
      other == server || other == server + "_" || (server == other + "_" && StartsWithUnderscore(toolName))
  {
    MarkCancels(server + "__", other + ("__" + toolName));
    if HasPrefix(other + ("__" + toolName), server + "__") {
      CoversOnly(server, other, toolName);
    }
    CoversOwn(server, toolName);
    CoversNeighbour(server, toolName);
    CoversNeighbour(other, toolName);
  }
}
