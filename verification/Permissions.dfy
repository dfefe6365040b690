// Permission rules on top of the glob matcher (internal/security/permissions.go).
//
// Rules come in two file formats and are brought into one normal form; the first rule that
// applies to a tool and its arguments decides.
module Permissions {
  import opened Glob
  import opened Options
  import opened Text

  datatype Rule = Rule(tool: string, level: string, action: string, pattern: string)

  // Letter case is the environment's business.
  datatype Casing = Casing(lower: string -> string, equalFold: (string, string) -> bool)

  // --- Text helpers ---

  predicate HasChar(s: string, c: char) {
    exists i :: 0 <= i < |s| && s[i] == c
  }

  function FirstSpace(s: string): (at: nat)
    ensures at <= |s| && (at < |s| ==> s[at] == ' ') && forall i :: 0 <= i < at ==> s[i] != ' '
  {
    if s == "" || s[0] == ' ' then 0 else 1 + FirstSpace(s[1..])
  }

  predicate Contains(s: string, part: string) {
    part <= s || (s != "" && Contains(s[1..], part))
  }

  function WithoutLastStar(s: string): string {
    if s != "" && s[|s| - 1] == '*' then s[..|s| - 1] else s
  }

  // --- Normalisation ---

  function LevelNamed(s: string): Option<string> {
    if s == "allow" then Some("allow")
    else if s == "confirm" || s == "ask" then Some("confirm")
    else if s == "block" || s == "deny" then Some("block")
    else None
  }

  function GivenLevel(casing: Casing, r: Rule): string {
    var level := casing.lower(TrimSpace(r.level));
    if level == "" then casing.lower(TrimSpace(r.action)) else level
  }

  // The rule in its one normal form; none for unknown levels and rules about nothing.
  function Normal(casing: Casing, r: Rule): Option<Rule> {
    match LevelNamed(GivenLevel(casing, r))
    case None => None
    case Some(level) =>
      if TrimSpace(r.tool) == "" && TrimSpace(r.pattern) == "" then None else Some(r.(level := level, action := ""))
  }

  function Normalized(casing: Casing, rules: seq<Rule>): seq<Rule> {
    if rules == [] then [] else
      Normalized(casing, rules[..|rules| - 1])
      + match Normal(casing, rules[|rules| - 1]) case None => [] case Some(r) => [r]
  }

  method NormalizePermissionRules(casing: Casing, input: seq<Rule>) returns (out: seq<Rule>)
    ensures out == Normalized(casing, input)
  {
    out := [];
    for i := 0 to |input|
      invariant out == Normalized(casing, input[..i])
    {
      assert input[..i + 1][..i] == input[..i];
      var r := input[i];
      var level := casing.lower(TrimSpace(r.level));
      if level == "" {
        level := casing.lower(TrimSpace(r.action));
      }
      if level == "allow" {
        r := r.(level := "allow");
      } else if level == "confirm" || level == "ask" {
        r := r.(level := "confirm");
      } else if level == "block" || level == "deny" {
        r := r.(level := "block");
      } else {
        continue;
      }
      r := r.(action := "");
      if TrimSpace(r.tool) == "" && TrimSpace(r.pattern) == "" {
        continue;
      }
      out := out + [r];
    }
    assert input[..|input|] == input;
  }

  // What one more rule adds: itself under the level its own field names, or its action where that is
  // blank, with the older names translated; nothing for any other level or without tool and pattern.
  lemma {:induction false} RuleIsNormalized(casing: Casing, rules: seq<Rule>, r: Rule)
    ensures var level, action := casing.lower(TrimSpace(r.level)), casing.lower(TrimSpace(r.action));
      var says := (name: string) => level == name || (level == "" && action == name);
      Normalized(casing, rules + [r]) == Normalized(casing, rules) +
        if TrimSpace(r.tool) == "" && TrimSpace(r.pattern) == "" then []
        else if says("allow") then [Rule(r.tool, "allow", "", r.pattern)]
        else if says("confirm") || says("ask") then [Rule(r.tool, "confirm", "", r.pattern)]
        else if says("block") || says("deny") then [Rule(r.tool, "block", "", r.pattern)]
        else []
  {
    assert (rules + [r])[..|rules|] == rules;
    hide TrimSpace;
  }

  // Lower-casing leaves the three level names alone.
  ghost predicate KeepsLevels(casing: Casing) {
    casing.lower("allow") == "allow" && casing.lower("confirm") == "confirm" && casing.lower("block") == "block"
  }

  lemma LevelIsTrimmed(level: string)
    requires level == "allow" || level == "confirm" || level == "block"
    ensures TrimSpace(level) == level && LevelNamed(level) == Some(level)
  {
  }

  lemma NormalTwice(casing: Casing, r: Rule)
    requires KeepsLevels(casing) && Normal(casing, r).Some?
    ensures Normal(casing, Normal(casing, r).value) == Normal(casing, r)
  {
    LevelIsTrimmed(Normal(casing, r).value.level);
  }

  lemma {:induction false} NormalizedRule(casing: Casing, rules: seq<Rule>, i: nat)
    requires KeepsLevels(casing) && i < |Normalized(casing, rules)|
    ensures var r := Normalized(casing, rules)[i]; Normal(casing, r) == Some(r) && LevelNamed(r.level) == Some(r.level)
  {
    var init, last := rules[..|rules| - 1], rules[|rules| - 1];
    if i < |Normalized(casing, init)| {
      NormalizedRule(casing, init, i);
    } else {
      NormalTwice(casing, last);
      LevelIsTrimmed(Normal(casing, last).value.level);
    }
  }

  lemma {:induction false} AllNormalStays(casing: Casing, rules: seq<Rule>)
    requires forall i :: 0 <= i < |rules| ==> Normal(casing, rules[i]) == Some(rules[i])
    ensures Normalized(casing, rules) == rules
  {
    if rules != [] {
      var init, last := rules[..|rules| - 1], rules[|rules| - 1];
      AllNormalStays(casing, init);
      hide Normal, Normalized;
      NormalizedSnoc(casing, init, last);
      assert init + [last] == rules;
    }
  }

  lemma {:induction false} NormalizedSnoc(casing: Casing, rules: seq<Rule>, r: Rule)
    requires Normal(casing, r) == Some(r)
    ensures Normalized(casing, rules + [r]) == Normalized(casing, rules) + [r]
  {
    assert (rules + [r])[..|rules|] == rules;
  }

  // Normalised rules carry one of the three levels, and normalising them again changes nothing.
  lemma NormalizingTwiceIsOnce(casing: Casing, rules: seq<Rule>)
    requires KeepsLevels(casing)
    ensures var out := Normalized(casing, rules);
      Normalized(casing, out) == out && forall i :: 0 <= i < |out| ==> LevelNamed(out[i].level) == Some(out[i].level)
  {
    var out := Normalized(casing, rules);
    forall i | 0 <= i < |out|
      ensures Normal(casing, out[i]) == Some(out[i]) && LevelNamed(out[i].level) == Some(out[i].level)
    {
      NormalizedRule(casing, rules, i);
    }
    AllNormalStays(casing, out);
  }

  // --- Matching ---

  ghost predicate ToolFits(casing: Casing, r: Rule, toolName: string) {
    if r.tool == "*" then true
    else if r.tool != "" then
      if HasChar(r.tool, '*') || HasChar(r.tool, '?') then Matches(r.tool, toolName)
        else casing.equalFold(r.tool, toolName)
    else if r.pattern == "" then false
    else if !HasChar(r.pattern, ' ') then Matches(r.pattern, toolName)
    else HasPrefix(r.pattern, toolName + " ")
  }

  // The part of the pattern that speaks about arguments.
  function ArgsPattern(pattern: string, toolName: string): string {
    var at := FirstSpace(pattern);
    if at < |pattern| && pattern[..at] == toolName then pattern[at + 1..] else pattern
  }

  ghost predicate ArgsPatternFits(casing: Casing, pattern: string, args: string) {
    pattern == "*" || pattern == "" || Matches(pattern, args)
    || Contains(casing.lower(args), casing.lower(WithoutLastStar(pattern)))
  }

  ghost predicate ArgsFit(casing: Casing, r: Rule, toolName: string, args: string) {
    r.pattern == "" || (!HasChar(r.pattern, ' ') && r.tool == "")
      || ArgsPatternFits(casing, ArgsPattern(r.pattern, toolName), args)
  }

  ghost predicate Applies(casing: Casing, r: Rule, toolName: string, args: string) {
    ToolFits(casing, r, toolName) && ArgsFit(casing, r, toolName, args)
  }

  method PermissionToolMatches(casing: Casing, r: Rule, toolName: string) returns (ok: bool)
    ensures ok <==> ToolFits(casing, r, toolName)
  {
    if r.tool == "*" {
      return true;
    }
    if r.tool != "" {
      if HasChar(r.tool, '*') || HasChar(r.tool, '?') {
        ok := WildcardMatch(r.tool, toolName);
        return;
      }
      return casing.equalFold(r.tool, toolName);
    }
    if r.pattern != "" && !HasChar(r.pattern, ' ') {
      ok := WildcardMatch(r.pattern, toolName);
      return;
    }
    if r.pattern != "" && HasChar(r.pattern, ' ') {
      return HasPrefix(r.pattern, toolName + " ");
    }
    ok := false;
  }

  lemma SpaceFound(s: string)
    ensures FirstSpace(s) < |s| <==> HasChar(s, ' ')
  {
    if FirstSpace(s) < |s| {
      assert s[FirstSpace(s)] == ' ';
    }
  }

  method PermissionArgsMatch(casing: Casing, r: Rule, toolName: string, args: string) returns (ok: bool)
    ensures ok <==> ArgsFit(casing, r, toolName, args)
  {
    var pat := r.pattern;
    if pat == "" {
      return true;
    }
    SpaceFound(pat);
    if HasChar(pat, ' ') {
      var at := FirstSpace(pat);
      if pat[..at] == toolName {
        pat := pat[at + 1..];
      }
    } else if r.tool == "" {
      return true;
    }
    if pat == "*" || pat == "" {
      return true;
    }
    ok := WildcardMatch(pat, args);
    ok := ok || Contains(casing.lower(args), casing.lower(WithoutLastStar(pat)));
  }

  // The first rule that applies decides; without one there is no decision.
  ghost function Decision(casing: Casing, rules: seq<Rule>, toolName: string, args: string): string {
    if rules == [] then ""
    else if Applies(casing, rules[0], toolName, args) then rules[0].level
    else Decision(casing, rules[1..], toolName, args)
  }

  method Match(casing: Casing, rules: seq<Rule>, toolName: string, args: string) returns (level: string)
    ensures level == Decision(casing, rules, toolName, args)
  {
    assert rules[0..] == rules;
    for i := 0 to |rules|
      invariant Decision(casing, rules[i..], toolName, args) == Decision(casing, rules, toolName, args)
    {
      assert rules[i..][1..] == rules[i + 1..];
      var fits := PermissionToolMatches(casing, rules[i], toolName);
      if !fits {
        continue;
      }
      if rules[i].pattern != "" {
        fits := PermissionArgsMatch(casing, rules[i], toolName, args);
        if !fits {
          continue;
        }
      }
      return rules[i].level;
    }
    level := "";
  }

  ghost predicate SomeApplies(casing: Casing, rules: seq<Rule>, toolName: string, args: string) {
    exists i :: 0 <= i < |rules| && Applies(casing, rules[i], toolName, args)
  }

  // Rules further down never overrule: they are asked only when none before them applies.
  lemma {:induction false} LaterRulesNeverOverrule(
    casing: Casing, rules: seq<Rule>, more: seq<Rule>, toolName: string, args: string)
    ensures Decision(casing, rules + more, toolName, args) ==
      if SomeApplies(casing, rules, toolName, args)
      then Decision(casing, rules, toolName, args) else Decision(casing, more, toolName, args)
    decreases |rules|
  {
    if rules == [] {
      assert rules + more == more;
    } else {
      assert (rules + more)[1..] == rules[1..] + more;
      LaterRulesNeverOverrule(casing, rules[1..], more, toolName, args);
      if !Applies(casing, rules[0], toolName, args) {
        if SomeApplies(casing, rules, toolName, args) {
          var i :| 0 <= i < |rules| && Applies(casing, rules[i], toolName, args);
          assert rules[1..][i - 1] == rules[i];
        }
        if SomeApplies(casing, rules[1..], toolName, args) {
          var i :| 0 <= i < |rules[1..]| && Applies(casing, rules[1..][i], toolName, args);
          assert rules[i + 1] == rules[1..][i];
        }
      }
    }
  }

  // A pattern alone, without a space, is a glob over tool names and says nothing about arguments.
  lemma GlobAloneIgnoresArgs(casing: Casing, r: Rule, toolName: string, args: string)
    requires r.tool == "" && r.pattern != "" && !HasChar(r.pattern, ' ')
    ensures Applies(casing, r, toolName, args) <==> Matches(r.pattern, toolName)
  {
  }

  lemma FirstSpaceAfter(tool: string, glob: string)
    requires !HasChar(tool, ' ')
    ensures FirstSpace(tool + (" " + glob)) == |tool|
  {
    var whole := tool + (" " + glob);
    assert whole[|tool|] == ' ' && forall i :: 0 <= i < |tool| ==> whole[i] == tool[i];
  }

  lemma NamesExactly(tool: string, glob: string, toolName: string)
    requires !HasChar(tool, ' ') && !HasChar(toolName, ' ')
    ensures HasPrefix(tool + (" " + glob), toolName + " ") <==> toolName == tool
  {
    var whole := tool + (" " + glob);
    assert whole == (tool + " ") + glob;
    if HasPrefix(whole, toolName + " ") {
      FirstSpaceAfter(tool, glob);
      var rest := whole[|toolName| + 1..];
      assert whole == (toolName + " ") + rest;
      assert whole == toolName + (" " + rest);
      FirstSpaceAfter(toolName, rest);
      assert whole[..|tool|] == tool && whole[..|toolName|] == toolName;
    }
  }

  lemma StarIsWild()
    ensures HasChar("*", '*')
  {
    assert "*"[0] == '*';
  }

  // The combined form "tool glob" means the rule for exactly that tool whose arguments fit the
  // glob: what the two-field form of the same rule says, with letter case taken seriously.
  lemma CombinedMeansTwoFields(
    casing: Casing, tool: string, glob: string, level: string, toolName: string, args: string)
    requires tool != "" && !HasChar(tool, ' ') && !HasChar(tool, '*') && !HasChar(tool, '?')
    requires glob != "" && !HasChar(glob, ' ') && !HasChar(toolName, ' ') && casing.equalFold(tool, tool)
    ensures var combined, fields := Rule("", level, "", tool + (" " + glob)), Rule(tool, level, "", glob);
      Applies(casing, combined, toolName, args) <==> toolName == tool && Applies(casing, fields, toolName, args)
  {
    var pattern := tool + (" " + glob);
    assert pattern[|tool|] == ' ';
    FirstSpaceAfter(tool, glob);
    NamesExactly(tool, glob, toolName);
    SpaceFound(glob);
    assert pattern[..|tool|] == tool && pattern[|tool| + 1..] == glob;
    StarIsWild();
  }

  // --- What a rule means, read off its fields ---

  predicate StandsAt(s: string, part: string, i: int) {
    0 <= i && i + |part| <= |s| && s[i..i + |part|] == part
  }

  lemma StandsAtLater(s: string, part: string, i: int)
    requires s != "" && 0 <= i
    ensures StandsAt(s[1..], part, i) <==> StandsAt(s, part, i + 1)
  {
    if i + 1 + |part| <= |s| {
      assert s[1..][i..i + |part|] == s[i + 1..i + 1 + |part|];
    }
  }

  lemma StandsAtStart(s: string, part: string)
    ensures StandsAt(s, part, 0) <==> part <= s
  {
  }

  ghost predicate Occurs(part: string, s: string) {
    exists i :: StandsAt(s, part, i)
  }

  lemma {:induction false} ContainsIff(s: string, part: string)
    ensures Contains(s, part) <==> Occurs(part, s)
  {
    StandsAtStart(s, part);
    if s != "" {
      ContainsIff(s[1..], part);
      forall i | 0 <= i
        ensures StandsAt(s[1..], part, i) <==> StandsAt(s, part, i + 1)
      {
        StandsAtLater(s, part, i);
      }
      if i :| StandsAt(s, part, i) {
        assert i == 0 || StandsAt(s[1..], part, i - 1);
      }
    }
  }

  // The arguments match the pattern as a glob, or contain it, less one star at its end, in any case.
  ghost predicate GlobOrText(casing: Casing, pattern: string, args: string) {
    var core := if pattern != "" && pattern[|pattern| - 1] == '*' then pattern[..|pattern| - 1] else pattern;
    Matches(pattern, args) || Occurs(casing.lower(core), casing.lower(args))
  }

  // A pattern that repeats the tool's name in front speaks about the arguments with its remainder.
  ghost predicate AcceptsArgs(casing: Casing, pattern: string, toolName: string, args: string) {
    var n := |toolName|;
    var repeats := n < |pattern| && pattern[..n] == toolName && pattern[n] == ' ' && !HasChar(toolName, ' ');
    var rest := if repeats then pattern[n + 1..] else pattern;
    rest == "" || rest == "*" || GlobOrText(casing, rest, args)
  }

  lemma PatternBehindName(pattern: string, toolName: string)
    ensures var n := |toolName|;
      var repeats := n < |pattern| && pattern[..n] == toolName && pattern[n] == ' ' && !HasChar(toolName, ' ');
      ArgsPattern(pattern, toolName) == if repeats then pattern[n + 1..] else pattern
  {
    var n, at := |toolName|, FirstSpace(pattern);
    if at < |pattern| && pattern[..at] == toolName {
      assert forall i :: 0 <= i < at ==> toolName[i] == pattern[i];
    }
    if n < |pattern| && pattern[..n] == toolName && pattern[n] == ' ' && !HasChar(toolName, ' ') {
      assert pattern == toolName + (" " + pattern[n + 1..]);
      FirstSpaceAfter(toolName, pattern[n + 1..]);
    }
  }

  lemma AcceptsArgsIff(casing: Casing, pattern: string, toolName: string, args: string)
    ensures ArgsPatternFits(casing, ArgsPattern(pattern, toolName), args)
       <==> AcceptsArgs(casing, pattern, toolName, args)
  {
    hide GlobOrText, Contains, FirstSpace, Matches;
    PatternBehindName(pattern, toolName);
    GlobOrTextIff(casing, ArgsPattern(pattern, toolName), args);
  }

  lemma GlobOrTextIff(casing: Casing, pattern: string, args: string)
    ensures GlobOrText(casing, pattern, args)
       <==> Matches(pattern, args) || Contains(casing.lower(args), casing.lower(WithoutLastStar(pattern)))
  {
    hide Contains, Occurs;
    forall s, part
      ensures Contains(s, part) <==> Occurs(part, s)
    {
      ContainsIff(s, part);
    }
  }

  // What a list of this rule alone answers.
  ghost predicate Answers(casing: Casing, r: Rule, toolName: string, args: string, yes: bool) {
    Decision(casing, [r], toolName, args) == if yes then r.level else ""
  }

  lemma AnswersIfApplies(casing: Casing, r: Rule, toolName: string, args: string)
    ensures Answers(casing, r, toolName, args, Applies(casing, r, toolName, args))
  {
    assert [r][1..] == [];
  }

  predicate IsGlob(s: string) {
    HasChar(s, '*') || HasChar(s, '?')
  }

  // A rule naming one tool is about that name, in any case, and about no other.
  lemma NamedRule(casing: Casing, r: Rule, toolName: string, args: string)
    requires r.tool != "" && !IsGlob(r.tool)
    ensures Answers(casing, r, toolName, args,
      casing.equalFold(r.tool, toolName) && (r.pattern == "" || AcceptsArgs(casing, r.pattern, toolName, args)))
  {
    StarIsWild();
    AnswersIfApplies(casing, r, toolName, args);
    AcceptsArgsIff(casing, r.pattern, toolName, args);
  }

  // A rule with a glob for its tool is about every name the glob matches; a lone star matches all.
  lemma GlobRule(casing: Casing, r: Rule, toolName: string, args: string)
    requires IsGlob(r.tool)
    ensures Answers(casing, r, toolName, args,
      Matches(r.tool, toolName) && (r.pattern == "" || AcceptsArgs(casing, r.pattern, toolName, args)))
  {
    StarMatchesAll(toolName);
    AnswersIfApplies(casing, r, toolName, args);
    AcceptsArgsIff(casing, r.pattern, toolName, args);
  }

  lemma StarMatchesAll(name: string)
    ensures Matches("*", name)
  {
    assert "*"[1..] == "" && Matches("", name[|name|..]);
  }

  // A rule with a pattern only: one word is a glob over tool names, and several are one tool's name
  // and what its arguments must look like.
  lemma PatternRule(casing: Casing, r: Rule, toolName: string, args: string)
    requires r.tool == "" && !HasChar(toolName, ' ')
    ensures var n := |toolName|;
      var named := n < |r.pattern| && r.pattern[..n] == toolName && r.pattern[n] == ' ';
      Answers(casing, r, toolName, args,
        r.pattern != ""
        && if HasChar(r.pattern, ' ') then named && AcceptsArgs(casing, r.pattern, toolName, args)
           else Matches(r.pattern, toolName))
  {
    NamedInFront(r.pattern, toolName);
    AnswersIfApplies(casing, r, toolName, args);
    AcceptsArgsIff(casing, r.pattern, toolName, args);
    hide HasPrefix, ArgsPattern, ArgsPatternFits, AcceptsArgs, Matches, Decision, HasChar;
    assert r.tool != "*";
  }

  lemma NamedInFront(pattern: string, toolName: string)
    ensures var n := |toolName|;
      HasPrefix(pattern, toolName + " ") <==> n < |pattern| && pattern[..n] == toolName && pattern[n] == ' '
  {
    var n := |toolName|;
    if n < |pattern| {
      assert pattern[..n + 1] == pattern[..n] + [pattern[n]];
      assert (toolName + " ")[..n] == toolName && (toolName + " ")[n] == ' ';
    }
  }

  // A list of rules answers what its first answering rule answers by itself.
  lemma FirstAnswerCounts(casing: Casing, rules: seq<Rule>, toolName: string, args: string)
    requires rules != [] && rules[0].level != ""
    ensures var first := Decision(casing, [rules[0]], toolName, args);
      Decision(casing, rules, toolName, args)
        == if first != "" then first else Decision(casing, rules[1..], toolName, args)
  {
    AnswersIfApplies(casing, rules[0], toolName, args);
  }

  // No rule about another tool ever decides.
  lemma {:induction false} OtherToolsDoNotDecide(casing: Casing, rules: seq<Rule>, toolName: string, args: string)
    requires forall i :: 0 <= i < |rules| ==>
      rules[i].tool != "" && !IsGlob(rules[i].tool) && !casing.equalFold(rules[i].tool, toolName)
    ensures Decision(casing, rules, toolName, args) == ""
    decreases |rules|
  {
    if rules != [] {
      StarIsWild();
      OtherToolsDoNotDecide(casing, rules[1..], toolName, args);
    }
  }
}
