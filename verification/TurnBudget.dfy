// Per-run counters and the before/after hooks around every tool call
// (internal/agent/turn_state.go, internal/agent/tool_interceptors.go).
module TurnBudget {
  import opened Messages

  const MAX_REPEATED_TOOL_CALLS := 3
  const MAX_EXPLORE_DELEGATIONS := 3
  const MAX_READS_AFTER_EXPLORE := 2
  const MAX_PATH_READS_IN_EXPLORE := 2

  // Why a call was not executed.
  datatype Refusal = BadArguments | NoPlan | Reread | ReadBudget | RepoWalk | Repeated | DelegationBudget

  datatype Nudge = RereadNudge(path: string, times: nat) | PostExploreNudge

  // The runner's role, what the hooks read out of raw arguments, and how messages are worded.
  datatype Env = Env(role: string, pathOf: string -> string, isRepoWalk: string -> bool,
                     refusal: (Refusal, ToolCall) -> string, nudgeText: Nudge -> string)

  // How the environment plays one call: refused by the planning guard, or its result if run.
  datatype ToolPlay = ToolPlay(unplanned: bool, ok: bool, output: string)

  // A tool call that was really executed, and whether it succeeded.
  datatype Executed = Executed(call: ToolCall, ok: bool)

  // Denied calls skip the after-hooks, overridden ones count as failed results.
  datatype Decision = Continue | DenyEarly(why: Refusal) | Override(why: Refusal)

  function KeyOf(tc: ToolCall): string {
    tc.name + "\0" + tc.arguments
  }

  predicate IsRead(tc: ToolCall) {
    tc.name == "read_file" || tc.name == "list_dir"
  }

  // --- Counting what was executed ---

  function KeyCount(log: seq<Executed>, key: string): nat {
    if log == [] then 0 else
      KeyCount(log[..|log| - 1], key) + (if KeyOf(log[|log| - 1].call) == key then 1 else 0)
  }

  function ExploreCount(log: seq<Executed>): nat {
    if log == [] then 0 else
      ExploreCount(log[..|log| - 1]) + (if log[|log| - 1].call.name == "explore" then 1 else 0)
  }

  predicate ExploreSucceeded(log: seq<Executed>) {
    exists i :: 0 <= i < |log| && log[i].call.name == "explore" && log[i].ok
  }

  function ReadsAfterExplore(log: seq<Executed>): nat {
    if log == [] then 0 else
      var init := log[..|log| - 1];
      ReadsAfterExplore(init) + (if IsRead(log[|log| - 1].call) && ExploreSucceeded(init) then 1 else 0)
  }

  function PathCount(log: seq<Executed>, path: string, pathOf: string -> string): nat {
    if log == [] then 0 else
      var tc := log[|log| - 1].call;
      PathCount(log[..|log| - 1], path, pathOf) + (if IsRead(tc) && pathOf(tc.arguments) == path then 1 else 0)
  }

  function Get(counts: map<string, nat>, key: string): nat {
    if key in counts then counts[key] else 0
  }

  function Least(a: nat, b: nat): nat {
    if a < b then a else b
  }

  // --- The run-wide limits, as facts about the calls that were executed ---

  ghost predicate RepeatsBounded(log: seq<Executed>) {
    forall key :: KeyCount(log, key) <= MAX_REPEATED_TOOL_CALLS
  }

  ghost predicate WithinLimits(env: Env, log: seq<Executed>) {
    && RepeatsBounded(log)
    && ExploreCount(log) <= MAX_EXPLORE_DELEGATIONS
    && (env.role != "explore" ==> ReadsAfterExplore(log) <= MAX_READS_AFTER_EXPLORE)
    && (env.role == "explore" ==> forall path :: path != "" ==>
      PathCount(log, path, env.pathOf) <= MAX_PATH_READS_IN_EXPLORE)
  }

  // The budget counters: explore delegation and reads, and identical calls.
  datatype Budget = Budget(
    exploreSucceeded: bool, delegations: nat, readsAfter: nat, readCounts: map<string, nat>, callCounts: map<string,
      nat>)

  const NO_BUDGET_USED := Budget(false, 0, 0, map[], map[])

  // The counters dominate what was executed, and execution stops at the limits.
  ghost predicate Counted(env: Env, b: Budget, log: seq<Executed>) {
    && (forall key :: KeyCount(log, key) <= Least(Get(b.callCounts, key), MAX_REPEATED_TOOL_CALLS))
    && ExploreCount(log) <= Least(b.delegations, MAX_EXPLORE_DELEGATIONS)
    && (b.exploreSucceeded <==> ExploreSucceeded(log))
    && (env.role != "explore" ==> ReadsAfterExplore(log) <= b.readsAfter <= MAX_READS_AFTER_EXPLORE)
    && (env.role == "explore" ==> forall path :: path != "" ==>
          PathCount(log, path, env.pathOf) <= Least(Get(b.readCounts, path), MAX_PATH_READS_IN_EXPLORE))
  }

  lemma CountedMeansWithinLimits(env: Env, b: Budget, log: seq<Executed>)
    requires Counted(env, b, log)
    ensures WithinLimits(env, log)
  {
  }

  // This call has been counted as made but not as executed.
  ghost predicate Bumped(b: Budget, log: seq<Executed>, tc: ToolCall) {
    KeyCount(log, KeyOf(tc)) < Get(b.callCounts, KeyOf(tc))
  }

  predicate MayReadMore(env: Env, b: Budget, tc: ToolCall) {
    IsRead(tc) && b.exploreSucceeded && env.role != "explore" ==> b.readsAfter < MAX_READS_AFTER_EXPLORE
  }

  // The counters leave room for executing this call.
  ghost predicate CanExecute(env: Env, b: Budget, log: seq<Executed>, tc: ToolCall) {
    && Bumped(b, log, tc) && Get(b.callCounts, KeyOf(tc)) <= MAX_REPEATED_TOOL_CALLS
    && (tc.name == "explore" ==> ExploreCount(log) < b.delegations <= MAX_EXPLORE_DELEGATIONS)
    && MayReadMore(env, b, tc)
    && (IsRead(tc) && env.role == "explore" && env.pathOf(tc.arguments) != "" ==>
          PathCount(log, env.pathOf(tc.arguments), env.pathOf) < Get(b.readCounts,
            env.pathOf(tc.arguments)) <= MAX_PATH_READS_IN_EXPLORE)
  }

  // Whether the hooks let a call through, read off the counters before it is counted.
  predicate Admitted(env: Env, b: Budget, tc: ToolCall) {
    && Get(b.callCounts, KeyOf(tc)) < MAX_REPEATED_TOOL_CALLS
    && (tc.name == "explore" ==> b.delegations < MAX_EXPLORE_DELEGATIONS)
    && (IsRead(tc) && env.role == "explore" && env.pathOf(tc.arguments) != "" ==>
          Get(b.readCounts, env.pathOf(tc.arguments)) < MAX_PATH_READS_IN_EXPLORE)
    && MayReadMore(env, b, tc)
    && !(tc.name == "bash" && b.exploreSucceeded && env.role != "explore" && env.isRepoWalk(tc.arguments))
  }

  // The same, read after the identical-call count has been bumped.
  predicate AdmittedOnceCounted(env: Env, b: Budget, tc: ToolCall) {
    && Get(b.callCounts, KeyOf(tc)) <= MAX_REPEATED_TOOL_CALLS
    && Admitted(env, b.(callCounts := map[]), tc)
  }

  predicate Refused(env: Env, tc: ToolCall, play: ToolPlay) {
    CutArguments(tc) || (env.role == "lead" && play.unplanned)
  }

  predicate CutArguments(tc: ToolCall) {
    tc.arguments != "" && tc.arguments[0] != '{'
  }

  function BumpedBudget(b: Budget, tc: ToolCall): Budget {
    b.(callCounts := b.callCounts[KeyOf(tc) := Get(b.callCounts, KeyOf(tc)) + 1])
  }

  // --- The hooks ---

  datatype Hooked = Hooked(budget: Budget, decision: Decision, nudges: seq<Nudge>)

  function ReadConvergence(env: Env, b: Budget, tc: ToolCall): Hooked {
    var path := env.pathOf(tc.arguments);
    if !IsRead(tc) || path == "" then Hooked(b, Continue, [])
    else
      var n := Get(b.readCounts, path) + 1;
      var nudges := if n == (if env.role == "explore" then 2 else 3) then [RereadNudge(path, n)] else [];
      Hooked(b.(readCounts := b.readCounts[path := n]),
             if env.role == "explore" && n >= 3 then DenyEarly(Reread) else Continue, nudges)
  }

  function PostExplore(env: Env, b: Budget, tc: ToolCall): Decision {
    if !b.exploreSucceeded || env.role == "explore" then Continue
    else if IsRead(tc) then if b.readsAfter >= MAX_READS_AFTER_EXPLORE then DenyEarly(ReadBudget) else Continue
    else if tc.name == "bash" && env.isRepoWalk(tc.arguments) then DenyEarly(RepoWalk)
    else Continue
  }

  function RepeatGuard(b: Budget, tc: ToolCall): Decision {
    if Get(b.callCounts, KeyOf(tc)) > MAX_REPEATED_TOOL_CALLS then Override(Repeated) else Continue
  }

  function Delegation(b: Budget, tc: ToolCall): Hooked {
    if tc.name != "explore" then Hooked(b, Continue, [])
    else Hooked(b.(delegations := b.delegations + 1),
                if b.delegations + 1 > MAX_EXPLORE_DELEGATIONS then Override(DelegationBudget) else Continue, [])
  }

  // The before-hooks in order; the first decision other than Continue wins.
  function BeforeHooks(env: Env, b: Budget, tc: ToolCall): Hooked {
    var read := ReadConvergence(env, b, tc);
    if read.decision != Continue then read
    else if PostExplore(env, read.budget, tc) != Continue then read.(decision := PostExplore(env, read.budget, tc))
    else if RepeatGuard(read.budget, tc) != Continue then read.(decision := RepeatGuard(read.budget, tc))
    else Delegation(read.budget, tc).(nudges := read.nudges)
  }

  // What the after-hooks do to the counters.
  function Noted(env: Env, b: Budget, tc: ToolCall, ok: bool): Budget {
    var b' := if tc.name == "explore" && ok then b.(exploreSucceeded := true) else b;
    if IsRead(tc) && b'.exploreSucceeded && env.role != "explore" then b'.(readsAfter := b'.readsAfter + 1) else b'
  }

  function AfterNudges(tc: ToolCall, ok: bool): seq<Nudge> {
    if tc.name == "explore" && ok then [PostExploreNudge] else []
  }

  // --- A call ---

  // The counters of one run.
  datatype Turn = Turn(
    rounds: nat, failures: nat, budget: Budget, judgeRetryInjects: nat, lessonWritten: bool, lessonRoundsRemaining: int,
    promptUsed: nat, budgetWarned: bool, executed: seq<Executed>)

  const NEW_TURN := Turn(0, 0, NO_BUDGET_USED, 0, false, 0, 0, false, [])

  datatype CallResult = CallResult(turn: Turn, output: string, nudges: seq<string>, manualCompress: bool)

  function Worded(env: Env, nudges: seq<Nudge>): seq<string> {
    if nudges == [] then [] else Worded(env, nudges[..|nudges| - 1]) + [env.nudgeText(nudges[|nudges| - 1])]
  }

  // A result, real or made up, on its way through the after-hooks.
  function Settled(env: Env, t: Turn, tc: ToolCall, ok: bool, output: string, nudges: seq<Nudge>): CallResult {
    CallResult(t.(failures := t.failures + if ok then 0 else 1, budget := Noted(env, t.budget, tc, ok)),
               output, Worded(env, nudges + AfterNudges(tc, ok)), tc.name == "compress")
  }

  // A counted call through the hooks, executed only if every one lets it through.
  function HookedCall(env: Env, t: Turn, tc: ToolCall, play: ToolPlay): CallResult {
    var h := BeforeHooks(env, t.budget, tc);
    var t' := t.(budget := h.budget);
    match h.decision
    case DenyEarly(why) => CallResult(t', env.refusal(why, tc), Worded(env, h.nudges), false)
    case Override(why) => Settled(env, t', tc, false, env.refusal(why, tc), h.nudges)
    case Continue => Settled(env, t'.(executed := t.executed + [Executed(tc, play.ok)]), tc, play.ok, play.output,
      h.nudges)
  }

  function Called(env: Env, t: Turn, tc: ToolCall, play: ToolPlay): CallResult {
    if CutArguments(tc) then CallResult(t.(failures := t.failures + 1), env.refusal(BadArguments, tc), [], false)
    else
      var t' := t.(budget := BumpedBudget(t.budget, tc));
      if env.role == "lead" && play.unplanned then CallResult(t', env.refusal(NoPlan, tc), [], false)
      else HookedCall(env, t', tc, play)
  }

  // What one more executed call does to every count.
  lemma CountExecuted(env: Env, before: seq<Executed>, x: Executed)
    ensures var log := before + [x];
      && (forall key :: KeyCount(log, key) == KeyCount(before, key) + if KeyOf(x.call) == key then 1 else 0)
      && ExploreCount(log) == ExploreCount(before) + (if x.call.name == "explore" then 1 else 0)
      && (ExploreSucceeded(log) <==> ExploreSucceeded(before) || (x.call.name == "explore" && x.ok))
      && ReadsAfterExplore(log)
        == ReadsAfterExplore(before) + (if IsRead(x.call) && ExploreSucceeded(before) then 1 else 0)
      && forall path :: PathCount(log, path, env.pathOf)
           == PathCount(before, path, env.pathOf) + if IsRead(x.call) && env.pathOf(x.call.arguments) == path then 1
             else 0
  {
    var log := before + [x];
    assert log[..|log| - 1] == before && log[|log| - 1] == x;
    if ExploreSucceeded(before) {
      var i :| 0 <= i < |before| && before[i].call.name == "explore" && before[i].ok;
      assert log[i] == before[i];
    }
  }

  lemma ExecutedKeepsCounts(env: Env, b: Budget, log: seq<Executed>, tc: ToolCall, ok: bool)
    requires Counted(env, b, log) && CanExecute(env, b, log, tc)
    ensures Counted(env, Noted(env, b, tc, ok), log + [Executed(tc, ok)])
  {
    CountExecuted(env, log, Executed(tc, ok));
  }

  lemma OverriddenKeepsCounts(env: Env, b: Budget, log: seq<Executed>, tc: ToolCall)
    requires Counted(env, b, log) && MayReadMore(env, b, tc)
    ensures Counted(env, Noted(env, b, tc, false), log)
  {
  }

  lemma BumpKeepsCounts(env: Env, b: Budget, log: seq<Executed>, tc: ToolCall)
    requires Counted(env, b, log)
    ensures Counted(env, BumpedBudget(b, tc), log) && Bumped(BumpedBudget(b, tc), log, tc)
    ensures AdmittedOnceCounted(env, BumpedBudget(b, tc), tc) <==> Admitted(env, b, tc)
  {
  }

  lemma ReadConvergenceKeepsCounts(env: Env, b: Budget, log: seq<Executed>, tc: ToolCall)
    requires Counted(env, b, log)
    ensures var path, r := env.pathOf(tc.arguments), ReadConvergence(env, b, tc);
      && Counted(env, r.budget, log)
      && (IsRead(tc) && env.role == "explore" && path != "" && r.decision == Continue ==>
            PathCount(log, path, env.pathOf) < Get(r.budget.readCounts, path) <= MAX_PATH_READS_IN_EXPLORE)
  {
  }

  // Room for one more read of this call's path.
  predicate MayReread(env: Env, b: Budget, tc: ToolCall) {
    IsRead(tc) && env.role == "explore" && env.pathOf(tc.arguments) != "" ==>
      Get(b.readCounts, env.pathOf(tc.arguments)) < MAX_PATH_READS_IN_EXPLORE
  }

  predicate WalksRepo(env: Env, b: Budget, tc: ToolCall) {
    tc.name == "bash" && b.exploreSucceeded && env.role != "explore" && env.isRepoWalk(tc.arguments)
  }

  // What each hook lets through, and what it leaves alone.
  lemma ReadConvergenceAdmits(env: Env, b: Budget, tc: ToolCall)
    ensures var r := ReadConvergence(env, b, tc);
      && (r.decision == Continue <==> MayReread(env, b, tc))
      && !r.decision.Override?
      && r.budget == b.(readCounts := r.budget.readCounts)
  {
  }

  lemma PostExploreAdmits(env: Env, b: Budget, tc: ToolCall)
    ensures PostExplore(env, b, tc) == Continue <==> MayReadMore(env, b, tc) && !WalksRepo(env, b, tc)
    ensures !PostExplore(env, b, tc).Override?
  {
  }

  lemma DelegationAdmits(env: Env, b: Budget, log: seq<Executed>, tc: ToolCall)
    requires Counted(env, b, log)
    ensures var h := Delegation(b, tc);
      && (h.decision == Continue <==> (tc.name == "explore" ==> b.delegations < MAX_EXPLORE_DELEGATIONS))
      && h.budget == b.(delegations := h.budget.delegations)
      && Counted(env, h.budget, log)
      && (tc.name == "explore" && h.decision == Continue ==>
            ExploreCount(log) < h.budget.delegations <= MAX_EXPLORE_DELEGATIONS)
  {
  }

  lemma AdmittedParts(env: Env, b: Budget, tc: ToolCall)
    ensures AdmittedOnceCounted(env, b, tc) <==>
      && MayReread(env, b, tc) && MayReadMore(env, b, tc) && !WalksRepo(env, b, tc)
      && Get(b.callCounts, KeyOf(tc)) <= MAX_REPEATED_TOOL_CALLS
      && (tc.name == "explore" ==> b.delegations < MAX_EXPLORE_DELEGATIONS)
  {
  }

  // What the before-hooks guarantee: they admit exactly the calls the counters leave room for.
  lemma HooksAdmit(env: Env, b: Budget, log: seq<Executed>, tc: ToolCall)
    requires Counted(env, b, log) && Bumped(b, log, tc)
    ensures var h := BeforeHooks(env, b, tc);
      && (h.decision == Continue <==> AdmittedOnceCounted(env, b, tc))
      && Counted(env, h.budget, log)
      && (h.decision == Continue ==> CanExecute(env, h.budget, log, tc))
      && (h.decision.Override? ==> MayReadMore(env, h.budget, tc))
  {
    hide Counted, ReadConvergence, PostExplore, Delegation, AdmittedOnceCounted, Get, KeyOf, IsRead;
    var read := ReadConvergence(env, b, tc).budget;
    AdmittedParts(env, b, tc);
    ReadConvergenceAdmits(env, b, tc);
    ReadConvergenceKeepsCounts(env, b, log, tc);
    PostExploreAdmits(env, read, tc);
    DelegationAdmits(env, read, log, tc);
  }

  lemma HookedCallKeepsCounts(env: Env, t: Turn, tc: ToolCall, play: ToolPlay)
    requires Counted(env, t.budget, t.executed) && Bumped(t.budget, t.executed, tc)
    ensures var t' := HookedCall(env, t, tc, play).turn;
      && Counted(env, t'.budget, t'.executed)
      && t'.executed == t.executed + if AdmittedOnceCounted(env, t.budget, tc) then [Executed(tc, play.ok)] else []
  {
    hide BeforeHooks, Counted, CanExecute, AdmittedOnceCounted, Noted, Worded;
    HooksAdmit(env, t.budget, t.executed, tc);
    var h := BeforeHooks(env, t.budget, tc);
    match h.decision {
      case DenyEarly(_) =>
      case Override(_) => OverriddenKeepsCounts(env, h.budget, t.executed, tc);
      case Continue => ExecutedKeepsCounts(env, h.budget, t.executed, tc, play.ok);
    }
  }

  // A call is executed exactly when its arguments are whole, the planning guard does not apply
  // and the counters admit it; either way the counters go on bounding what was executed.
  lemma CallKeepsCounts(env: Env, t: Turn, tc: ToolCall, play: ToolPlay)
    requires Counted(env, t.budget, t.executed)
    ensures var t' := Called(env, t, tc, play).turn;
      && Counted(env, t'.budget, t'.executed)
      && t'.executed == t.executed + if !Refused(env, tc, play)
        && Admitted(env, t.budget, tc) then [Executed(tc, play.ok)] else []
  {
    BumpKeepsCounts(env, t.budget, t.executed, tc);
    if !Refused(env, tc, play) {
      HookedCallKeepsCounts(env, t.(budget := BumpedBudget(t.budget, tc)), tc, play);
    }
  }

  lemma CallTouchesToolCounters(env: Env, t: Turn, tc: ToolCall, play: ToolPlay)
    ensures var t' := Called(env, t, tc, play).turn;
      t' == t.(failures := t'.failures, budget := t'.budget, executed := t'.executed)
  {
  }

  // --- The turn state ---

  class TurnState {
    var rounds: nat
    var failures: nat
    var budget: Budget
    var judgeRetryInjects: nat
    var lessonWritten: bool
    var lessonRoundsRemaining: int
    var promptUsed: nat
    var budgetWarned: bool
    // Every call handed to the executor, in order.
    var executed: seq<Executed>

    function View(): Turn
      reads this
    {
      Turn(rounds, failures, budget, judgeRetryInjects, lessonWritten, lessonRoundsRemaining, promptUsed,
        budgetWarned, executed)
    }

    constructor ()
      ensures View() == NEW_TURN
    {
      rounds, failures, budget := 0, 0, NO_BUDGET_USED;
      judgeRetryInjects, lessonWritten, lessonRoundsRemaining := 0, false, 0;
      promptUsed, budgetWarned := 0, false;
      executed := [];
    }

    method Before(env: Env, tc: ToolCall) returns (decision: Decision, nudges: seq<Nudge>)
      modifies this`budget
      ensures Hooked(budget, decision, nudges) == BeforeHooks(env, old(budget), tc)
    {
      nudges := [];
      if IsRead(tc) {
        var path := env.pathOf(tc.arguments);
        if path != "" {
          var n := Get(budget.readCounts, path) + 1;
          budget := budget.(readCounts := budget.readCounts[path := n]);
          if env.role == "explore" {
            if n == 2 {
              nudges := nudges + [RereadNudge(path, n)];
            }
            if n >= 3 {
              return DenyEarly(Reread), nudges;
            }
          } else if n == 3 {
            nudges := nudges + [RereadNudge(path, n)];
          }
        }
      }
      if budget.exploreSucceeded && env.role != "explore" {
        if IsRead(tc) {
          if budget.readsAfter >= MAX_READS_AFTER_EXPLORE {
            return DenyEarly(ReadBudget), nudges;
          }
        } else if tc.name == "bash" && env.isRepoWalk(tc.arguments) {
          return DenyEarly(RepoWalk), nudges;
        }
      }
      if Get(budget.callCounts, KeyOf(tc)) > MAX_REPEATED_TOOL_CALLS {
        return Override(Repeated), nudges;
      }
      if tc.name == "explore" {
        budget := budget.(delegations := budget.delegations + 1);
        if budget.delegations > MAX_EXPLORE_DELEGATIONS {
          return Override(DelegationBudget), nudges;
        }
      }
      decision := Continue;
    }

    // The after-hooks that move counters or flags.
    method After(env: Env, tc: ToolCall, ok: bool) returns (nudges: seq<Nudge>, manualCompress: bool)
      modifies this`budget
      ensures budget == Noted(env, old(budget), tc, ok)
      ensures nudges == AfterNudges(tc, ok) && (manualCompress <==> tc.name == "compress")
    {
      nudges, manualCompress := [], false;
      if tc.name == "explore" {
        if ok {
          budget := budget.(exploreSucceeded := true);
          nudges := [PostExploreNudge];
        }
      } else if tc.name == "compress" {
        manualCompress := true;
      }
      if IsRead(tc) {
        if budget.exploreSucceeded && env.role != "explore" {
          budget := budget.(readsAfter := budget.readsAfter + 1);
        }
      }
    }

    method RunHooked(
      env: Env, tc: ToolCall, play: ToolPlay)
      returns (output: string, nudges: seq<Nudge>, manualCompress: bool)
      modifies this`failures, this`budget, this`executed
      ensures CallResult(View(), output, Worded(env, nudges), manualCompress) == HookedCall(env, old(View()), tc, play)
    {
      hide BeforeHooks, Noted, AfterNudges, Worded;
      var decision;
      decision, nudges := Before(env, tc);
      var ok := play.ok;
      match decision {
        case DenyEarly(why) =>
          return env.refusal(why, tc), nudges, false;
        case Override(why) =>
          ok, output := false, env.refusal(why, tc);
        case Continue =>
          output := play.output;
          executed := executed + [Executed(tc, ok)];
      }
      if !ok {
        failures := failures + 1;
      }
      var more;
      more, manualCompress := After(env, tc, ok);
      nudges := nudges + more;
    }

    // One call of a batch.
    method RunCall(
      env: Env, tc: ToolCall, play: ToolPlay)
      returns (output: string, nudges: seq<Nudge>, manualCompress: bool)
      modifies this`failures, this`budget, this`executed
      ensures CallResult(View(), output, Worded(env, nudges), manualCompress) == Called(env, old(View()), tc, play)
    {
      hide HookedCall, KeyOf;
      if tc.arguments != "" && tc.arguments[0] != '{' {
        failures := failures + 1;
        return env.refusal(BadArguments, tc), [], false;
      }
      budget := budget.(callCounts := budget.callCounts[KeyOf(tc) := Get(budget.callCounts, KeyOf(tc)) + 1]);
      if env.role == "lead" && play.unplanned {
        return env.refusal(NoPlan, tc), [], false;
      }
      output, nudges, manualCompress := RunHooked(env, tc, play);
    }
  }
}
