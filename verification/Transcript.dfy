// What the stages of a run write into the conversation, message by message (internal/agent/runner_loop.go).
module Transcript {
  import opened Options
  import opened Messages
  import opened PairingFacts
  import opened Compaction
  import opened MicroCompaction
  import opened TurnBudget
  import opened AgentRun

  // --- One tool call ---

  // A call is executed unless its arguments were cut off, a lead has no plan yet, or the counters
  // before it are used up.
  predicate IsExecuted(env: Env, b: Budget, tc: ToolCall, play: ToolPlay) {
    var path := env.pathOf(tc.arguments);
    var explored := b.exploreSucceeded && env.role != "explore";
    && (tc.arguments == "" || tc.arguments[0] == '{') && !(env.role == "lead" && play.unplanned)
    && Get(b.callCounts, KeyOf(tc)) < 3
    && (tc.name == "explore" ==> b.delegations < 3)
    && (IsRead(tc) && env.role == "explore" && path != "" ==> Get(b.readCounts, path) < 2)
    && (IsRead(tc) && explored ==> b.readsAfter < 2)
    && !(tc.name == "bash" && explored && env.isRepoWalk(tc.arguments))
  }

  lemma ExecutedIffAdmitted(env: Env, b: Budget, tc: ToolCall, play: ToolPlay)
    ensures IsExecuted(env, b, tc, play) <==> !Refused(env, tc, play) && Admitted(env, b, tc)
  {
    hide KeyOf, Get;
  }

  // Why a call is not executed, read off its arguments, the role and the counters before it.
  function Reason(env: Env, b: Budget, tc: ToolCall, play: ToolPlay): Refusal {
    var path := env.pathOf(tc.arguments);
    if tc.arguments != "" && tc.arguments[0] != '{' then BadArguments
    else if env.role == "lead" && play.unplanned then NoPlan
    else if IsRead(tc) && env.role == "explore" && path != "" && Get(b.readCounts, path) >= 2 then Reread
    else if IsRead(tc) && env.role != "explore" && b.exploreSucceeded && b.readsAfter >= 2 then ReadBudget
    else if tc.name == "bash" && env.role != "explore" && b.exploreSucceeded && env.isRepoWalk(tc.arguments)
    then RepoWalk
    else if Get(b.callCounts, KeyOf(tc)) >= 3 then Repeated
    else DelegationBudget
  }

  // An executed call is answered by what the tool gave, any other by why it was not executed.
  function AnswerText(env: Env, b: Budget, tc: ToolCall, play: ToolPlay): string {
    if IsExecuted(env, b, tc, play) then play.output else env.refusal(Reason(env, b, tc, play), tc)
  }

  // The hooks' decision, once the call itself is counted as made.
  lemma HooksDecide(env: Env, b: Budget, tc: ToolCall, play: ToolPlay)
    requires !Refused(env, tc, play)
    ensures var decision, why := BeforeHooks(env, BumpedBudget(b, tc), tc).decision, Reason(env, b, tc, play);
      && (decision == Continue <==> Admitted(env, b, tc))
      && (decision != Continue ==>
            decision == if why == Repeated || why == DelegationBudget then Override(why) else DenyEarly(why))
  {
    hide Worded;
    var bumped := BumpedBudget(b, tc);
    assert Get(bumped.callCounts, KeyOf(tc)) == Get(b.callCounts, KeyOf(tc)) + 1;
    hide BumpedBudget, KeyOf;
  }

  // What the hooks count: a read of a path, and a delegation that comes that far.
  lemma HooksCount(env: Env, b: Budget, tc: ToolCall)
    ensures var b', path := BeforeHooks(env, b, tc).budget, env.pathOf(tc.arguments);
      && b' == b.(readCounts := b'.readCounts, delegations := b'.delegations)
      && b'.readCounts == (if IsRead(tc) && path != "" then b.readCounts[path := Get(b.readCounts, path) + 1]
                           else b.readCounts)
      && b'.delegations == b.delegations + (if tc.name == "explore" && Get(b.callCounts, KeyOf(tc)) <= 3 then 1 else 0)
  {
    hide KeyOf, Get;
  }

  lemma HooksNudge(env: Env, b: Budget, tc: ToolCall)
    ensures var path := env.pathOf(tc.arguments);
      var n := Get(b.readCounts, path) + 1;
      var again := IsRead(tc) && path != "" && n == if env.role == "explore" then 2 else 3;
      BeforeHooks(env, b, tc).nudges == if again then [RereadNudge(path, n)] else []
  {
    hide KeyOf, Get;
  }

  lemma CallAnswers(env: Env, t: Turn, tc: ToolCall, play: ToolPlay)
    ensures var r := Called(env, t, tc, play);
      && r.output == AnswerText(env, t.budget, tc, play)
      && r.turn.executed == t.executed + (if IsExecuted(env, t.budget, tc, play) then [Executed(tc, play.ok)] else [])
  {
    ExecutedIffAdmitted(env, t.budget, tc, play);
    hide BeforeHooks, BumpedBudget, Noted, Worded, Admitted, IsExecuted;
    if !Refused(env, tc, play) {
      HooksDecide(env, t.budget, tc, play);
    }
  }

  lemma CompressAsked(env: Env, t: Turn, tc: ToolCall, play: ToolPlay)
    ensures Called(env, t, tc, play).manualCompress ==> tc.name == "compress"
  {
    hide BeforeHooks, BumpedBudget, Noted, Worded;
  }

  // A call counts what its hooks count.
  lemma CalledCounts(env: Env, t: Turn, tc: ToolCall, play: ToolPlay)
    ensures var bumped, b' := BumpedBudget(t.budget, tc), Called(env, t, tc, play).turn.budget;
      var counted := if CutArguments(tc) then t.budget
                     else if Refused(env, tc, play) then bumped
                     else BeforeHooks(env, bumped, tc).budget;
      b' == counted.(exploreSucceeded := b'.exploreSucceeded, readsAfter := b'.readsAfter)
  {
    hide BeforeHooks, BumpedBudget, Worded, KeyOf, Noted;
    var hooked := BeforeHooks(env, BumpedBudget(t.budget, tc), tc).budget;
    NotedLeaves(env, hooked, tc, play.ok);
    NotedLeaves(env, hooked, tc, false);
  }

  lemma NotedLeaves(env: Env, b: Budget, tc: ToolCall, ok: bool)
    ensures var b' := Noted(env, b, tc, ok);
      b' == b.(exploreSucceeded := b'.exploreSucceeded, readsAfter := b'.readsAfter)
  {
  }

  // A call whose arguments are whole counts as made; a read counts towards its path, a delegation
  // towards the delegations, once the planning guard lets it come that far.
  lemma CallCounts(env: Env, t: Turn, tc: ToolCall, play: ToolPlay, key: string, path: string)
    ensures var b, b' := t.budget, Called(env, t, tc, play).turn.budget;
      && Get(b'.callCounts, key) == Get(b.callCounts, key) + (if !CutArguments(tc) && key == KeyOf(tc) then 1 else 0)
      && Get(b'.readCounts, path) == Get(b.readCounts, path)
           + (if !Refused(env, tc, play) && IsRead(tc) && path != "" && path == env.pathOf(tc.arguments) then 1 else 0)
      && b'.delegations == b.delegations
           + (if !Refused(env, tc, play) && tc.name == "explore" && Get(b.callCounts, KeyOf(tc)) < 3 then 1 else 0)
  {
    var bumped := BumpedBudget(t.budget, tc);
    HooksCount(env, bumped, tc);
    CalledCounts(env, t, tc, play);
    hide Called, BeforeHooks, KeyOf;
  }

  // Reads after a successful exploration are counted while there are fewer than two.
  lemma CallReads(env: Env, t: Turn, tc: ToolCall, play: ToolPlay)
    requires env.role != "explore"
    ensures var b := t.budget;
      Called(env, t, tc, play).turn.budget.readsAfter == b.readsAfter
        + (if !Refused(env, tc, play) && IsRead(tc) && b.exploreSucceeded && b.readsAfter < 2 then 1 else 0)
  {
    hide BeforeHooks, Worded, KeyOf;
    if !Refused(env, tc, play) {
      HooksDecide(env, t.budget, tc, play);
      HooksCount(env, BumpedBudget(t.budget, tc), tc);
    }
  }

  // A run has explored once an exploration succeeds, and a failure is a call whose arguments were
  // cut off, that was overridden, or that went wrong.
  lemma CallMarks(env: Env, t: Turn, tc: ToolCall, play: ToolPlay)
    ensures var b, t' := t.budget, Called(env, t, tc, play).turn;
      var executed, why := IsExecuted(env, b, tc, play), Reason(env, b, tc, play);
      && (t'.budget.exploreSucceeded <==> b.exploreSucceeded || (executed && tc.name == "explore" && play.ok))
      && t'.failures == t.failures
           + (if (if executed then !play.ok else why == BadArguments || why == Repeated || why == DelegationBudget)
              then 1 else 0)
  {
    ExecutedIffAdmitted(env, t.budget, tc, play);
    hide BeforeHooks, Worded, KeyOf, Admitted, IsExecuted;
    if !Refused(env, tc, play) {
      HooksDecide(env, t.budget, tc, play);
      HooksCount(env, BumpedBudget(t.budget, tc), tc);
    }
  }

  lemma WordedOne(env: Env, nudge: Nudge)
    ensures Worded(env, []) == [] && Worded(env, [nudge]) == [env.nudgeText(nudge)]
  {
    assert [nudge][..0] == [];
  }

  // The nudges a call raises: one for a path read too often, one after a successful exploration.
  function Raised(env: Env, b: Budget, tc: ToolCall, play: ToolPlay): seq<string> {
    var path := env.pathOf(tc.arguments);
    var n := Get(b.readCounts, path) + 1;
    var again := !Refused(env, tc, play) && IsRead(tc) && path != "" && n == if env.role == "explore" then 2 else 3;
    var explored := IsExecuted(env, b, tc, play) && tc.name == "explore" && play.ok;
    (if again then [env.nudgeText(RereadNudge(path, n))] else [])
    + (if explored then [env.nudgeText(PostExploreNudge)] else [])
  }

  lemma CallNudges(env: Env, t: Turn, tc: ToolCall, play: ToolPlay)
    ensures Called(env, t, tc, play).nudges == Raised(env, t.budget, tc, play)
  {
    ExecutedIffAdmitted(env, t.budget, tc, play);
    hide BeforeHooks, KeyOf, Admitted, Noted, Worded, IsExecuted;
    if !Refused(env, tc, play) {
      HooksDecide(env, t.budget, tc, play);
      HooksNudge(env, BumpedBudget(t.budget, tc), tc);
      var raised := BeforeHooks(env, BumpedBudget(t.budget, tc), tc).nudges;
      assert raised + [] == raised && (raised == [] ==> raised + [PostExploreNudge] == [PostExploreNudge]);
      WordedOne(env, PostExploreNudge);
      if raised != [] {
        WordedOne(env, raised[0]);
      }
    }
  }

  // What a call leaves counted, and that it is recorded as executed exactly when it was.
  ghost predicate Takes(env: Env, t: Turn, t': Turn, tc: ToolCall, play: ToolPlay) {
    var b, b', path := t.budget, t'.budget, env.pathOf(tc.arguments);
    var executed, why := IsExecuted(env, b, tc, play), Reason(env, b, tc, play);
    var guarded := CutArguments(tc) || (env.role == "lead" && play.unplanned);
    && t'.executed == t.executed + (if executed then [Executed(tc, play.ok)] else [])
    && t'.failures == t.failures
         + (if (if executed then !play.ok else why == BadArguments || why == Repeated || why == DelegationBudget)
            then 1 else 0)
    && (forall key :: Get(b'.callCounts, key)
          == Get(b.callCounts, key) + if !CutArguments(tc) && key == KeyOf(tc) then 1 else 0)
    && (forall p :: Get(b'.readCounts, p)
          == Get(b.readCounts, p) + if !guarded && IsRead(tc) && path != "" && p == path then 1 else 0)
    && b'.delegations == b.delegations
         + (if !guarded && tc.name == "explore" && Get(b.callCounts, KeyOf(tc)) < 3 then 1 else 0)
    && (b'.exploreSucceeded <==> b.exploreSucceeded || (executed && tc.name == "explore" && play.ok))
    && (env.role != "explore" ==>
          b'.readsAfter == b.readsAfter
            + if !guarded && IsRead(tc) && b.exploreSucceeded && b.readsAfter < 2 then 1 else 0)
  }

  lemma CallTakes(env: Env, t: Turn, tc: ToolCall, play: ToolPlay)
    ensures Takes(env, t, Called(env, t, tc, play).turn, tc, play)
  {
    hide Called, KeyOf, IsExecuted, Reason, Get;
    CallAnswers(env, t, tc, play);
    CallMarks(env, t, tc, play);
    if env.role != "explore" {
      CallReads(env, t, tc, play);
    }
    CallCounts(env, t, tc, play, "", "");
    forall key
      ensures Get(Called(env, t, tc, play).turn.budget.callCounts, key)
           == Get(t.budget.callCounts, key) + if !CutArguments(tc) && key == KeyOf(tc) then 1 else 0
    {
      CallCounts(env, t, tc, play, key, "");
    }
    forall p
      ensures Get(Called(env, t, tc, play).turn.budget.readCounts, p) == Get(t.budget.readCounts, p)
           + if !Refused(env, tc, play) && IsRead(tc) && p != "" && p == env.pathOf(tc.arguments) then 1 else 0
    {
      CallCounts(env, t, tc, play, "", p);
    }
  }

  // --- A batch ---

  lemma {:induction false} BatchPrefix(env: Env, t: Turn, calls: seq<ToolCall>, tools: int -> ToolPlay, k: nat)
    requires k < |calls|
    ensures BatchRun(env, t, calls, tools).answers[k] == BatchRun(env, t, calls[..k + 1], tools).answers[k]
  {
    hide Called;
    var n := |calls| - 1;
    if k < n {
      assert calls[..n][..k + 1] == calls[..k + 1];
      assert BatchRun(env, t, calls, tools).answers[k] == BatchRun(env, t, calls[..n], tools).answers[k];
      BatchPrefix(env, t, calls[..n], tools, k);
    } else {
      assert calls[..k + 1] == calls;
    }
  }

  // Call by call: answered under its own ID, by the tool's output if the counters before it admit it
  // and by the reason why not otherwise, recorded as executed in the one case only; its nudges join
  // the others, and it counts for the calls after it.
  lemma {:induction false} BatchAnswers(
    env: Env, t: Turn, calls: seq<ToolCall>, tools: int -> ToolPlay, k: nat)
    requires k < |calls|
    ensures var before, after := BatchRun(env, t, calls[..k], tools), BatchRun(env, t, calls[..k + 1], tools);
      && BatchRun(env, t, calls, tools).answers[k]
         == Message(Tool, AnswerText(env, before.turn.budget, calls[k], tools(k)), [], calls[k].id, None)
      && Takes(env, before.turn, after.turn, calls[k], tools(k))
      && after.nudges == before.nudges + Raised(env, before.turn.budget, calls[k], tools(k))
  {
    hide Called, AnswerText, Takes, Raised;
    BatchPrefix(env, t, calls, tools, k);
    var upto, before := calls[..k + 1], BatchRun(env, t, calls[..k], tools).turn;
    assert upto[..k] == calls[..k] && upto[k] == calls[k];
    CallAnswers(env, before, calls[k], tools(k));
    CallTakes(env, before, calls[k], tools(k));
    CallNudges(env, before, calls[k], tools(k));
  }

  // In the conversation the answers follow the reply, and only user messages follow the answers.
  lemma {:induction false} BatchArrives(env: Env, w: World, calls: seq<ToolCall>, tools: int -> ToolPlay, i: nat)
    requires i < |BatchOn(env, w, calls, tools).messages|
    ensures var ms, n := BatchOn(env, w, calls, tools).messages, |w.messages|;
      && n + |calls| <= |ms|
      && ms[i] == if i < n then w.messages[i]
                  else if i < n + |calls| then
                    var k := i - n;
                    var before := BatchRun(env, w.turn, calls[..k], tools).turn;
                    Message(Tool, AnswerText(env, before.budget, calls[k], tools(k)), [], calls[k].id, None)
                  else
                    Message(User, BatchRun(env, w.turn, calls, tools).nudges[i - n - |calls|], [], "", None)
  {
    hide Called, AnswerText, Takes, Raised;
    if |w.messages| <= i < |w.messages| + |calls| {
      BatchAnswers(env, w.turn, calls, tools, i - |w.messages|);
    }
  }

  // --- A whole round ---

  // The request that went on record last.
  ghost function LastRequest(log: RunLog): seq<Message> {
    if log.requests == [] then [] else log.requests[|log.requests| - 1]
  }

  // A model's reply as the conversation keeps it.
  function Said(r: ModelReply): Message
    requires r.Reply?
  {
    Message(Assistant, r.content, r.calls, "", r.reasoning)
  }

  // The round came to ask the model, and got a reply.
  ghost predicate GotReply(p: Profile, env: Env, w: World, play: Round) {
    var stop := RoundOn(p, env, w, play).1;
    play.reply.Reply? && !(stop.Some? && WrapUp(stop.value))
  }

  predicate OnlyPromptMoved(t: Turn, t': Turn) {
    t' == t.(promptUsed := t'.promptUsed, budgetWarned := t'.budgetWarned)
  }

  lemma PrepareAsksNothing(p: Profile, w: World, play: Round)
    ensures var r := PrepareOn(p, w, play);
      r.1.None? ==> r.0.log == w.log && OnlyPromptMoved(w.turn, r.0.turn)
  {
    hide Unconsumed, MicroCompacted, CompactOn, Finalized, RoundNudges;
  }

  lemma CallSends(p: Profile, w: World, play: Round)
    requires play.reply.Reply?
    ensures var r := CallOn(p, w, play);
      && (r.1.Some? ==> r.1.value == PromptBudget)
      && (r.1.None? ==>
            && |r.0.log.requests| == |w.log.requests| + 1 && OnlyPromptMoved(w.turn, r.0.turn)
            && r.0.messages == LastRequest(r.0.log) + [Said(play.reply)])
  {
    hide Request, Finalized;
  }

  // The world in which a reply is dealt with: the request that was sent, and the reply behind it.
  lemma {:induction false} ReplyBehindRequest(p: Profile, env: Env, w: World, play: Round) returns (asked: World)
    requires GotReply(p, env, w, play)
    ensures RoundOn(p, env, w, play) == ReplyOn(p, env, asked, play)
    ensures |asked.log.requests| == |w.log.requests| + 1 && OnlyPromptMoved(w.turn, asked.turn)
    ensures asked.messages == LastRequest(asked.log) + [Said(play.reply)]
  {
    hide ReplyOn, CallOn, PrepareOn;
    PrepareAsksNothing(p, w, play);
    PrepareWrapsUp(p, w, play);
    CallSends(p, PrepareOn(p, w, play).0, play);
    asked := CallOn(p, PrepareOn(p, w, play).0, play).0;
  }

  // A batch that did not ask for a compaction leaves the conversation as it stands.
  lemma BatchStands(p: Profile, env: Env, w: World, play: Round)
    requires play.reply.Reply? && !play.reply.truncated && play.reply.calls != []
    requires !BatchRun(env, w.turn, play.reply.calls, play.tools).manualCompress
    ensures var r := ReplyOn(p, env, w, play).0;
      && r.messages == BatchOn(env, w, play.reply.calls, play.tools).messages
      && r.log.requests == w.log.requests
  {
    hide BatchRun, CompactOn;
  }

  // From position n on stands, for each call, its result or why there is none, under the call's own
  // ID and in order; what comes before a call in its batch decides whether it is run.
  ghost predicate Delivered(
    env: Env, t: Turn, calls: seq<ToolCall>, tools: int -> ToolPlay, ms: seq<Message>, n: nat)
  {
    && n + |calls| <= |ms|
    && forall k :: 0 <= k < |calls| ==>
         var before := BatchRun(env, t, calls[..k], tools).turn.budget;
         ms[n + k] == Message(Tool, AnswerText(env, before, calls[k], tools(k)), [], calls[k].id, None)
  }

  lemma {:induction false} BatchDelivers(env: Env, w: World, calls: seq<ToolCall>, tools: int -> ToolPlay)
    ensures Delivered(env, w.turn, calls, tools, BatchOn(env, w, calls, tools).messages, |w.messages|)
  {
    BatchKept(env, w, calls, tools);
    var n := |w.messages|;
    hide BatchOn, BatchRun, AnswerText;
    forall k | 0 <= k < |calls|
      ensures BatchOn(env, w, calls, tools).messages[n + k]
        == Message(Tool, AnswerText(env, BatchRun(env, w.turn, calls[..k], tools).turn.budget, calls[k], tools(k)),
                   [], calls[k].id, None)
    {
      BatchArrives(env, w, calls, tools, n + k);
    }
  }

  lemma {:induction false} ReplyDelivers(p: Profile, env: Env, w: World, play: Round)
    requires play.reply.Reply? && !play.reply.truncated && play.reply.calls != []
    requires forall c :: c in play.reply.calls ==> c.name != "compress"
    ensures var r := ReplyOn(p, env, w, play).0;
      && r.log.requests == w.log.requests
      && |w.messages| <= |r.messages| && r.messages[..|w.messages|] == w.messages
      && Delivered(env, w.turn, play.reply.calls, play.tools, r.messages, |w.messages|)
  {
    var calls := play.reply.calls;
    hide ReplyOn, BatchOn, Called, AnswerText, Delivered;
    NothingToCompress(env, w.turn, calls, play.tools);
    BatchStands(p, env, w, play);
    BatchKept(env, w, calls, play.tools);
    BatchDelivers(env, w, calls, play.tools);
  }

  // Behind the request on record stands the model's reply as it came, then the answer to each call.
  lemma {:induction false} RoundDelivers(p: Profile, env: Env, w: World, play: Round) returns (turn: Turn)
    requires GotReply(p, env, w, play) && !play.reply.truncated && play.reply.calls != []
    requires forall c :: c in play.reply.calls ==> c.name != "compress"
    ensures OnlyPromptMoved(w.turn, turn)
    ensures var r := RoundOn(p, env, w, play).0;
      var asked := LastRequest(r.log) + [Said(play.reply)];
      && |r.log.requests| == |w.log.requests| + 1
      && |asked| <= |r.messages| && r.messages[..|asked|] == asked
      && Delivered(env, turn, play.reply.calls, play.tools, r.messages, |asked|)
  {
    assert play.reply.Reply?;
    hide RoundOn, GotReply, ReplyOn, Delivered;
    var asked := ReplyBehindRequest(p, env, w, play);
    turn := asked.turn;
    ReplyDelivers(p, env, asked, play);
  }

  lemma {:induction false} BatchKept(env: Env, w: World, calls: seq<ToolCall>, tools: int -> ToolPlay)
    ensures var ms := BatchOn(env, w, calls, tools).messages;
      && |w.messages| + |calls| <= |ms| && ms[..|w.messages|] == w.messages
  {
    hide Called;
  }

  lemma {:induction false} NothingToCompress(env: Env, t: Turn, calls: seq<ToolCall>, tools: int -> ToolPlay)
    requires forall c :: c in calls ==> c.name != "compress"
    ensures !BatchRun(env, t, calls, tools).manualCompress
  {
    if calls != [] {
      var init, last := calls[..|calls| - 1], calls[|calls| - 1];
      assert last in calls && forall c :: c in init ==> c in calls;
      hide Called;
      NothingToCompress(env, t, init, tools);
      CompressAsked(env, BatchRun(env, t, init, tools).turn, last, tools(|init|));
    }
  }

  // A reply cut off by the output limit: every call is answered by saying so, none is run, and the
  // model is told.
  lemma {:induction false} TruncatedRound(p: Profile, env: Env, w: World, play: Round, k: nat)
    requires GotReply(p, env, w, play) && play.reply.truncated && k < |play.reply.calls|
    ensures var r, calls := RoundOn(p, env, w, play), play.reply.calls;
      var ms, n := r.0.messages, |LastRequest(r.0.log)|;
      && r.1.None? && r.0.turn.executed == w.turn.executed && |ms| == n + 1 + |calls| + 1
      && ms[..n] == LastRequest(r.0.log) && ms[n] == Said(play.reply)
      && ms[n + 1 + k] == Message(Tool, p.phrases.cutOff(calls[k]), [], calls[k].id, None)
      && ms[n + 1 + |calls|] == Message(User, p.phrases.truncated, [], "", None)
  {
    hide RoundOn, GotReply, BatchRun;
    var asked := ReplyBehindRequest(p, env, w, play);
  }

  // A reply without calls: it is the answer, or the run goes on with a request to record lessons or
  // with the judge's feedback, and then only behind the reply.
  lemma {:induction false} PlainRound(p: Profile, env: Env, w: World, play: Round)
    requires GotReply(p, env, w, play) && !play.reply.truncated && play.reply.calls == []
    ensures var r, v, t := RoundOn(p, env, w, play), play.verdict, w.turn;
      var lesson := p.canMemory && t.rounds >= 3 && t.failures > 0 && !t.lessonWritten;
      var refused := !lesson && p.judgeEnabled && t.judgeRetryInjects < 2
        && v.Verdict? && (!v.approved || v.shouldRetry);
      var reply := LastRequest(r.0.log) + [Said(play.reply)];
      && r.1 == (if lesson || refused then None else Some(Answered))
      && r.0.messages ==
         if lesson then reply + [Message(User, p.phrases.lesson, [], "", None)]
         else if refused then
           reply + [Message(User, v.feedback, [], "", None)]
           + (if v.score <= 3 then [Message(User, p.phrases.judgeCritical, [], "", None)] else [])
         else reply
  {
    hide RoundOn, GotReply, BatchRun;
    var asked := ReplyBehindRequest(p, env, w, play);
  }

  // The conversation ends in one more request, saying why, and the reply or a note that there was
  // none.
  ghost predicate AskedOnceMore(p: Profile, log: RunLog, w: World, stop: Stop, last: ModelReply) {
    var request := LastRequest(w.log);
    && |w.log.requests| == |log.requests| + 1
    && EndsIn(request, Message(User, p.phrases.limit(stop), [], "", None))
    && w.messages == request + [if last.Reply? then Said(last)
                                else Message(Assistant, p.phrases.interrupted(stop), [], "", None)]
  }

  lemma FinalizedAsks(p: Profile, w: World, reason: Stop, reply: ModelReply)
    ensures AskedOnceMore(p, w.log, Finalized(p, w, reason, reply), reason, reply)
  {
  }

  lemma PrepareWrapsUp(p: Profile, w: World, play: Round)
    ensures var r := PrepareOn(p, w, play);
      r.1.Some? ==> WrapUp(r.1.value) && AskedOnceMore(p, w.log, r.0, r.1.value, play.finalReply)
  {
    hide Relieved, Unconsumed, Finalized, RoundNudges, AskedOnceMore;
    var w' := w.(messages := Unconsumed(w.messages));
    FinalizedAsks(p, w, SoftDeadline, play.finalReply);
    FinalizedAsks(p, w', MaxRounds, play.finalReply);
  }

  lemma CallWrapsUp(p: Profile, w: World, play: Round)
    ensures var r := CallOn(p, w, play);
      r.1.Some? && WrapUp(r.1.value) ==> AskedOnceMore(p, w.log, r.0, r.1.value, play.finalReply)
  {
    hide Request, Finalized, AskedOnceMore;
    var asked := AskedFor(p, w, play).0;
    FinalizedAsks(p, asked, PromptBudget, play.finalReply);
    assert asked.log.requests == w.log.requests;
    SameRequests(p, asked.log, w.log, Finalized(p, asked, PromptBudget, play.finalReply), PromptBudget,
      play.finalReply);
  }

  lemma SameRequests(p: Profile, log: RunLog, log': RunLog, w: World, stop: Stop, last: ModelReply)
    requires log.requests == log'.requests
    ensures AskedOnceMore(p, log, w, stop, last) <==> AskedOnceMore(p, log', w, stop, last)
  {
  }

  lemma ReplyNeverWrapsUp(p: Profile, env: Env, w: World, play: Round)
    requires play.reply.Reply?
    ensures var stop := ReplyOn(p, env, w, play).1; stop.Some? ==> !WrapUp(stop.value)
  {
    hide BatchOn, BatchRun, CompactOn;
  }

  // A run that is wrapped up asks once more, saying why, and ends in the reply or a note that there
  // was none.
  lemma {:induction false} WrapUpRound(p: Profile, env: Env, w: World, play: Round)
    requires var stop := RoundOn(p, env, w, play).1; stop.Some? && WrapUp(stop.value)
    ensures var r := RoundOn(p, env, w, play); AskedOnceMore(p, w.log, r.0, r.1.value, play.finalReply)
  {
    hide PrepareOn, CallOn, ReplyOn, AskedOnceMore;
    PrepareWrapsUp(p, w, play);
    PrepareAsksNothing(p, w, play);
    var prepared := PrepareOn(p, w, play);
    if prepared.1.None? {
      CallWrapsUp(p, prepared.0, play);
      var called := CallOn(p, prepared.0, play);
      if called.1.None? && play.reply.Reply? {
        ReplyNeverWrapsUp(p, env, called.0, play);
      }
    }
  }

  // --- What the model is asked ---

  // Dropping consumed nudges leaves everything but user messages where it is.
  predicate FromUser(m: Message) {
    m.role == User
  }

  lemma {:induction false} WithoutAfterWithout(ms: seq<Message>, few: Message -> bool, more: Message -> bool)
    requires forall m :: few(m) ==> more(m)
    ensures Without(Without(ms, few), more) == Without(ms, more)
  {
    if ms != [] {
      var init, last := ms[..|ms| - 1], ms[|ms| - 1];
      WithoutAfterWithout(init, few, more);
      WithoutConcat(Without(init, few), if few(last) then [] else [last], more);
    }
  }

  lemma {:induction false} OnlyUserMessagesAreConsumed(ms: seq<Message>)
    ensures Without(Unconsumed(ms), FromUser) == Without(ms, FromUser)
  {
    hide OpensNudge;
    var at := LastAssistant(ms);
    assert ms[..at] + ms[at..] == ms;
    WithoutAfterWithout(ms[..at], IsEphemeralNudge, FromUser);
    WithoutConcat(ms[..at], ms[at..], FromUser);
    WithoutConcat(Without(ms[..at], IsEphemeralNudge), ms[at..], FromUser);
  }

  // When the conversation is relieved, and how: summarised at every third round when asked for and
  // possible, old results cleared at every sixth when it has grown large.
  lemma ReliefMeans(p: Profile, w: World, play: Round)
    ensures var n, r := w.turn.rounds, Relieved(p, w, play);
      var summarises := w.saved.wired && n > 0 && n % 3 == 0 && play.compactWanted;
      var compacted := if summarises
                       then CompactOn(w.messages, w.saved, p.systemPrompt, play.transcript, play.summary)
                       else (w.messages, w.saved);
      && r.saved == compacted.1 && r.log == w.log
      && r.messages == (if n > 0 && n % 6 == 0 && play.aboveMicroThreshold
                        then MicroCompacted(compacted.0) else compacted.0)
      && r.turn == w.turn.(promptUsed :=
           w.turn.promptUsed + if summarises && p.role == "explore" then play.cachedTokens else 0)
  {
    hide CompactOn, MicroCompacted;
  }

  // Clearing is all or nothing: it happens when at least 4096 bytes are saved.
  lemma ClearingMeans(ms: seq<Message>, i: nat)
    requires i < |ms|
    ensures var out, cleared := MicroCompacted(ms), Rewritten(ViewOf(ms), |ToolIndices(ms)|);
      && |out| == |ms|
      && out[i] == (if TotalLength(ms) - TotalLength(cleared) >= 4096 && GivenUp(ms, i)
                    then Message(Tool, Note(ms, i), [], ms[i].callId, None) else ms[i])
  {
    hide Rewritten, WorthIt, GivenUp, ToolIndices, NameMap, TotalLength;
    ClearedIff(ms, i);
    UsedIffItSaves(ms, MICRO_COMPACT_MIN_CLEAR_BYTES);
  }

  function Warning(p: Profile, t: Turn): seq<Message> {
    if p.role == "explore" && t.promptUsed * 10 >= 560000 && !t.budgetWarned
    then [Message(User, p.phrases.budgetWarning, [], "", None)] else []
  }

  // The plan nudge of the first two rounds, then the reflections.
  function Prompted(t: Turn, play: Round): seq<Message> {
    (if t.rounds <= 1 && play.planNudge.Some? then [Message(User, play.planNudge.value, [], "", None)] else [])
    + UserMessages(play.reflections)
  }

  lemma QuietPreparation(p: Profile, w: World, play: Round)
    requires !play.compactWanted && !play.aboveMicroThreshold
    ensures var r := PrepareOn(p, w, play);
      r.1.None? ==> r.0 == w.(messages := Unconsumed(w.messages) + Prompted(w.turn, play))
  {
    hide Unconsumed, Finalized;
    assert UserMessages(RoundNudges(w, play)) == Prompted(w.turn, play);
  }

  lemma PairedIsSent(p: Profile, w: World, play: Round)
    requires play.reply.Reply? && WellPaired(w.messages)
    ensures var r := CallOn(p, w, play);
      r.1.None? ==> LastRequest(r.0.log) == w.messages + Warning(p, w.turn)
  {
    WellPairedRequest(w.messages);
    hide Request, WellPaired, Finalized;
  }

  lemma ReplyAsksNothing(p: Profile, env: Env, w: World, play: Round)
    requires play.reply.Reply?
    ensures ReplyOn(p, env, w, play).0.log.requests == w.log.requests
  {
    hide BatchRun, CompactOn, UserMessages, CutOffAnswers;
  }

  // While nothing is compacted or cleared, a well-paired conversation is sent without the nudges
  // already answered, followed by the plan nudge, the reflections and an explore run's one warning.
  lemma {:induction false} QuietRequest(p: Profile, env: Env, w: World, play: Round)
    requires GotReply(p, env, w, play) && WellPaired(w.messages)
    requires !play.compactWanted && !play.aboveMicroThreshold
    ensures LastRequest(RoundOn(p, env, w, play).0.log)
         == Unconsumed(w.messages) + Prompted(w.turn, play) + Warning(p, w.turn)
  {
    hide PrepareOn, CallOn, ReplyOn, WellPaired, Unconsumed, Prompted, Warning, LastRequest;
    QuietPreparation(p, w, play);
    UnconsumedKeepsPairing(w.messages);
    var asked := Unconsumed(w.messages) + Prompted(w.turn, play);
    QuietIsPaired(w, play);
    PrepareWrapsUp(p, w, play);
    var prepared := PrepareOn(p, w, play).0;
    CallSends(p, prepared, play);
    PairedIsSent(p, prepared, play);
    ReplyAsksNothing(p, env, CallOn(p, prepared, play).0, play);
    SameLastRequest(ReplyOn(p, env, CallOn(p, prepared, play).0, play).0.log, CallOn(p, prepared, play).0.log);
  }

  lemma QuietIsPaired(w: World, play: Round)
    requires WellPaired(w.messages)
    ensures WellPaired(Unconsumed(w.messages) + Prompted(w.turn, play))
  {
    UnconsumedKeepsPairing(w.messages);
    PlainIsWellPaired(Prompted(w.turn, play));
    WellPairedConcat(Unconsumed(w.messages), Prompted(w.turn, play));
  }

  lemma SameLastRequest(log: RunLog, log': RunLog)
    requires log.requests == log'.requests
    ensures LastRequest(log) == LastRequest(log')
  {
  }

  // --- The limits in numbers ---

  lemma SafeInNumbers(p: Profile, env: Env, executed: seq<Executed>, log: RunLog)
    requires SafeRun(p, env, executed, log)
    ensures forall i :: 0 <= i < |log.requests| ==> WellPaired(log.requests[i])
    ensures log.completedCalls <= (if p.maxRounds <= 0 then 100 else p.maxRounds) + 4 && log.batchesAfterLesson <= 3
    ensures forall key :: KeyCount(executed, key) <= 3
    ensures ExploreCount(executed) <= 3
    ensures if env.role == "explore" then forall path :: path != "" ==> PathCount(executed, path, env.pathOf) <= 2
            else ReadsAfterExplore(executed) <= 2
    ensures Sum(log.admitted) <= 80000 || Sum(log.admitted) <= FirstPositive(log.admitted)
  {
  }
}
