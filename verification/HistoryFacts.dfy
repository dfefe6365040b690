// What replaying the conversation log guarantees.
module HistoryFacts {
  import opened Options
  import opened Messages
  import opened History

  // Every assistant message with N calls is followed at once by a run of tool messages, the
  // N-th match among which completes it.
  ghost predicate Covered(ms: seq<Message>)
    decreases |ms|
  {
    ms == [] || (RunFrom(ms).unanswered == 0 && Covered(ms[1 + RunFrom(ms).length..]))
  }

  // --- Covered, read position by position ---

  // How many tool messages of the run at the start answer one of the calls.
  ghost function MatchesBehind(calls: seq<ToolCall>, rest: seq<Message>): nat {
    if rest == [] || rest[0].role != Tool then 0 else
      (if MatchesSome(calls, rest[0].callId) then 1 else 0) + MatchesBehind(calls, rest[1..])
  }

  ghost predicate AnsweredAt(ms: seq<Message>, i: nat)
    requires i < |ms|
  {
    |ms[i].calls| <= MatchesBehind(ms[i].calls, ms[i + 1..])
  }

  lemma {:induction false} ReadAnswersCounts(calls: seq<ToolCall>, rest: seq<Message>, unanswered: nat)
    ensures var r := ReadAnswers(calls, rest, unanswered);
      && (r.unanswered == 0 <==> unanswered <= MatchesBehind(calls, rest))
      && forall k :: 0 <= k < r.length ==> rest[k].role == Tool
    decreases |rest|
  {
    if unanswered != 0 && rest != [] && rest[0].role == Tool {
      ReadAnswersCounts(calls, rest[1..], if MatchesSome(calls, rest[0].callId) then unanswered - 1 else unanswered);
    }
  }

  // The scan skips nothing but tool messages, which have no calls.
  lemma RunSkipsTools(ms: seq<Message>, i: nat)
    requires i < |ms| && HasCalls(ms[i])
    ensures i == 0 || 1 + RunFrom(ms).length <= i
    ensures i == 0 ==> (AnsweredAt(ms, 0) <==> RunFrom(ms).unanswered == 0)
  {
    if HasCalls(ms[0]) {
      ReadAnswersCounts(ms[0].calls, ms[1..], |ms[0].calls|);
      if 0 < i {
        assert ms[i] == ms[1..][i - 1];
      }
    }
  }

  lemma AnsweredInSuffix(ms: seq<Message>, n: nat, i: nat)
    requires n <= i < |ms|
    ensures AnsweredAt(ms[n..], i - n) <==> AnsweredAt(ms, i)
  {
    assert ms[n..][i - n..][1..] == ms[i..][1..];
    assert ms[n..][i - n + 1..] == ms[i + 1..];
  }

  lemma {:induction false} CoveredMeans(ms: seq<Message>, i: nat)
    requires Covered(ms) && i < |ms| && HasCalls(ms[i])
    ensures AnsweredAt(ms, i)
    decreases |ms|
  {
    RunSkipsTools(ms, i);
    if 0 < i {
      var n := 1 + RunFrom(ms).length;
      CoveredMeans(ms[n..], i - n);
      AnsweredInSuffix(ms, n, i);
    }
  }

  lemma {:induction false} CoveredWhen(ms: seq<Message>)
    requires forall i :: 0 <= i < |ms| && HasCalls(ms[i]) ==> AnsweredAt(ms, i)
    ensures Covered(ms)
    decreases |ms|
  {
    if ms != [] {
      if HasCalls(ms[0]) {
        RunSkipsTools(ms, 0);
      }
      var n := 1 + RunFrom(ms).length;
      forall j | 0 <= j < |ms[n..]| && HasCalls(ms[n..][j])
        ensures AnsweredAt(ms[n..], j)
      {
        assert ms[n..][j] == ms[n + j];
        AnsweredInSuffix(ms, n, n + j);
      }
      CoveredWhen(ms[n..]);
    }
  }

  // A conversation is covered when every assistant message with N calls has a run of tool
  // messages right behind it, at least N of which answer one of its calls.
  lemma CoveredIff(ms: seq<Message>)
    ensures Covered(ms) <==> forall i :: 0 <= i < |ms| && HasCalls(ms[i]) ==> AnsweredAt(ms, i)
  {
    if Covered(ms) {
      forall i | 0 <= i < |ms| && HasCalls(ms[i])
        ensures AnsweredAt(ms, i)
      {
        CoveredMeans(ms, i);
      }
    }
    if forall i :: 0 <= i < |ms| && HasCalls(ms[i]) ==> AnsweredAt(ms, i) {
      CoveredWhen(ms);
    }
  }

  // --- Trimming ---

  lemma {:induction false} ReadAnswersLocal(
    calls: seq<ToolCall>, rest: seq<Message>, more: seq<Message>, unanswered: nat)
    requires ReadAnswers(calls, rest, unanswered).unanswered == 0
    ensures ReadAnswers(calls, rest + more, unanswered) == ReadAnswers(calls, rest, unanswered)
    decreases |rest|
  {
    if unanswered != 0 && rest != [] && rest[0].role == Tool {
      assert (rest + more)[1..] == rest[1..] + more;
      ReadAnswersLocal(calls, rest[1..], more,
                       if MatchesSome(calls, rest[0].callId) then unanswered - 1 else unanswered);
    }
  }

  lemma {:induction false} ReadAnswersPrefix(calls: seq<ToolCall>, rest: seq<Message>, unanswered: nat)
    ensures var r := ReadAnswers(calls, rest, unanswered); ReadAnswers(calls, rest[..r.length], unanswered) == r
    decreases |rest|
  {
    var r := ReadAnswers(calls, rest, unanswered);
    if unanswered != 0 && rest != [] && rest[0].role == Tool {
      ReadAnswersPrefix(calls, rest[1..], if MatchesSome(calls, rest[0].callId) then unanswered - 1 else unanswered);
      assert rest[..r.length][1..] == rest[1..][..r.length - 1];
    }
  }

  lemma RunIsLocal(a: seq<Message>, b: seq<Message>)
    requires a != [] && RunFrom(a).unanswered == 0
    ensures RunFrom(a + b) == RunFrom(a)
  {
    assert (a + b)[1..] == a[1..] + b;
    if HasCalls(a[0]) {
      ReadAnswersLocal(a[0].calls, a[1..], b, |a[0].calls|);
    }
  }

  lemma {:induction false} CoveredConcat(a: seq<Message>, b: seq<Message>)
    requires Covered(a) && Covered(b)
    ensures Covered(a + b)
    decreases |a|
  {
    if a == [] {
      assert a + b == b;
    } else {
      var n := 1 + RunFrom(a).length;
      assert (a + b)[n..] == a[n..] + b;
      RunIsLocal(a, b);
      CoveredConcat(a[n..], b);
    }
  }

  lemma KeptChunkCovered(ms: seq<Message>)
    requires ms != [] && RunFrom(ms).unanswered == 0
    ensures Covered(ms[..1 + RunFrom(ms).length])
  {
    var n := 1 + RunFrom(ms).length;
    var chunk := ms[..n];
    if HasCalls(ms[0]) {
      ReadAnswersPrefix(ms[0].calls, ms[1..], |ms[0].calls|);
      assert chunk[1..] == ms[1..][..n - 1];
    }
    assert chunk[n..] == [];
  }

  lemma {:induction false} PrependCovered(chunk: seq<Message>, r: Stripped)
    requires Covered(chunk) && Covered(r.pre) && Covered(r.post)
    ensures Covered(chunk + r.pre) && Covered(chunk + r.post)
  {
    CoveredConcat(chunk, r.pre);
    CoveredConcat(chunk, r.post);
  }

  lemma {:induction false} StripsUnlessCovered(ms: seq<Message>)
    ensures StripIncomplete(ms).any <==> !Covered(ms)
    ensures !StripIncomplete(ms).any ==> StripIncomplete(ms) == Stripped([], ms, false)
    decreases |ms|
  {
    if ms != [] {
      var n := 1 + RunFrom(ms).length;
      StripsUnlessCovered(ms[n..]);
      if RunFrom(ms).unanswered == 0 {
        KeptChunk(ms, n);
        assert ms[..n] + ms[n..] == ms;
      }
    }
  }

  lemma {:induction false} StripKeepsCovered(ms: seq<Message>)
    ensures Covered(StripIncomplete(ms).pre) && Covered(StripIncomplete(ms).post)
    decreases |ms|
  {
    if ms != [] {
      var n := 1 + RunFrom(ms).length;
      StripKeepsCovered(ms[n..]);
      if RunFrom(ms).unanswered == 0 {
        KeptChunk(ms, n);
        KeptChunkCovered(ms);
        PrependCovered(ms[..n], StripIncomplete(ms[n..]));
      } else {
        StrippedChunk(ms, n);
      }
    }
  }

  // What remains behind the unanswered blocks at the very start.
  ghost function AfterLeadingDangling(ms: seq<Message>): seq<Message>
    decreases |ms|
  {
    if ms != [] && RunFrom(ms).unanswered != 0 then AfterLeadingDangling(ms[1 + RunFrom(ms).length..]) else ms
  }

  // Something precedes a stripped block exactly when stripping is still needed behind the start.
  lemma {:induction false} PrecededIff(ms: seq<Message>)
    ensures StripIncomplete(ms).pre != [] <==> !Covered(AfterLeadingDangling(ms))
    decreases |ms|
  {
    if ms != [] {
      var n := 1 + RunFrom(ms).length;
      if RunFrom(ms).unanswered == 0 {
        KeptChunk(ms, n);
        StripsUnlessCovered(ms);
        StripsUnlessCovered(ms[n..]);
      } else {
        StrippedChunk(ms, n);
        PrecededIff(ms[n..]);
      }
    }
  }

  lemma StripResultCoveredIff(ms: seq<Message>)
    ensures Covered(StripResult(ms)) <==> Covered(ms) || !Covered(AfterLeadingDangling(ms))
  {
    StripsUnlessCovered(ms);
    StripKeepsCovered(ms);
    PrecededIff(ms);
    var r := StripIncomplete(ms);
    if r.pre != [] {
      CoveredConcat(r.pre, r.post);
    }
  }

  lemma {:induction false} LeadingToolsDoNotCount(ms: seq<Message>)
    ensures Covered(WithoutLeadingTools(ms)) <==> Covered(ms)
  {
    if ms != [] && !HasCalls(ms[0]) {
      LeadingToolsDoNotCount(ms[1..]);
      var rest := WithoutLeadingTools(ms[1..]);
      assert ([ms[0]] + rest)[1..] == rest && [] + rest == rest;
    }
  }

  // A dangling block at the very start survives trimming.
  lemma LeadingDanglingBlockSurvives(m: Message)
    requires HasCalls(m)
    ensures Trimmed([m]) == [m] && !Covered(Trimmed([m]))
  {
    assert [m][1..] == [];
    assert ReadAnswers(m.calls, [], |m.calls|) == AnswerRun(0, |m.calls|);
    assert StripIncomplete([m]) == Stripped([], [], true);
  }

  lemma {:induction false} PlainHeadIsKept(ms: seq<Message>)
    requires ms != [] && Plain(ms[0])
    ensures WithoutLeadingTools(ms) != [] && WithoutLeadingTools(ms)[0] == ms[0]
    ensures var r := StripIncomplete(ms); r.any ==> r.pre != [] && r.pre[0] == ms[0]
  {
    KeptChunk(ms, 1);
  }

  lemma {:induction false} ReadAnswersStopsAtUser(calls: seq<ToolCall>, rest: seq<Message>, unanswered: nat)
    requires rest != [] && rest[|rest| - 1].role == User
    ensures ReadAnswers(calls, rest, unanswered) == ReadAnswers(calls, rest[..|rest| - 1], unanswered)
    decreases |rest|
  {
    if unanswered != 0 && rest[0].role == Tool {
      ReadAnswersStopsAtUser(calls, rest[1..],
                             if MatchesSome(calls, rest[0].callId) then unanswered - 1 else unanswered);
      assert rest[1..][..|rest[1..]| - 1] == rest[..|rest| - 1][1..];
    }
  }

  lemma RunEndsBeforeLastUser(ms: seq<Message>)
    requires |ms| > 1 && ms[|ms| - 1].role == User
    ensures RunFrom(ms[..|ms| - 1]) == RunFrom(ms) && 1 + RunFrom(ms).length < |ms|
  {
    var init := ms[..|ms| - 1];
    assert init[1..] == ms[1..][..|ms[1..]| - 1];
    if HasCalls(ms[0]) {
      ReadAnswersStopsAtUser(ms[0].calls, ms[1..], |ms[0].calls|);
    }
  }

  lemma {:induction false} CoveredWithoutLastUser(ms: seq<Message>)
    requires ms != [] && ms[|ms| - 1].role == User && Covered(ms)
    ensures Covered(ms[..|ms| - 1])
    decreases |ms|
  {
    if |ms| > 1 {
      var n, init := 1 + RunFrom(ms).length, ms[..|ms| - 1];
      RunEndsBeforeLastUser(ms);
      CoveredWithoutLastUser(ms[n..]);
      assert init[n..] == ms[n..][..|ms[n..]| - 1];
    }
  }

  lemma {:induction false} CoveredWithoutTrailingUsers(ms: seq<Message>)
    requires Covered(ms)
    ensures var r := WithoutTrailingUsers(ms);
            && Covered(r) && (r == [] || r[|r| - 1].role != User)
            && (ms != [] && ms[0].role != User ==> r != [])
    decreases |ms|
  {
    if ms != [] && ms[|ms| - 1].role == User {
      CoveredWithoutLastUser(ms);
      CoveredWithoutTrailingUsers(ms[..|ms| - 1]);
    }
  }

  lemma {:induction false} UserIsCovered(u: Message)
    requires u.role == User
    ensures Covered([u])
  {
    assert [u][1..] == [];
  }

  lemma {:induction false} LastUserDoesNotCount(init: seq<Message>, u: Message)
    requires u.role == User
    ensures Covered(init + [u]) <==> Covered(init)
  {
    if Covered(init + [u]) {
      CoveredWithoutLastUser(init + [u]);
      assert (init + [u])[..|init|] == init;
    }
    if Covered(init) {
      UserIsCovered(u);
      CoveredConcat(init, [u]);
    }
  }

  lemma {:induction false} TrailingUsersDoNotCount(ms: seq<Message>)
    ensures Covered(WithoutTrailingUsers(ms)) <==> Covered(ms)
  {
    if ms != [] && ms[|ms| - 1].role == User {
      var init, last := ms[..|ms| - 1], ms[|ms| - 1];
      TrailingUsersDoNotCount(init);
      LastUserDoesNotCount(init, last);
      assert init + [last] == ms;
    }
  }

  // Trimming delivers a covered conversation except when only blocks at the very start are
  // unanswered: with nothing kept before them, the list stays as it was.
  lemma TrimmedCoveredIff(ms: seq<Message>)
    ensures Covered(Trimmed(ms)) <==> Covered(ms) || !Covered(AfterLeadingDangling(WithoutLeadingTools(ms)))
  {
    LeadingToolsDoNotCount(ms);
    StripResultCoveredIff(WithoutLeadingTools(ms));
    TrailingUsersDoNotCount(StripResult(WithoutLeadingTools(ms)));
  }

  lemma {:induction false} StripBehindPlain(ms: seq<Message>)
    requires ms != [] && Plain(ms[0])
    ensures Covered(StripResult(ms)) && StripResult(ms) != [] && StripResult(ms)[0] == ms[0]
  {
    PlainHeadIsKept(ms);
    StripsUnlessCovered(ms);
    StripResultCoveredIff(ms);
    PrecededIff(ms);
  }

  lemma {:induction false} TrimmedBehindPlain(ms: seq<Message>)
    requires ms != [] && Plain(ms[0]) && ms[0].role != User
    ensures Covered(Trimmed(ms)) && Trimmed(ms) != [] && Trimmed(ms)[|Trimmed(ms)| - 1].role != User
  {
    PlainHeadIsKept(ms);
    StripBehindPlain(WithoutLeadingTools(ms));
    CoveredWithoutTrailingUsers(StripResult(WithoutLeadingTools(ms)));
  }

  lemma UntrimmedHead(log: seq<Entry>, at: int, sys: string)
    requires LastCheckpointIs(log, at)
    ensures var all := Untrimmed(log, at, sys); all != [] && all[0] == SystemMessage(sys)
  {
  }

  // For any log whatsoever, the replayed conversation is covered and does not end in a user
  // message, so no stale prompt is run again.
  lemma {:induction false} ReplayIsCovered(log: seq<Entry>, at: int, sys: string)
    requires LastCheckpointIs(log, at)
    ensures var ms := Loaded(log, at, sys).0;
            Covered(ms) && ms != [] && ms[|ms| - 1].role != User
  {
    UntrimmedHead(log, at, sys);
    TrimmedBehindPlain(Untrimmed(log, at, sys));
  }

  // --- Round trip ---

  // What survives persistence: native reasoning does not.
  function Stored(m: Message): Message {
    match m.role
    case System => SystemMessage(m.content)
    case User => UserMessage(m.content)
    case Assistant => Message(Assistant, m.content, m.calls, "", None)
    case Tool => ToolMessage(m.content, m.callId)
  }

  function StoredAll(ms: seq<Message>): (r: seq<Message>)
    ensures |r| == |ms| && forall i :: 0 <= i < |r| ==> r[i] == Stored(ms[i])
  {
    seq(|ms|, i requires 0 <= i < |ms| => Stored(ms[i]))
  }

  // The entry the matching append operation writes for m; user messages are never empty and
  // results always name their call.
  ghost predicate Mirrors(e: Entry, m: Message) {
    match m.role
    case System => false
    case User => m.content != "" && e == UserEntry(m.content)
    case Assistant => e == AssistantEntry(m.content, m.calls)
    case Tool => m.callId != "" && e == ToolEntry(m.callId, m.content)
  }

  ghost predicate MirrorsAll(entries: seq<Entry>, ms: seq<Message>) {
    |entries| == |ms| && forall i :: 0 <= i < |ms| ==> Mirrors(entries[i], ms[i])
  }

  lemma DecodedMirror(e: Entry, m: Message)
    requires Mirrors(e, m)
    ensures Decoded(e) == [Stored(m)] && e.kind != KindCheckpoint
  {
  }

  lemma StoredSnoc(ms: seq<Message>, m: Message)
    ensures StoredAll(ms + [m]) == StoredAll(ms) + [Stored(m)]
  {
  }

  lemma {:induction false} ReplaySnoc(entries: seq<Entry>, e: Entry)
    ensures Replay(entries + [e]) == Replay(entries) + Decoded(e)
  {
    assert (entries + [e])[..|entries|] == entries;
  }

  lemma {:induction false} ReplayMirrorsSnoc(entries: seq<Entry>, e: Entry, ms: seq<Message>, m: Message)
    requires Replay(entries) == StoredAll(ms) && Mirrors(e, m)
    ensures Replay(entries + [e]) == StoredAll(ms + [m])
  {
    ReplaySnoc(entries, e);
    DecodedMirror(e, m);
    StoredSnoc(ms, m);
  }

  lemma LastBehindInit<T>(s: seq<T>)
    requires s != []
    ensures s[..|s| - 1] + [s[|s| - 1]] == s
  {
  }

  lemma {:induction false} ReplayMirrors(entries: seq<Entry>, ms: seq<Message>)
    requires MirrorsAll(entries, ms)
    ensures Replay(entries) == StoredAll(ms)
    decreases |ms|
  {
    if ms != [] {
      var n := |ms| - 1;
      ReplayMirrors(entries[..n], ms[..n]);
      ReplayMirrorsSnoc(entries[..n], entries[n], ms[..n], ms[n]);
      LastBehindInit(entries);
      LastBehindInit(ms);
    }
  }

  lemma StoredKeepsPairing(ms: seq<Message>)
    requires WellPaired(ms)
    ensures WellPaired(StoredAll(ms))
  {
    assert SameShape(ms, StoredAll(ms));
    SameShapeKeepsPairing(ms, StoredAll(ms));
  }

  lemma BlockIsRead(ms: seq<Message>)
    requires ms != [] && HasCalls(ms[0]) && HeadBlock(ms)
    ensures RunFrom(ms) == AnswerRun(|ms[0].calls|, 0)
  {
    var n := |ms[0].calls|;
    assert ms[1..1 + n] + ms[1 + n..] == ms[1..] && ms[1..1 + n][0..] == ms[1..1 + n];
    ReadExactAnswers(ms[0].calls, ms[1..1 + n], ms[1 + n..], 0);
  }

  lemma {:induction false} WellPairedIsCovered(ms: seq<Message>)
    requires WellPaired(ms)
    ensures Covered(ms)
    decreases |ms|
  {
    if ms != [] {
      if HasCalls(ms[0]) {
        BlockIsRead(ms);
      }
      WellPairedIsCovered(ms[1 + RunFrom(ms).length..]);
    }
  }

  lemma {:induction false} NoLeadingTools(ms: seq<Message>)
    requires WellPaired(ms)
    ensures WithoutLeadingTools(ms) == ms
    decreases |ms|
  {
    if ms != [] && !HasCalls(ms[0]) {
      NoLeadingTools(ms[1..]);
      assert [ms[0]] + ms[1..] == ms;
    }
  }

  lemma {:induction false} ReadExactAnswers(calls: seq<ToolCall>, ts: seq<Message>, rest: seq<Message>, from: nat)
    requires Answers(calls, ts) && from <= |ts|
    ensures ReadAnswers(calls, ts[from..] + rest, |ts| - from) == AnswerRun(|ts| - from, 0)
    decreases |ts| - from
  {
    if from < |ts| {
      assert MatchesSome(calls, ts[from].callId);
      assert (ts[from..] + rest)[1..] == ts[from + 1..] + rest;
      ReadExactAnswers(calls, ts, rest, from + 1);
    }
  }

  lemma {:induction false} TrailingUsersBehind(head: seq<Message>, ms: seq<Message>)
    requires head != [] && head[|head| - 1].role != User
    ensures WithoutTrailingUsers(head + ms) == head + WithoutTrailingUsers(ms)
    decreases |ms|
  {
    if ms == [] {
      assert head + ms == head;
    } else if ms[|ms| - 1].role == User {
      assert (head + ms)[..|head + ms| - 1] == head + ms[..|ms| - 1];
      TrailingUsersBehind(head, ms[..|ms| - 1]);
    }
  }

  lemma TrimWellPaired(head: seq<Message>, ms: seq<Message>)
    requires head != [] && head[|head| - 1].role != User && WellPaired(head) && WellPaired(ms)
    ensures Trimmed(head + ms) == head + WithoutTrailingUsers(ms)
  {
    WellPairedConcat(head, ms);
    WellPairedIsCovered(head + ms);
    NoLeadingTools(head + ms);
    StripsUnlessCovered(head + ms);
    TrailingUsersBehind(head, ms);
  }

  lemma SystemHead(sys: string)
    ensures WellPaired([SystemMessage(sys)])
    ensures Preamble(sys, None) == [SystemMessage(sys)]
  {
    var head := [SystemMessage(sys)];
    assert head[1..] == [] && head + [] == head;
  }

  lemma NoCheckpointMirrored(log: seq<Entry>, ms: seq<Message>, at: int)
    requires MirrorsAll(log, ms) && LastCheckpointIs(log, at)
    ensures at == -1
  {
    if 0 <= at {
      DecodedMirror(log[at], ms[at]);
    }
  }

  // Replay inverts appending: a checkpoint-free log written from a well-paired conversation
  // that does not end in a user message comes back whole behind the system message.
  lemma ReplayInvertsAppending(log: seq<Entry>, ms: seq<Message>, at: int, sys: string)
    requires MirrorsAll(log, ms) && WellPaired(ms) && LastCheckpointIs(log, at)
    requires ms == [] || ms[|ms| - 1].role != User
    ensures Loaded(log, at, sys) == ([SystemMessage(sys)] + StoredAll(ms), |ms|)
  {
    NoCheckpointMirrored(log, ms, at);
    UntrimmedMirror(log, ms, sys);
    TrimmedMirror(sys, ms);
    LoadedUntouched(log, -1, sys, [SystemMessage(sys)] + StoredAll(ms));
  }

  lemma TrimmedMirror(sys: string, ms: seq<Message>)
    requires WellPaired(ms) && (ms == [] || ms[|ms| - 1].role != User)
    ensures Trimmed([SystemMessage(sys)] + StoredAll(ms)) == [SystemMessage(sys)] + StoredAll(ms)
  {
    SystemHead(sys);
    StoredKeepsPairing(ms);
    StoredKeepsEnd(ms);
    TrimWellPaired([SystemMessage(sys)], StoredAll(ms));
  }

  lemma {:induction false} StoredKeepsEnd(ms: seq<Message>)
    requires ms == [] || ms[|ms| - 1].role != User
    ensures WithoutTrailingUsers(StoredAll(ms)) == StoredAll(ms)
  {
  }

  lemma LoadedUntouched(log: seq<Entry>, at: int, sys: string, all: seq<Message>)
    requires -1 <= at < |log| && (0 <= at ==> ValidRuntimeCheckpoint(log[at], at))
    requires all == Untrimmed(log, at, sys) && Trimmed(all) == all
    ensures Loaded(log, at, sys) == (all, |all| - if at < 0 then 1 else 3)
  {
  }

  lemma UntrimmedMirror(log: seq<Entry>, ms: seq<Message>, sys: string)
    requires MirrorsAll(log, ms)
    ensures Untrimmed(log, -1, sys) == [SystemMessage(sys)] + StoredAll(ms)
  {
    ReplayMirrors(log, ms);
    SystemHead(sys);
  }
}
