// What a replayed conversation opens with, and what trimming takes out of it (internal/history/history.go).
module HistoryLaws {
  import opened Options
  import opened Messages
  import opened PairingFacts
  import opened History
  import opened HistoryFacts

  // --- Trimming leaves what stands before the first cut ---

  // The list with its unanswered blocks taken out, wherever they stand.
  function WithoutUnanswered(ms: seq<Message>): seq<Message> {
    StripIncomplete(ms).pre + StripIncomplete(ms).post
  }

  // Answered blocks and plain messages stay.
  lemma {:induction false} AnsweredStays(a: seq<Message>, c: seq<Message>)
    requires Covered(a)
    ensures WithoutUnanswered(a + c) == a + WithoutUnanswered(c)
    ensures var r, rc := StripIncomplete(a + c), StripIncomplete(c);
      r.any == rc.any && (rc.any ==> r.pre == a + rc.pre)
    decreases |a|
  {
    if a == [] {
      assert a + c == c;
    } else {
      var n := 1 + RunFrom(a).length;
      RunIsLocal(a, c);
      assert (a + c)[n..] == a[n..] + c && (a + c)[..n] == a[..n] && a[..n] + a[n..] == a;
      KeptChunk(a + c, n);
      AnsweredStays(a[n..], c);
      StripsUnlessCovered(a[n..] + c);
      ChunkInFront(a[..n], a[n..], StripIncomplete(a[n..] + c), StripIncomplete(c));
    }
  }

  // A kept chunk x in front of what stripping leaves of y and more.
  lemma ChunkInFront(x: seq<Message>, y: seq<Message>, r: Stripped, rc: Stripped)
    requires r.pre + r.post == y + (rc.pre + rc.post) && r.any == rc.any
    requires if r.any then r.pre == y + rc.pre else r.pre == []
    ensures x + r.pre + r.post == (x + y) + (rc.pre + rc.post)
    ensures !r.any ==> [] + (x + r.post) == (x + y) + (rc.pre + rc.post)
    ensures r.any ==> x + r.pre == (x + y) + rc.pre
  {
    Joined(x, r.pre, r.post, []);
    Joined(x, y, rc.pre, rc.post);
    assert r.pre == [] ==> r.pre + r.post == r.post;
  }

  lemma Joined(a: seq<Message>, b: seq<Message>, c: seq<Message>, d: seq<Message>)
    ensures a + (b + c) == (a + b) + c
    ensures a + (b + (c + d)) == (a + b) + (c + d)
    ensures [] + a == a && a + [] == a
  {
  }

  // A message whose calls the tool messages behind it do not answer in full goes, and they with it.
  lemma {:induction false} UnansweredGoes(m: Message, ts: seq<Message>, c: seq<Message>)
    requires HasCalls(m) && forall k :: 0 <= k < |ts| ==> ts[k].role == Tool
    requires c == [] || c[0].role != Tool
    requires MatchesBehind(m.calls, ts) < |m.calls|
    ensures WithoutUnanswered([m] + ts + c) == WithoutUnanswered(c)
  {
    var ms := [m] + ts + c;
    assert ms[1..] == ts + c;
    ReadsOn(m.calls, ts, c, |m.calls|);
    assert ms[1 + |ts|..] == c;
    StrippedChunk(ms, 1 + |ts|);
  }

  lemma {:induction false} ReadsOn(calls: seq<ToolCall>, ts: seq<Message>, c: seq<Message>, unanswered: nat)
    requires forall k :: 0 <= k < |ts| ==> ts[k].role == Tool
    requires c == [] || c[0].role != Tool
    requires MatchesBehind(calls, ts) < unanswered
    ensures ReadAnswers(calls, ts + c, unanswered) == AnswerRun(|ts|, unanswered - MatchesBehind(calls, ts))
    decreases |ts|
  {
    if ts == [] {
      assert ts + c == c;
    } else {
      assert (ts + c)[1..] == ts[1..] + c;
      ReadsOn(calls, ts[1..], c, if MatchesSome(calls, ts[0].callId) then unanswered - 1 else unanswered);
    }
  }

  predicate InBlock(m: Message) {
    m.role == Tool || HasCalls(m)
  }

  // Whatever the damage, every message that is neither a call nor a result stays, in order.
  lemma {:induction false} PlainStays(ms: seq<Message>)
    ensures Without(WithoutUnanswered(ms), InBlock) == Without(ms, InBlock)
    decreases |ms|
  {
    if ms != [] {
      var n := 1 + RunFrom(ms).length;
      PlainStays(ms[n..]);
      assert ms[..n] + ms[n..] == ms;
      WithoutConcat(ms[..n], ms[n..], InBlock);
      if RunFrom(ms).unanswered == 0 {
        KeptChunkCovered(ms);
        AnsweredStays(ms[..n], ms[n..]);
        WithoutConcat(ms[..n], WithoutUnanswered(ms[n..]), InBlock);
      } else {
        StrippedChunk(ms, n);
        ReadAnswersCounts(ms[0].calls, ms[1..], |ms[0].calls|);
        forall i | 0 <= i < n
          ensures InBlock(ms[..n][i])
        {
          if 0 < i {
            assert ms[i] == ms[1..][i - 1];
          }
        }
        WithoutAll(ms[..n], InBlock);
      }
    }
  }

  predicate IsTool(m: Message) {
    m.role == Tool
  }

  // Ahead of the first calls every result goes, and nothing else.
  lemma {:induction false} StrayResultsGo(a: seq<Message>, c: seq<Message>)
    requires (forall i :: 0 <= i < |a| ==> !HasCalls(a[i])) && (c == [] || HasCalls(c[0]))
    ensures WithoutLeadingTools(a + c) == Without(a, IsTool) + c
    decreases |a|
  {
    if a == [] {
      assert a + c == c;
    } else {
      assert (a + c)[1..] == a[1..] + c && [a[0]] + a[1..] == a;
      StrayResultsGo(a[1..], c);
      WithoutConcat([a[0]], a[1..], IsTool);
      assert [a[0]][..0] == [];
      Joined(Without([a[0]], IsTool), Without(a[1..], IsTool), c, []);
    }
  }

  // At the end exactly the user messages nobody has answered go.
  lemma {:induction false} UnansweredPromptsGo(ms: seq<Message>)
    ensures var r := WithoutTrailingUsers(ms);
      && |r| <= |ms| && r == ms[..|r|] && (r != [] ==> r[|r| - 1].role != User)
      && forall i :: |r| <= i < |ms| ==> ms[i].role == User
  {
    if ms != [] && ms[|ms| - 1].role == User {
      UnansweredPromptsGo(ms[..|ms| - 1]);
      var r := WithoutTrailingUsers(ms);
      forall i | |r| <= i < |ms|
        ensures ms[i].role == User
      {
        if i < |ms| - 1 {
          assert ms[..|ms| - 1][i] == ms[i];
        }
      }
    }
  }

  // --- Behind a head of plain messages ---

  ghost predicate PlainHead(head: seq<Message>) {
    head != [] && (forall i :: 0 <= i < |head| ==> Plain(head[i])) && head[|head| - 1].role != User
  }

  lemma {:induction false} LeadingToolsBehind(head: seq<Message>, ms: seq<Message>)
    requires forall i :: 0 <= i < |head| ==> Plain(head[i])
    ensures WithoutLeadingTools(head + ms) == head + WithoutLeadingTools(ms)
    decreases |head|
  {
    if head == [] {
      assert head + ms == ms;
    } else {
      assert (head + ms)[1..] == head[1..] + ms && [head[0]] + head[1..] == head;
      LeadingToolsBehind(head[1..], ms);
      Joined([head[0]], head[1..], WithoutLeadingTools(ms), []);
    }
  }

  // Trimming behind a plain head: stray results before the first call go, then every block not
  // answered in full, then user messages at the end; the head stays.
  lemma {:induction false} TrimmedBehindHead(head: seq<Message>, ms: seq<Message>)
    requires PlainHead(head)
    ensures Trimmed(head + ms) == head + WithoutTrailingUsers(WithoutUnanswered(WithoutLeadingTools(ms)))
  {
    var rest := WithoutLeadingTools(ms);
    LeadingToolsBehind(head, ms);
    PlainIsWellPaired(head);
    WellPairedIsCovered(head);
    AnsweredStays(head, rest);
    StripsUnlessCovered(rest);
    StripsUnlessCovered(head + rest);
    assert StripResult(head + rest) == head + WithoutUnanswered(rest);
    TrailingUsersBehind(head, WithoutUnanswered(rest));
  }

  // --- The replayed conversation ---

  // The system message, and with a checkpoint its summary and an acknowledgement.
  function Opening(sys: string, log: seq<Entry>, at: int): seq<Message>
    requires -1 <= at < |log|
  {
    [Message(System, sys, [], "", None)]
    + if at < 0 then [] else
        [Message(User, "[Compressed history - restored from checkpoint]\n" + log[at].summary, [], "", None),
         Message(Assistant, "Understood. Continuing with summary context.", [], "", None)]
  }

  // The entries not covered by the checkpoint.
  function Uncovered(log: seq<Entry>, at: int): seq<Entry>
    requires -1 <= at < |log| && (0 <= at ==> ValidRuntimeCheckpoint(log[at], at))
  {
    if at < 0 then log else log[log[at].covers.value.to..]
  }

  // Every replay opens with the system message and the summary it goes on from, and reports as
  // restored exactly the messages behind them.
  lemma {:induction false} LoadedMeans(log: seq<Entry>, at: int, sys: string)
    requires LastCheckpointIs(log, at)
    ensures var head, r := Opening(sys, log, at), Loaded(log, at, sys);
      && r.0 == head + WithoutTrailingUsers(WithoutUnanswered(WithoutLeadingTools(Replay(Uncovered(log, at)))))
      && r.1 == |r.0| - |head|
  {
    hide Trimmed, Replay, WithoutUnanswered, WithoutTrailingUsers, WithoutLeadingTools;
    var head, ms := Opening(sys, log, at), Replay(Uncovered(log, at));
    UntrimmedParts(log, at, sys);
    assert Untrimmed(log, at, sys) == head + ms by {
      assert log[0..] == log;
    }
    TrimmedBehindHead(head, ms);
    NothingAdded(ms);
  }

  lemma {:induction false} NothingAdded(ms: seq<Message>)
    ensures |WithoutTrailingUsers(WithoutUnanswered(WithoutLeadingTools(ms)))| <= |ms|
  {
    FewerLeading(ms);
    FewerStripped(WithoutLeadingTools(ms));
    UnansweredPromptsGo(WithoutUnanswered(WithoutLeadingTools(ms)));
  }

  lemma {:induction false} FewerLeading(ms: seq<Message>)
    ensures |WithoutLeadingTools(ms)| <= |ms|
  {
    if ms != [] {
      FewerLeading(ms[1..]);
    }
  }

  lemma {:induction false} FewerStripped(ms: seq<Message>)
    ensures |WithoutUnanswered(ms)| <= |ms|
    decreases |ms|
  {
    if ms != [] {
      var n := 1 + RunFrom(ms).length;
      FewerStripped(ms[n..]);
      if RunFrom(ms).unanswered == 0 {
        KeptChunk(ms, n);
      } else {
        StrippedChunk(ms, n);
      }
    }
  }

  // What an entry adds to a replay.
  lemma {:induction false} EntryIsReplayed(entries: seq<Entry>, e: Entry)
    ensures Replay(entries + [e]) == Replay(entries) +
      if e.kind == KindUser && e.content != "" then [Message(User, e.content, [], "", None)]
      else if e.kind == KindAssistant then [Message(Assistant, e.content, e.calls, "", None)]
      else if e.kind == KindTool && e.callId != "" then [Message(Tool, e.content, [], e.callId, None)]
      else []
  {
    ReplaySnoc(entries, e);
  }
}
