// The append-only conversation log and its replay (internal/history/history.go).
module History {
  import opened Options
  import opened Text
  import opened Messages

  datatype Kind = KindSystem | KindUser | KindAssistant | KindTool | KindCheckpoint

  // `covers` is one-based and inclusive.
  datatype Coverage = Coverage(from: int, to: int)

  datatype Entry =
    Entry(kind: Kind, content: string, calls: seq<ToolCall>, callId: string, summary: string, covers: Option<Coverage>)

  function SystemEntry(content: string): Entry {
    Entry(KindSystem, content, [], "", "", None)
  }

  function UserEntry(content: string): Entry {
    Entry(KindUser, content, [], "", "", None)
  }

  function AssistantEntry(content: string, calls: seq<ToolCall>): Entry {
    Entry(KindAssistant, content, calls, "", "", None)
  }

  function ToolEntry(callId: string, content: string): Entry {
    Entry(KindTool, content, [], callId, "", None)
  }

  function CheckpointEntry(summary: string, coveredTo: int): Entry {
    Entry(KindCheckpoint, "", [], "", summary, Some(Coverage(1, coveredTo)))
  }

  predicate ValidRuntimeCheckpoint(e: Entry, index: int) {
    e.kind == KindCheckpoint && e.covers.Some? && TrimSpace(e.summary) != ""
    && e.covers.value.from == 1 && 1 <= e.covers.value.to <= index
  }

  // The message an entry is replayed as, if any.
  function Decoded(e: Entry): seq<Message> {
    match e.kind
    case KindUser => if e.content != "" then [UserMessage(e.content)] else []
    case KindAssistant => [Message(Assistant, e.content, e.calls, "", None)]
    case KindTool => if e.callId != "" then [ToolMessage(e.content, e.callId)] else []
    case _ => []
  }

  function Replay(entries: seq<Entry>): seq<Message> {
    if entries == [] then [] else Replay(entries[..|entries| - 1]) + Decoded(entries[|entries| - 1])
  }

  const RESTORED_PREFIX := "[Compressed history - restored from checkpoint]\n"
  const RESTORED_ACK := "Understood. Continuing with summary context."

  function Preamble(sys: string, checkpoint: Option<Entry>): seq<Message> {
    [SystemMessage(sys)] + match checkpoint
      case None => []
      case Some(cp) => [UserMessage(RESTORED_PREFIX + cp.summary), AssistantMessage(RESTORED_ACK)]
  }

  // --- Trimming ---

  // Tool messages ahead of the first assistant message with calls are dropped.
  function WithoutLeadingTools(ms: seq<Message>): seq<Message> {
    if ms == [] || HasCalls(ms[0]) then ms
    else (if ms[0].role == Tool then [] else [ms[0]]) + WithoutLeadingTools(ms[1..])
  }

  predicate MatchesSome(calls: seq<ToolCall>, id: string) {
    exists k :: 0 <= k < |calls| && calls[k].id == id
  }

  // The tool messages read after an assistant message, and how many answers are still missing.
  datatype AnswerRun = AnswerRun(length: nat, unanswered: nat)

  function ReadAnswers(calls: seq<ToolCall>, rest: seq<Message>, unanswered: nat): (r: AnswerRun)
    ensures r.length <= |rest|
    decreases |rest|
  {
    if rest == [] || rest[0].role != Tool || unanswered == 0 then AnswerRun(0, unanswered)
    else
      var r := ReadAnswers(calls, rest[1..], if MatchesSome(calls, rest[0].callId) then unanswered - 1 else unanswered);
      AnswerRun(1 + r.length, r.unanswered)
  }

  // How far one assistant message and its answers reach.
  function RunFrom(ms: seq<Message>): AnswerRun
    requires ms != []
  {
    if HasCalls(ms[0]) then ReadAnswers(ms[0].calls, ms[1..], |ms[0].calls|) else AnswerRun(0, 0)
  }

  // Everything kept before the last stripped block, everything after it, and whether any
  // block was stripped.
  datatype Stripped = Stripped(pre: seq<Message>, post: seq<Message>, any: bool)

  function StripIncomplete(ms: seq<Message>): Stripped
    decreases |ms|
  {
    if ms == [] then Stripped([], [], false)
    else
      var run := RunFrom(ms);
      var n := 1 + run.length;
      var r := StripIncomplete(ms[n..]);
      if run.unanswered != 0 then Stripped(r.pre, r.post, true)
      else if r.any then Stripped(ms[..n] + r.pre, r.post, true)
      else Stripped([], ms[..n] + r.post, false)
  }

  // The rebuilt list replaces the old one only when something precedes a stripped block.
  function StripResult(ms: seq<Message>): seq<Message> {
    var r := StripIncomplete(ms);
    if r.pre != [] then r.pre + r.post else ms
  }

  function WithoutTrailingUsers(ms: seq<Message>): seq<Message> {
    if ms != [] && ms[|ms| - 1].role == User then WithoutTrailingUsers(ms[..|ms| - 1]) else ms
  }

  function Trimmed(ms: seq<Message>): seq<Message> {
    WithoutTrailingUsers(StripResult(WithoutLeadingTools(ms)))
  }

  ghost predicate LastCheckpointIs(log: seq<Entry>, at: int) {
    -1 <= at < |log|
    && (0 <= at ==> ValidRuntimeCheckpoint(log[at], at))
    && forall i :: at < i < |log| ==> !ValidRuntimeCheckpoint(log[i], i)
  }

  // What replay builds before trimming, given the last valid checkpoint.
  function Untrimmed(log: seq<Entry>, at: int, sys: string): seq<Message>
    requires -1 <= at < |log| && (0 <= at ==> ValidRuntimeCheckpoint(log[at], at))
  {
    if at < 0 then Preamble(sys, None) + Replay(log)
    else Preamble(sys, Some(log[at])) + Replay(log[log[at].covers.value.to..])
  }

  // --- The loops ---

  lemma Regroup(out: seq<Message>, a: seq<Message>, b: seq<Message>, rest: seq<Message>)
    ensures out + a + (b + rest) == out + (a + b) + rest
    ensures a + (b + rest) == (a + b) + rest
  {
  }

  // The list cleaned so far, completed by what the rest contributes.
  ghost predicate Cleaning(msgs: seq<Message>, i: nat, cleaned: seq<Message>, hasToolCalls: bool)
    requires i <= |msgs|
  {
    cleaned + (if hasToolCalls then msgs[i..] else WithoutLeadingTools(msgs[i..])) == WithoutLeadingTools(msgs)
  }

  lemma CleaningStep(msgs: seq<Message>, i: nat, cleaned: seq<Message>, hasToolCalls: bool)
    requires i < |msgs| && Cleaning(msgs, i, cleaned, hasToolCalls)
    ensures var has := hasToolCalls || HasCalls(msgs[i]);
            Cleaning(msgs, i + 1, if msgs[i].role == Tool && !has then cleaned else cleaned + [msgs[i]], has)
  {
    var m, rest := msgs[i], msgs[i + 1..];
    var todo := msgs[i..];
    assert todo == [m] + rest && todo[1..] == rest;
    if hasToolCalls || HasCalls(m) {
      Regroup(cleaned, [], [m], rest);
      assert cleaned + [] == cleaned && [] + [m] == [m];
    } else {
      var kept := WithoutLeadingTools(rest);
      assert [] + kept == kept;
      Regroup(cleaned, [], [m], kept);
      assert cleaned + [] == cleaned && [] + [m] == [m];
    }
  }

  method DropLeadingTools(msgs: seq<Message>) returns (cleaned: seq<Message>)
    ensures cleaned == WithoutLeadingTools(msgs)
  {
    cleaned := [];
    var hasToolCalls := false;
    assert msgs[0..] == msgs;
    for i := 0 to |msgs|
      invariant Cleaning(msgs, i, cleaned, hasToolCalls)
    {
      CleaningStep(msgs, i, cleaned, hasToolCalls);
      var m := msgs[i];
      if HasCalls(m) {
        hasToolCalls := true;
      }
      if m.role == Tool && !hasToolCalls {
        continue;
      }
      cleaned := cleaned + [m];
    }
    assert cleaned + [] == cleaned;
  }

  method AnswersAfter(calls: seq<ToolCall>, cleaned: seq<Message>, start: nat) returns (j: nat, unanswered: nat)
    requires start <= |cleaned|
    ensures var r := ReadAnswers(calls, cleaned[start..], |calls|); j == start + r.length && unanswered == r.unanswered
    ensures start <= j <= |cleaned|
  {
    j, unanswered := start, |calls|;
    while j < |cleaned| && cleaned[j].role == Tool && unanswered > 0
      invariant start <= j <= |cleaned|
      invariant var r, todo := ReadAnswers(calls, cleaned[start..], |calls|),
        ReadAnswers(calls, cleaned[j..], unanswered);
                j + todo.length == start + r.length && todo.unanswered == r.unanswered
      decreases |cleaned| - j
    {
      assert cleaned[j..][1..] == cleaned[j + 1..];
      var matched := false;
      for k := 0 to |calls|
        invariant !matched && forall i :: 0 <= i < k ==> calls[i].id != cleaned[j].callId
      {
        if calls[k].id == cleaned[j].callId {
          matched := true;
          break;
        }
      }
      if matched {
        unanswered := unanswered - 1;
      }
      j := j + 1;
    }
  }

  // What has been copied out, where copying resumes and where scanning stands.
  ghost predicate Scan(cleaned: seq<Message>, out: seq<Message>, flushed: nat, i: nat)
    requires flushed <= i <= |cleaned|
  {
    var all, todo := StripIncomplete(cleaned), StripIncomplete(cleaned[i..]);
    && (all.any ==> if todo.any then all.pre == out + cleaned[flushed..i] + todo.pre && all.post == todo.post
                    else all.pre == out && all.post == cleaned[flushed..i] + todo.post)
    && (!all.any ==> out == [] && flushed == 0 && !todo.any)
  }

  lemma Slices(ms: seq<Message>, f: nat, i: nat, j: nat)
    requires f <= i <= j <= |ms|
    ensures ms[i..][j - i..] == ms[j..]
    ensures ms[i..][..j - i] == ms[i..j]
    ensures ms[f..i] + ms[i..j] == ms[f..j]
  {
  }

  lemma {:induction false} KeptChunk(ms: seq<Message>, n: nat)
    requires ms != [] && n == 1 + RunFrom(ms).length && RunFrom(ms).unanswered == 0
    ensures n <= |ms|
    ensures var r := StripIncomplete(ms[n..]);
      StripIncomplete(ms) == if r.any then Stripped(ms[..n] + r.pre, r.post, true)
        else Stripped([], ms[..n] + r.post, false)
  {
  }

  lemma {:induction false} StrippedChunk(ms: seq<Message>, n: nat)
    requires ms != [] && n == 1 + RunFrom(ms).length && RunFrom(ms).unanswered != 0
    ensures n <= |ms|
    ensures var r := StripIncomplete(ms[n..]); StripIncomplete(ms) == Stripped(r.pre, r.post, true)
  {
  }

  lemma ScanStart(cleaned: seq<Message>)
    ensures Scan(cleaned, [], 0, 0)
  {
    var all := StripIncomplete(cleaned);
    assert cleaned[0..] == cleaned && cleaned[0..0] == [];
    assert [] + [] + all.pre == all.pre && [] + all.post == all.post;
  }

  lemma ScanKeep(cleaned: seq<Message>, out: seq<Message>, flushed: nat, i: nat, j: nat)
    requires flushed <= i < j <= |cleaned| && Scan(cleaned, out, flushed, i)
    requires var run := RunFrom(cleaned[i..]); j == i + 1 + run.length && run.unanswered == 0
    ensures Scan(cleaned, out, flushed, j)
  {
    var todo := StripIncomplete(cleaned[j..]);
    KeptChunk(cleaned[i..], j - i);
    Slices(cleaned, flushed, i, j);
    Regroup(out, cleaned[flushed..i], cleaned[i..j], todo.pre);
    Regroup(out, cleaned[flushed..i], cleaned[i..j], todo.post);
  }

  lemma ScanStrip(cleaned: seq<Message>, out: seq<Message>, flushed: nat, i: nat, j: nat)
    requires flushed <= i < j <= |cleaned| && Scan(cleaned, out, flushed, i)
    requires var run := RunFrom(cleaned[i..]); j == i + 1 + run.length && run.unanswered != 0
    ensures Scan(cleaned, out + cleaned[flushed..i], j, j)
  {
    var todo := StripIncomplete(cleaned[j..]);
    StrippedChunk(cleaned[i..], j - i);
    Slices(cleaned, flushed, i, j);
    assert cleaned[j..j] == [] && [] + todo.post == todo.post;
    assert out + cleaned[flushed..i] + [] == out + cleaned[flushed..i];
  }

  lemma ScanEnd(cleaned: seq<Message>, out: seq<Message>, flushed: nat)
    requires flushed <= |cleaned| && Scan(cleaned, out, flushed, |cleaned|)
    ensures StripResult(cleaned) == if out != [] then out + cleaned[flushed..] else cleaned
  {
    assert cleaned[|cleaned|..] == [] && cleaned[flushed..|cleaned|] == cleaned[flushed..];
    assert cleaned[flushed..] + [] == cleaned[flushed..];
  }

  lemma PlainReach(cleaned: seq<Message>, i: nat)
    requires i < |cleaned| && !HasCalls(cleaned[i])
    ensures RunFrom(cleaned[i..]) == AnswerRun(0, 0)
  {
  }

  lemma CallReach(cleaned: seq<Message>, i: nat)
    requires i < |cleaned| && HasCalls(cleaned[i])
    ensures RunFrom(cleaned[i..]) == ReadAnswers(cleaned[i].calls, cleaned[i + 1..], |cleaned[i].calls|)
  {
    assert cleaned[i..][1..] == cleaned[i + 1..];
  }

  method StripLoop(cleaned: seq<Message>) returns (res: seq<Message>)
    ensures res == StripResult(cleaned)
  {
    hide Scan, StripIncomplete;
    var out: seq<Message> := [];
    var flushed, i := 0, 0;
    ScanStart(cleaned);
    while i < |cleaned|
      invariant 0 <= flushed <= i <= |cleaned|
      invariant Scan(cleaned, out, flushed, i)
    {
      var m := cleaned[i];
      if !HasCalls(m) {
        PlainReach(cleaned, i);
        ScanKeep(cleaned, out, flushed, i, i + 1);
        i := i + 1;
        continue;
      }
      CallReach(cleaned, i);
      var j, unanswered := AnswersAfter(m.calls, cleaned, i + 1);
      if unanswered == 0 {
        ScanKeep(cleaned, out, flushed, i, j);
        i := j;
        continue;
      }
      ScanStrip(cleaned, out, flushed, i, j);
      out := out + cleaned[flushed..i];
      i := j;
      flushed := j;
    }
    ScanEnd(cleaned, out, flushed);
    if out != [] {
      res := out + cleaned[flushed..];
    } else {
      res := cleaned;
    }
  }

  method TrimDanglingToolCalls(msgs: seq<Message>) returns (cleaned: seq<Message>)
    ensures cleaned == Trimmed(msgs)
  {
    cleaned := DropLeadingTools(msgs);
    cleaned := StripLoop(cleaned);
    while |cleaned| > 0 && cleaned[|cleaned| - 1].role == User
      invariant WithoutTrailingUsers(cleaned) == Trimmed(msgs)
    {
      cleaned := cleaned[..|cleaned| - 1];
    }
  }

  method FindLastCheckpoint(log: seq<Entry>) returns (at: int)
    ensures LastCheckpointIs(log, at)
  {
    var i := |log| - 1;
    while i >= 0
      invariant -1 <= i < |log|
      invariant forall k :: i < k < |log| ==> !ValidRuntimeCheckpoint(log[k], k)
    {
      if ValidRuntimeCheckpoint(log[i], i) {
        return i;
      }
      i := i - 1;
    }
    at := -1;
  }

  method ReplayEntries(entries: seq<Entry>) returns (msgs: seq<Message>)
    ensures msgs == Replay(entries)
  {
    msgs := [];
    for k := 0 to |entries|
      invariant msgs == Replay(entries[..k])
    {
      assert entries[..k + 1][..k] == entries[..k];
      var e := entries[k];
      match e.kind {
        case KindUser =>
          if e.content != "" {
            msgs := msgs + [UserMessage(e.content)];
          }
        case KindAssistant =>
          msgs := msgs + [Message(Assistant, e.content, e.calls, "", None)];
        case KindTool =>
          if e.callId != "" {
            msgs := msgs + [ToolMessage(e.content, e.callId)];
          }
        case _ =>
      }
    }
    assert entries[..|entries|] == entries;
  }

  // Messages stripped by trimming no longer count as restored.
  function AdjustRestored(restored: nat, dropped: int): nat {
    if dropped > 0 && restored > dropped then restored - dropped
    else if dropped >= restored then 0
    else restored
  }

  // The replayed conversation and the number of restored entries reported with it.
  function Loaded(log: seq<Entry>, at: int, sys: string): (seq<Message>, nat)
    requires -1 <= at < |log| && (0 <= at ==> ValidRuntimeCheckpoint(log[at], at))
  {
    var all := Untrimmed(log, at, sys);
    var replayed := |all| - (if at < 0 then 1 else 3);
    (Trimmed(all), AdjustRestored(replayed, |all| - |Trimmed(all)|))
  }

  lemma UntrimmedParts(log: seq<Entry>, at: int, sys: string)
    requires LastCheckpointIs(log, at)
    ensures at < 0 ==> Untrimmed(log, at, sys) == [SystemMessage(sys)] + Replay(log[0..])
    ensures 0 <= at ==>
      Untrimmed(log, at, sys) ==
        [SystemMessage(sys)] + [UserMessage(RESTORED_PREFIX + log[at].summary), AssistantMessage(RESTORED_ACK)]
        + Replay(log[log[at].covers.value.to..])
  {
    assert log[0..] == log;
  }

  // The log file and the count of entries written to it.
  class Store {
    var log: seq<Entry>
    var written: nat

    // Holds for a log whose lines all parse: every write counts one entry.
    predicate Valid()
      reads this
    {
      written == |log|
    }

    constructor (existing: seq<Entry>)
      ensures Valid() && log == existing
    {
      log := existing;
      written := |existing|;
    }

    method AppendEntry(e: Entry)
      requires Valid()
      modifies this
      ensures Valid() && log == old(log) + [e]
    {
      log := log + [e];
      written := written + 1;
    }

    method AppendSystem(content: string)
      requires Valid()
      modifies this
      ensures Valid() && log == old(log) + [SystemEntry(content)]
    {
      AppendEntry(SystemEntry(content));
    }

    method AppendUser(content: string)
      requires Valid()
      modifies this
      ensures Valid() && log == old(log) + [UserEntry(content)]
    {
      AppendEntry(UserEntry(content));
    }

    method AppendAssistant(content: string, calls: seq<ToolCall>)
      requires Valid()
      modifies this
      ensures Valid() && log == old(log) + [AssistantEntry(content, calls)]
    {
      AppendEntry(AssistantEntry(content, calls));
    }

    method AppendTool(callId: string, content: string)
      requires Valid()
      modifies this
      ensures Valid() && log == old(log) + [ToolEntry(callId, content)]
    {
      AppendEntry(ToolEntry(callId, content));
    }

    method AppendCheckpoint(summary: string, coveredTo: int)
      requires Valid()
      modifies this
      ensures Valid() && log == old(log) + [CheckpointEntry(summary, coveredTo)]
    {
      AppendEntry(CheckpointEntry(summary, coveredTo));
    }

    // Rebuild the conversation from the last valid checkpoint on.
    method LoadRuntime(sys: string) returns (msgs: seq<Message>, restored: nat)
      requires Valid()
      ensures exists at :: LastCheckpointIs(log, at) && Loaded(log, at, sys) == (msgs, restored)
    {
      var lastCheckpoint := FindLastCheckpoint(log);
      msgs := [SystemMessage(sys)];
      var start := 0;
      if lastCheckpoint >= 0 {
        var cp := log[lastCheckpoint];
        msgs := msgs + [UserMessage(RESTORED_PREFIX + cp.summary), AssistantMessage(RESTORED_ACK)];
        start := cp.covers.value.to;
      }
      UntrimmedParts(log, lastCheckpoint, sys);
      var replayed := ReplayEntries(log[start..]);
      msgs, restored := msgs + replayed, |replayed|;
      var beforeTrim := |msgs|;
      msgs := TrimDanglingToolCalls(msgs);
      restored := AdjustRestored(restored, beforeTrim - |msgs|);
      assert LastCheckpointIs(log, lastCheckpoint);
    }
  }
}
