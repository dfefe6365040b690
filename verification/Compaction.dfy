// Progressive compaction: the cut, the summary and the checkpoint (internal/agent/compression.go).
module Compaction {
  import opened Options
  import opened Text
  import opened Messages
  import opened History

  const COMPACTED_MARKER := "[Compressed. "
  const COMPACTED_ACK := "Understood. Continuing with the summary above plus the recent messages that follow."
  const KEEP_RECENT_MESSAGES := 20

  predicate IsSafeSplit(msgs: seq<Message>, s: int) {
    0 < s < |msgs| && msgs[s].role != Tool && !HasCalls(msgs[s - 1])
  }

  predicate IsUserSplit(msgs: seq<Message>, s: int) {
    IsSafeSplit(msgs, s) && msgs[s].role == User
  }

  // The preference order of the split: the last user start in the preferred window, else the
  // last safe cut up to the desired one, else the first safe cut after it, else none.
  ghost predicate BestSplit(msgs: seq<Message>, keepRecent: int, r: int) {
    var desired := |msgs| - keepRecent;
    var from := if desired - keepRecent < 1 then 1 else desired - keepRecent;
    if desired < 1 then r == 0
    else if exists s :: from <= s <= desired && IsUserSplit(msgs, s) then
      from <= r <= desired && IsUserSplit(msgs, r) && forall s :: r < s <= desired ==> !IsUserSplit(msgs, s)
    else if exists s :: 1 <= s <= desired && IsSafeSplit(msgs, s) then
      r <= desired && IsSafeSplit(msgs, r) && forall s :: r < s <= desired ==> !IsSafeSplit(msgs, s)
    else if exists s :: IsSafeSplit(msgs, s) then
      desired < r && IsSafeSplit(msgs, r) && forall s :: s < r ==> !IsSafeSplit(msgs, s)
    else r == 0
  }

  method FindCompactionSplit(msgs: seq<Message>, keepRecent: int) returns (r: int)
    ensures BestSplit(msgs, keepRecent, r) && 0 <= r <= |msgs|
  {
    var n := |msgs|;
    if n <= keepRecent {
      return 0;
    }
    var desired := n - keepRecent;
    var minPreferUser := desired - keepRecent;
    if minPreferUser < 1 {
      minPreferUser := 1;
    }
    var bestSafe := -1;
    var s := desired;
    while s >= 1
      invariant 0 <= s <= desired
      invariant bestSafe == -1 ==> forall t :: s < t <= desired ==> !IsSafeSplit(msgs, t)
      invariant bestSafe != -1 ==> s < bestSafe <= desired && IsSafeSplit(msgs, bestSafe)
      invariant bestSafe != -1 ==> forall t :: bestSafe < t <= desired ==> !IsSafeSplit(msgs, t)
      invariant forall t :: s < t <= desired && minPreferUser <= t ==> !IsUserSplit(msgs, t)
    {
      if !IsSafeSplit(msgs, s) {
        s := s - 1;
        continue;
      }
      if bestSafe == -1 {
        bestSafe := s;
      }
      if msgs[s].role == User && s >= minPreferUser {
        assert IsUserSplit(msgs, s);
        return s;
      }
      s := s - 1;
    }
    if bestSafe != -1 {
      return bestSafe;
    }
    s := desired + 1;
    while s < n
      invariant desired < s
      invariant forall t :: t < s ==> !IsSafeSplit(msgs, t)
    {
      if IsSafeSplit(msgs, s) {
        return s;
      }
      s := s + 1;
    }
    return 0;
  }

  // A conversation that starts with its system message and outgrows the kept tail can always
  // be cut, and a cut is always strictly inside it.
  lemma SplitExists(msgs: seq<Message>, keepRecent: int, r: int)
    requires WellPaired(msgs) && 2 <= |msgs| && msgs[0].role == System && keepRecent < |msgs|
    requires BestSplit(msgs, keepRecent, r)
    ensures IsSafeSplit(msgs, r)
  {
    assert IsSafeSplit(msgs, 1);
  }

  // Cutting at a safe split never separates calls from their answers.
  lemma SafeSplitKeepsPairing(msgs: seq<Message>, s: int)
    requires WellPaired(msgs) && IsSafeSplit(msgs, s)
    ensures WellPaired(msgs[..s]) && WellPaired(msgs[s..])
  {
    SplitKeepsPairing(msgs, s);
  }

  function Max(a: int, b: int): int {
    if a > b then a else b
  }

  function Min(a: int, b: int): int {
    if a < b then a else b
  }

  function RemapPersistedBoundary(oldBoundary: int, split: int): int {
    3 + Max(oldBoundary - split, 0)
  }

  function CompactedHistoryCoverage(written: int, messageCount: int, split: int, boundary: Option<int>): int {
    if written <= 0 then 0 else
      var end := match boundary case None => messageCount case Some(b) => b;
      var persistedEnd := Max(0, Min(end, messageCount));
      var persistedTail := Min(Max(persistedEnd - split, 0), written);
      written - persistedTail
  }

  function CompactedHead(sys: string, transcript: string, summary: string): seq<Message> {
    [SystemMessage(sys),
     UserMessage(COMPACTED_MARKER + "Transcript: " + transcript + "]\n" + summary),
     AssistantMessage(COMPACTED_ACK)]
  }

  function CompactedMessages(
    msgs: seq<Message>, split: nat, sys: string, transcript: string, summary: string): seq<Message>
    requires split <= |msgs|
  {
    CompactedHead(sys, transcript, summary) + msgs[split..]
  }

  // --- There is exactly one best split ---

  function LastUserSplit(msgs: seq<Message>, lo: int, hi: int): (r: int)
    ensures r == 0 ==> forall s :: 0 < s && lo <= s <= hi ==> !IsUserSplit(msgs, s)
    ensures r != 0 ==> lo <= r <= hi && IsUserSplit(msgs, r) && forall s :: r < s <= hi ==> !IsUserSplit(msgs, s)
    decreases hi - lo
  {
    if hi < lo then 0 else if IsUserSplit(msgs, hi) then hi else LastUserSplit(msgs, lo, hi - 1)
  }

  function LastSafeSplit(msgs: seq<Message>, hi: int): (r: int)
    ensures r == 0 ==> forall s :: 0 < s <= hi ==> !IsSafeSplit(msgs, s)
    ensures r != 0 ==> r <= hi && IsSafeSplit(msgs, r) && forall s :: r < s <= hi ==> !IsSafeSplit(msgs, s)
    decreases hi
  {
    if hi <= 0 then 0 else if IsSafeSplit(msgs, hi) then hi else LastSafeSplit(msgs, hi - 1)
  }

  function FirstSafeSplit(msgs: seq<Message>, lo: int): (r: int)
    ensures r == 0 ==> forall s :: lo <= s ==> !IsSafeSplit(msgs, s)
    ensures r != 0 ==> lo <= r && IsSafeSplit(msgs, r) && forall s :: lo <= s < r ==> !IsSafeSplit(msgs, s)
    decreases |msgs| - lo
  {
    if |msgs| <= lo then 0 else if IsSafeSplit(msgs, lo) then lo else FirstSafeSplit(msgs, lo + 1)
  }

  function SplitOf(msgs: seq<Message>, keepRecent: int): (r: int)
    ensures BestSplit(msgs, keepRecent, r)
  {
    var desired := |msgs| - keepRecent;
    var user := LastUserSplit(msgs, Max(desired - keepRecent, 1), desired);
    var safe := LastSafeSplit(msgs, desired);
    if desired < 1 then 0 else if user != 0 then user else if safe != 0 then safe else FirstSafeSplit(msgs, desired + 1)
  }

  lemma BestSplitIsUnique(msgs: seq<Message>, keepRecent: int, r: int, r': int)
    requires BestSplit(msgs, keepRecent, r) && BestSplit(msgs, keepRecent, r')
    ensures r == r'
  {
  }

  // --- Compaction as a whole ---

  // What compaction knows besides the messages: whether it is wired up, how many messages it
  // keeps, how many entries the log holds and the caller's boundary, where there are such.
  datatype Saved = Saved(wired: bool, keepRecent: int, written: Option<nat>, boundary: Option<int>)

  const NOT_WIRED := Saved(false, 0, None, None)

  // What a new checkpoint would cover; without a log nothing stands in the way.
  function NewCoverage(saved: Saved, messageCount: int, split: int): int {
    if saved.written.None? then 1
      else CompactedHistoryCoverage(saved.written.value, messageCount, split, saved.boundary)
  }

  predicate Compacts(saved: Saved, messageCount: int, split: int, reply: Option<string>) {
    saved.wired && split > 0 && reply.Some? && TrimSpace(reply.value) != ""
      && NewCoverage(saved, messageCount, split) > 0
  }

  function AfterCheckpoint(saved: Saved, split: int): Saved {
    saved.(written := if saved.written.None? then None else Some(saved.written.value + 1),
           boundary := if saved.boundary.None? then None else Some(RemapPersistedBoundary(saved.boundary.value, split)))
  }

  function CompactOn(
    msgs: seq<Message>, saved: Saved, sys: string, transcript: string, reply: Option<string>): (seq<Message>, Saved)
  {
    var split := SplitOf(msgs, saved.keepRecent);
    if Compacts(saved, |msgs|, split, reply)
    then (CompactedMessages(msgs, split, sys, transcript, reply.value), AfterCheckpoint(saved, split))
    else (msgs, saved)
  }

  // --- What compaction hands back, message by message ---

  // The system message, a user message naming the transcript and ending in the summary, a plain
  // assistant message, and everything from the cut on.
  ghost predicate Summarises(
    out: seq<Message>, msgs: seq<Message>, split: int, sys: string, transcript: string, summary: string)
  {
    && 0 < split <= |msgs| && |out| == 3 + |msgs| - split
    && out[0] == Message(System, sys, [], "", None)
    && out[1] == Message(User, "[Compressed. Transcript: " + transcript + "]\n" + summary, [], "", None)
    && out[2].role == Assistant && out[2].calls == [] && out[2].reasoning.None?
    && out[3..] == msgs[split..]
  }

  // How many messages behind the cut are on disk, as the caller's index has it.
  function TailOnDisk(count: int, split: int, boundary: Option<int>): int {
    (if boundary.Some? && boundary.value < count then boundary.value else count) - split
  }

  // There is a cut, a summary, and on disk, if anything is kept there, an entry before the kept tail.
  ghost predicate Summarisable(saved: Saved, count: int, split: int, reply: Option<string>) {
    && saved.wired && split > 0 && reply.Some? && TrimSpace(reply.value) != ""
    && (saved.written.Some? ==>
          saved.written.value > 0 && TailOnDisk(count, split, saved.boundary) < saved.written.value)
  }

  lemma CoverageMeans(saved: Saved, count: int, split: int)
    requires 0 < split <= count && saved.written.Some?
    ensures var written, tail := saved.written.value, TailOnDisk(count, split, saved.boundary);
      && (NewCoverage(saved, count, split) > 0 <==> written > 0 && tail < written)
      && (written > 0 && tail < written ==>
            NewCoverage(saved, count, split) == written - if tail > 0 then tail else 0)
  {
  }

  lemma CompactedSummarises(msgs: seq<Message>, split: int, sys: string, transcript: string, summary: string)
    requires 0 < split <= |msgs|
    ensures Summarises(CompactedMessages(msgs, split, sys, transcript, summary), msgs, split, sys, transcript, summary)
  {
  }

  lemma BestSplitIsInside(msgs: seq<Message>, keepRecent: int, r: int)
    requires BestSplit(msgs, keepRecent, r)
    ensures r == 0 || 0 < r < |msgs|
  {
  }

  // Either the old conversation gives way to its summary and the caller's index moves with the cut,
  // or nothing changes.
  ghost predicate SummaryTakesOver(
    msgs: seq<Message>, saved: Saved, sys: string, transcript: string, reply: Option<string>,
    out: seq<Message>, saved': Saved)
  {
    var split := SplitOf(msgs, saved.keepRecent);
    if Summarisable(saved, |msgs|, split, reply) then
      && Summarises(out, msgs, split, sys, transcript, reply.value)
      && saved' == saved.(
           written := if saved.written.Some? then Some(saved.written.value + 1) else None,
           boundary := if saved.boundary.Some?
                       then Some(3 + if saved.boundary.value > split then saved.boundary.value - split else 0)
                       else None)
    else
      out == msgs && saved' == saved
  }

  // The checkpoint written on the way covers all but the messages kept behind the cut.
  ghost function CheckpointsFor(msgs: seq<Message>, saved: Saved, reply: Option<string>): seq<Entry> {
    var split := SplitOf(msgs, saved.keepRecent);
    var tail := TailOnDisk(|msgs|, split, saved.boundary);
    if Summarisable(saved, |msgs|, split, reply) && saved.written.Some?
    then [Entry(KindCheckpoint, "", [], "", reply.value,
                Some(Coverage(1, saved.written.value - if tail > 0 then tail else 0)))]
    else []
  }

  lemma CompactionMeans(
    msgs: seq<Message>, saved: Saved, sys: string, transcript: string, reply: Option<string>)
    ensures var r := CompactOn(msgs, saved, sys, transcript, reply);
      SummaryTakesOver(msgs, saved, sys, transcript, reply, r.0, r.1)
    ensures var split := SplitOf(msgs, saved.keepRecent);
      && (Compacts(saved, |msgs|, split, reply) <==> Summarisable(saved, |msgs|, split, reply))
      && (saved.written.Some? ==>
            CheckpointsFor(msgs, saved, reply)
            == if Compacts(saved, |msgs|, split, reply)
               then [CheckpointEntry(reply.value, NewCoverage(saved, |msgs|, split))] else [])
  {
    var split := SplitOf(msgs, saved.keepRecent);
    BestSplitIsInside(msgs, saved.keepRecent, split);
    hide BestSplit, SplitOf, NewCoverage, TailOnDisk, CompactedMessages, Summarises, TrimSpace;
    if split > 0 {
      if saved.written.Some? {
        CoverageMeans(saved, |msgs|, split);
      }
      if reply.Some? {
        CompactedSummarises(msgs, split, sys, transcript, reply.value);
      }
    }
  }

  // The caller's index of the first message not yet persisted.
  class Boundary {
    var at: int

    constructor (at: int)
      ensures this.at == at
    {
      this.at := at;
    }
  }

  class Compression {
    const keepRecent: int
    const histStore: Store?

    constructor (store: Store?)
      ensures histStore == store && keepRecent == KEEP_RECENT_MESSAGES
    {
      keepRecent := KEEP_RECENT_MESSAGES;
      histStore := store;
    }

    function View(boundary: Boundary?): Saved
      reads histStore, boundary
    {
      Saved(true, keepRecent, if histStore == null then None else Some(histStore.written),
            if boundary == null then None else Some(boundary.at))
    }

    // `reply` is the summary model's answer, None when the call failed. Either nothing changes
    // at all, or messages, log and boundary move together, and the summary takes the old messages'
    // place.
    method AutoCompact(msgs: seq<Message>, sys: string, transcript: string, reply: Option<string>, boundary: Boundary?)
      returns (out: seq<Message>)
      requires histStore != null ==> histStore.Valid()
      modifies histStore, boundary
      ensures histStore != null ==> histStore.Valid()
      ensures (out, View(boundary)) == CompactOn(msgs, old(View(boundary)), sys, transcript, reply)
      ensures SummaryTakesOver(msgs, old(View(boundary)), sys, transcript, reply, out, View(boundary))
      ensures histStore != null ==>
        histStore.log == old(histStore.log) + CheckpointsFor(msgs, old(View(boundary)), reply)
    {
      CompactionMeans(msgs, View(boundary), sys, transcript, reply);
      hide SummaryTakesOver, CheckpointsFor, Summarisable;
      hide BestSplit, SplitOf, CompactedMessages, CompactedHistoryCoverage, RemapPersistedBoundary, TrimSpace;
      var split := FindCompactionSplit(msgs, keepRecent);
      BestSplitIsUnique(msgs, keepRecent, split, SplitOf(msgs, keepRecent));
      if split <= 0 {
        return msgs;
      }
      if reply.None? || TrimSpace(reply.value) == "" {
        return msgs;
      }
      var summary := reply.value;
      if histStore != null {
        var covered := CompactedHistoryCoverage(histStore.written, |msgs|, split,
                                                if boundary == null then None else Some(boundary.at));
        if covered <= 0 {
          return msgs;
        }
        histStore.AppendCheckpoint(summary, covered);
      }
      if boundary != null {
        boundary.at := RemapPersistedBoundary(boundary.at, split);
      }
      out := CompactedMessages(msgs, split, sys, transcript, summary);
    }
  }
}
