// In-memory compaction and on-disk replay agree after a reload.
module CompactionFacts {
  import opened Options
  import opened Text
  import opened Messages
  import opened History
  import opened HistoryFacts
  import opened Compaction

  // How many messages of the kept tail are already on disk.
  function PersistedTail(count: int, split: int, boundary: Option<int>): int {
    var end := match boundary case None => count case Some(b) => b;
    Max(Max(0, Min(end, count)) - split, 0)
  }

  // The last entries of the log are the persisted part of the kept tail, entry by entry.
  ghost predicate TailIsLogged(log: seq<Entry>, msgs: seq<Message>, split: int, k: int)
    requires 0 <= split && 0 <= k && split + k <= |msgs| && k <= |log|
  {
    MirrorsAll(log[|log| - k..], msgs[split..split + k])
  }

  lemma CompactedKeepsPairing(msgs: seq<Message>, split: int, sys: string, transcript: string, summary: string)
    requires WellPaired(msgs) && IsSafeSplit(msgs, split)
    ensures WellPaired(CompactedMessages(msgs, split, sys, transcript, summary))
  {
    SafeSplitKeepsPairing(msgs, split);
    PlainIsWellPaired(CompactedHead(sys, transcript, summary));
    WellPairedConcat(CompactedHead(sys, transcript, summary), msgs[split..]);
  }

  // Whatever compaction decides, calls stay with their answers.
  lemma CompactOnKeepsPairing(msgs: seq<Message>, saved: Saved, sys: string, transcript: string, reply: Option<string>)
    requires WellPaired(msgs)
    ensures WellPaired(CompactOn(msgs, saved, sys, transcript, reply).0)
  {
    var split := SplitOf(msgs, saved.keepRecent);
    if Compacts(saved, |msgs|, split, reply) {
      BestSplitIsSafe(msgs, saved.keepRecent, split);
      CompactedKeepsPairing(msgs, split, sys, transcript, reply.value);
    }
  }

  lemma BestSplitIsSafe(msgs: seq<Message>, keepRecent: int, r: int)
    requires BestSplit(msgs, keepRecent, r) && 0 < r
    ensures IsSafeSplit(msgs, r)
  {
  }

  // The new checkpoint is valid where it stands, covers exactly what the tail does not, and is
  // the one every later replay starts from.
  lemma NewCheckpointCounts(log: seq<Entry>, summary: string, covered: int, at: int)
    requires TrimSpace(summary) != "" && 1 <= covered <= |log|
    requires LastCheckpointIs(log + [CheckpointEntry(summary, covered)], at)
    ensures ValidRuntimeCheckpoint(CheckpointEntry(summary, covered), |log|) && at == |log|
  {
    var log' := log + [CheckpointEntry(summary, covered)];
    assert log'[|log|] == CheckpointEntry(summary, covered);
  }

  lemma PreambleShape(sys: string, cp: Entry)
    ensures var head := Preamble(sys, Some(cp));
            |head| == 3 && head[2].role == Assistant && WellPaired(head)
  {
    PlainIsWellPaired(Preamble(sys, Some(cp)));
  }

  lemma ReplayTail(log: seq<Entry>, tail: seq<Message>, cp: Entry)
    requires |tail| <= |log| && MirrorsAll(log[|log| - |tail|..], tail) && cp.kind == KindCheckpoint
    ensures Replay((log + [cp])[|log| - |tail|..]) == StoredAll(tail)
  {
    var entries := log[|log| - |tail|..];
    ReplayMirrors(entries, tail);
    assert (log + [cp])[|log| - |tail|..] == entries + [cp];
    assert (entries + [cp])[..|entries|] == entries;
    assert StoredAll(tail) + [] == StoredAll(tail);
  }

  lemma CoverageMeetsTail(written: int, count: int, split: int, boundary: Option<int>)
    requires 0 < written && PersistedTail(count, split, boundary) <= written
    ensures CompactedHistoryCoverage(written, count, split, boundary) + PersistedTail(count, split, boundary) == written
  {
  }

  // When the persisted part of the kept tail ends the log, a compaction and a reload agree: the
  // checkpoint covers the log up to that tail, and replay yields the summary followed by exactly
  // that tail, up to user messages nobody has answered yet.
  lemma CompactionSurvivesReload(
    msgs: seq<Message>, split: int, boundary: Option<int>, log: seq<Entry>, cp: Entry, sys: string, at: int, k: int)
    requires IsSafeSplit(msgs, split) && k == PersistedTail(|msgs|, split, boundary) && k < |log|
    requires split + k <= |msgs| && TailIsLogged(log, msgs, split, k) && WellPaired(msgs[split..split + k])
    requires cp == CheckpointEntry(cp.summary, CompactedHistoryCoverage(|log|, |msgs|, split, boundary))
    requires TrimSpace(cp.summary) != "" && LastCheckpointIs(log + [cp], at)
    ensures cp.covers.value.to + k == |log| && ValidRuntimeCheckpoint(cp, |log|) && at == |log|
    ensures Loaded(log + [cp], at, sys).0
      == Preamble(sys, Some(cp)) + WithoutTrailingUsers(StoredAll(msgs[split..split + k]))
  {
    hide LastCheckpointIs, Loaded, Preamble, WithoutTrailingUsers, StoredAll, WellPaired, MirrorsAll;
    CoverageMeetsTail(|log|, |msgs|, split, boundary);
    NewCheckpointCounts(log, cp.summary, |log| - k, at);
    TailIsReplayed(log, msgs[split..split + k], cp, sys);
  }

  lemma TailIsReplayed(log: seq<Entry>, tail: seq<Message>, cp: Entry, sys: string)
    requires |tail| < |log| && MirrorsAll(log[|log| - |tail|..], tail) && WellPaired(tail)
    requires cp.covers == Some(Coverage(1, |log| - |tail|)) && ValidRuntimeCheckpoint(cp, |log|)
    ensures Loaded(log + [cp], |log|, sys).0 == Preamble(sys, Some(cp)) + WithoutTrailingUsers(StoredAll(tail))
  {
    ReplayTail(log, tail, cp);
    UntrimmedAtEnd(log, cp, sys);
    PreambleShape(sys, cp);
    StoredKeepsPairing(tail);
    TrimWellPaired(Preamble(sys, Some(cp)), StoredAll(tail));
  }

  lemma UntrimmedAtEnd(log: seq<Entry>, cp: Entry, sys: string)
    requires ValidRuntimeCheckpoint(cp, |log|)
    ensures Untrimmed(log + [cp], |log|, sys) == Preamble(sys, Some(cp)) + Replay((log + [cp])[cp.covers.value.to..])
  {
  }

  // The remapped boundary selects exactly the messages that were not persisted before.
  lemma BoundarySelectsUnpersisted(
    msgs: seq<Message>, split: int, b: int, sys: string, transcript: string, summary: string)
    requires 0 < split <= |msgs| && 0 <= b <= |msgs|
    ensures var out, b' := CompactedMessages(msgs, split, sys, transcript, summary), RemapPersistedBoundary(b, split);
            3 <= b' <= |out| && out[b'..] == msgs[Max(b, split)..]
  {
  }

  // The log ends with the persisted part of the tail this compaction keeps, and a reader of the
  // compacted log starts at `at`.
  ghost predicate Persisted(msgs: seq<Message>, saved: Saved, log: seq<Entry>, k: int) {
    var split := SplitOf(msgs, saved.keepRecent);
    && k == PersistedTail(|msgs|, split, saved.boundary) && 0 <= split && split + k <= |msgs| && k <= |log|
    && TailIsLogged(log, msgs, split, k) && WellPaired(msgs[split..split + k])
  }

  // Whatever compaction decides to cut: when the log ends with the persisted part of the kept tail,
  // the compacted log replays to the summary and exactly that tail.
  lemma CompactThenReload(msgs: seq<Message>, saved: Saved, log: seq<Entry>, sys: string, cp: Entry, at: int, k: int)
    requires saved.written == Some(|log|) && Persisted(msgs, saved, log, k)
    requires Compacts(saved, |msgs|, SplitOf(msgs, saved.keepRecent), Some(cp.summary))
    requires cp == CheckpointEntry(cp.summary, NewCoverage(saved, |msgs|, SplitOf(msgs, saved.keepRecent)))
    requires LastCheckpointIs(log + [cp], at)
    ensures at == |log| && cp.covers.value.to + k == |log|
    ensures var split := SplitOf(msgs, saved.keepRecent);
      Loaded(log + [cp], at, sys).0 == Preamble(sys, Some(cp)) + WithoutTrailingUsers(StoredAll(msgs[split..split + k]))
  {
    hide LastCheckpointIs, Loaded, Preamble, WithoutTrailingUsers, StoredAll, TailIsLogged, WellPaired, IsSafeSplit;
    var split := SplitOf(msgs, saved.keepRecent);
    BestSplitIsSafe(msgs, saved.keepRecent, split);
    CompactionSurvivesReload(msgs, split, saved.boundary, log, cp, sys, at, k);
  }

  // A store counts what it writes, so what compaction believes to be on disk is.
  lemma StoreCompactThenReload(
    c: Compression, boundary: Boundary?, msgs: seq<Message>, sys: string, cp: Entry, at: int, k: int)
    requires c.histStore != null && c.histStore.Valid()
    requires Persisted(msgs, c.View(boundary), c.histStore.log, k)
    requires Compacts(c.View(boundary), |msgs|, SplitOf(msgs, c.keepRecent), Some(cp.summary))
    requires cp == CheckpointEntry(cp.summary, NewCoverage(c.View(boundary), |msgs|, SplitOf(msgs, c.keepRecent)))
    requires LastCheckpointIs(c.histStore.log + [cp], at)
    ensures at == |c.histStore.log| && cp.covers.value.to + k == |c.histStore.log|
    ensures var split := SplitOf(msgs, c.keepRecent);
      Loaded(c.histStore.log + [cp], at, sys).0
        == Preamble(sys, Some(cp)) + WithoutTrailingUsers(StoredAll(msgs[split..split + k]))
  {
    hide Persisted, Compacts, NewCoverage, SplitOf, LastCheckpointIs, Loaded, Preamble, WithoutTrailingUsers, StoredAll;
    CompactThenReload(msgs, c.View(boundary), c.histStore.log, sys, cp, at, k);
  }

  // And the boundary it hands back selects from the new messages exactly what was not persisted
  // before and is still there.
  lemma CompactMovesBoundary(msgs: seq<Message>, saved: Saved, sys: string, transcript: string, reply: Option<string>)
    requires Compacts(saved, |msgs|, SplitOf(msgs, saved.keepRecent), reply)
    requires saved.boundary.Some? && 0 <= saved.boundary.value <= |msgs|
    ensures var split, r := SplitOf(msgs, saved.keepRecent), CompactOn(msgs, saved, sys, transcript, reply);
      && r.1.boundary.Some? && 3 <= r.1.boundary.value <= |r.0|
      && split <= |msgs| && r.0[r.1.boundary.value..] == msgs[Max(saved.boundary.value, split)..]
  {
    var split := SplitOf(msgs, saved.keepRecent);
    BestSplitIsSafe(msgs, saved.keepRecent, split);
    BoundarySelectsUnpersisted(msgs, split, saved.boundary.value, sys, transcript, reply.value);
  }
}
