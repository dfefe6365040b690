// Conversion of a conversation into the alternating turns of the Anthropic Messages API
// (internal/gateway/provider/anthropic.go, buildAnthropicMessages).
module AnthropicTurns {
  import opened Text
  import opened Messages

  datatype Side = UserSide | AssistantSide

  datatype Block = TextBlock(text: string) | ToolUse(id: string, name: string, arguments: string)
    | ToolResult(id: string, content: string)

  datatype Turn = Turn(side: Side, blocks: seq<Block>)

  function TextIfAny(content: string): seq<Block> {
    if TrimSpace(content) == "" then [] else [TextBlock(content)]
  }

  function UseBlocks(calls: seq<ToolCall>): (r: seq<Block>)
    ensures |r| == |calls| && forall k :: 0 <= k < |r| ==>
      r[k] == ToolUse(calls[k].id, calls[k].name, calls[k].arguments)
  {
    if calls == [] then [] else
      var tc := calls[|calls| - 1];
      UseBlocks(calls[..|calls| - 1]) + [ToolUse(tc.id, tc.name, tc.arguments)]
  }

  // What one message contributes; system text travels separately.
  function Blocks(m: Message): seq<Block> {
    match m.role
    case System => []
    case User => TextIfAny(m.content)
    case Assistant => TextIfAny(m.content) + UseBlocks(m.calls)
    case Tool => [ToolResult(m.callId, if m.content == "" then "(empty)" else m.content)]
  }

  function SideOf(m: Message): Side {
    if m.role == Assistant then AssistantSide else UserSide
  }

  // Blocks join the last turn of the same side, or open a new one.
  function Joined(out: seq<Turn>, side: Side, blocks: seq<Block>): seq<Turn> {
    if blocks == [] then out
    else if out != [] && out[|out| - 1].side == side then
      out[|out| - 1 := Turn(side, out[|out| - 1].blocks + blocks)]
    else out + [Turn(side, blocks)]
  }

  // Blocks contributed by one message, and the side they speak for.
  datatype Part = Part(side: Side, blocks: seq<Block>)

  function PartOf(m: Message): Part {
    Part(SideOf(m), Blocks(m))
  }

  function Parts(ms: seq<Message>): (r: seq<Part>)
    ensures |r| == |ms| && forall i :: 0 <= i < |r| ==> r[i] == PartOf(ms[i])
  {
    seq(|ms|, i requires 0 <= i < |ms| => PartOf(ms[i]))
  }

  function BuiltFrom(out: seq<Turn>, parts: seq<Part>): seq<Turn>
    decreases |parts|
  {
    if parts == [] then out else BuiltFrom(Joined(out, parts[0].side, parts[0].blocks), parts[1..])
  }

  function Built(ms: seq<Message>): seq<Turn> {
    BuiltFrom([], Parts(ms))
  }

  function SystemTexts(ms: seq<Message>): seq<string> {
    if ms == [] then [] else
      var m := ms[|ms| - 1];
      SystemTexts(ms[..|ms| - 1]) + (if m.role == System && TrimSpace(m.content) != "" then [m.content] else [])
  }

  method AppendBlocks(out: seq<Turn>, side: Side, blocks: seq<Block>) returns (res: seq<Turn>)
    ensures res == Joined(out, side, blocks)
  {
    if |blocks| == 0 {
      return out;
    }
    var n := |out|;
    if n > 0 && out[n - 1].side == side {
      return out[n - 1 := Turn(side, out[n - 1].blocks + blocks)];
    }
    res := out + [Turn(side, blocks)];
  }

  method MessageBlocks(m: Message) returns (blocks: seq<Block>)
    ensures blocks == Blocks(m)
  {
    blocks := [];
    match m.role {
      case System =>
      case User =>
        if TrimSpace(m.content) != "" {
          blocks := [TextBlock(m.content)];
        }
      case Assistant =>
        if TrimSpace(m.content) != "" {
          blocks := [TextBlock(m.content)];
        }
        for k := 0 to |m.calls|
          invariant blocks == TextIfAny(m.content) + UseBlocks(m.calls[..k])
        {
          assert m.calls[..k + 1][..k] == m.calls[..k];
          blocks := blocks + [ToolUse(m.calls[k].id, m.calls[k].name, m.calls[k].arguments)];
        }
        assert m.calls[..|m.calls|] == m.calls;
      case Tool =>
        var content := m.content;
        if content == "" {
          content := "(empty)";
        }
        blocks := [ToolResult(m.callId, content)];
    }
  }

  method BuildAnthropicMessages(msgs: seq<Message>) returns (sys: seq<string>, out: seq<Turn>)
    ensures sys == SystemTexts(msgs) && out == Built(msgs)
  {
    sys, out := [], [];
    ghost var parts := Parts(msgs);
    assert parts[0..] == parts;
    for i := 0 to |msgs|
      invariant sys == SystemTexts(msgs[..i])
      invariant BuiltFrom(out, parts[i..]) == BuiltFrom([], parts)
    {
      assert msgs[..i + 1][..i] == msgs[..i];
      assert parts[i..][1..] == parts[i + 1..];
      var m := msgs[i];
      if m.role == System && TrimSpace(m.content) != "" {
        sys := sys + [m.content];
      }
      var blocks := MessageBlocks(m);
      out := AppendBlocks(out, if m.role == Assistant then AssistantSide else UserSide, blocks);
    }
    assert msgs[..|msgs|] == msgs;
  }

  // --- Alternation, and nothing lost or reordered ---

  ghost predicate Alternating(out: seq<Turn>) {
    (forall t :: 0 <= t < |out| ==> out[t].blocks != [])
    && forall t :: 0 <= t < |out| - 1 ==> out[t].side != out[t + 1].side
  }

  // Blocks with the side they speak for, in order.
  function Tagged(side: Side, blocks: seq<Block>): (r: seq<(Side, Block)>)
    ensures |r| == |blocks| && forall k :: 0 <= k < |r| ==> r[k] == (side, blocks[k])
  {
    seq(|blocks|, k requires 0 <= k < |blocks| => (side, blocks[k]))
  }

  function Flattened(out: seq<Turn>): seq<(Side, Block)> {
    if out == [] then [] else
      Flattened(out[..|out| - 1]) + Tagged(out[|out| - 1].side, out[|out| - 1].blocks)
  }

  function Contributed(parts: seq<Part>): seq<(Side, Block)>
    decreases |parts|
  {
    if parts == [] then [] else Tagged(parts[0].side, parts[0].blocks) + Contributed(parts[1..])
  }

  lemma TaggedConcat(side: Side, a: seq<Block>, b: seq<Block>)
    ensures Tagged(side, a + b) == Tagged(side, a) + Tagged(side, b)
  {
  }

  lemma {:induction false} FlattenedSnoc(out: seq<Turn>, t: Turn)
    ensures Flattened(out + [t]) == Flattened(out) + Tagged(t.side, t.blocks)
  {
    assert (out + [t])[..|out|] == out;
  }

  lemma JoinedAlternates(out: seq<Turn>, side: Side, blocks: seq<Block>)
    requires Alternating(out)
    ensures Alternating(Joined(out, side, blocks))
  {
  }

  lemma {:induction false} JoinedFlattens(out: seq<Turn>, side: Side, blocks: seq<Block>)
    ensures Flattened(Joined(out, side, blocks)) == Flattened(out) + Tagged(side, blocks)
  {
    if blocks == [] {
      assert Flattened(out) + Tagged(side, []) == Flattened(out);
    } else if out != [] && out[|out| - 1].side == side {
      var init, last := out[..|out| - 1], out[|out| - 1];
      assert Joined(out, side, blocks) == init + [Turn(side, last.blocks + blocks)];
      FlattenedSnoc(init, Turn(side, last.blocks + blocks));
      TaggedConcat(side, last.blocks, blocks);
      Associate(Flattened(init), Tagged(side, last.blocks), Tagged(side, blocks));
      assert Flattened(out) == Flattened(init) + Tagged(side, last.blocks);
    } else {
      FlattenedSnoc(out, Turn(side, blocks));
    }
  }

  lemma {:induction false} BuildAlternates(out: seq<Turn>, parts: seq<Part>)
    requires Alternating(out)
    ensures Alternating(BuiltFrom(out, parts))
    decreases |parts|
  {
    if parts != [] {
      JoinedAlternates(out, parts[0].side, parts[0].blocks);
      BuildAlternates(Joined(out, parts[0].side, parts[0].blocks), parts[1..]);
    }
  }

  lemma Associate<T>(a: seq<T>, b: seq<T>, c: seq<T>)
    ensures (a + b) + c == a + (b + c)
  {
  }

  lemma {:induction false} BuildFlattens(out: seq<Turn>, parts: seq<Part>)
    ensures Flattened(BuiltFrom(out, parts)) == Flattened(out) + Contributed(parts)
    decreases |parts|
  {
    if parts == [] {
      assert Flattened(out) + [] == Flattened(out);
    } else {
      var p, rest := parts[0], Contributed(parts[1..]);
      JoinedFlattens(out, p.side, p.blocks);
      BuildFlattens(Joined(out, p.side, p.blocks), parts[1..]);
      Associate(Flattened(out), Tagged(p.side, p.blocks), rest);
    }
  }

  // For every conversation: turns strictly alternate, none is empty, and read in order they
  // carry exactly the blocks of the messages in order.
  lemma TurnsAlternateAndKeepBlocks(ms: seq<Message>)
    ensures Alternating(Built(ms)) && Flattened(Built(ms)) == Contributed(Parts(ms))
  {
    BuildAlternates([], Parts(ms));
    BuildFlattens([], Parts(ms));
    assert Flattened([]) + Contributed(Parts(ms)) == Contributed(Parts(ms));
  }

  // What a message adds to the conversation as sent, side by side with its text.
  function Spoken(m: Message): seq<(Side, Block)> {
    match m.role
    case System => []
    case User => if TrimSpace(m.content) == "" then [] else [(UserSide, TextBlock(m.content))]
    case Assistant =>
      (if TrimSpace(m.content) == "" then [] else [(AssistantSide, TextBlock(m.content))])
      + seq(|m.calls|, k requires 0 <= k < |m.calls| =>
          (AssistantSide, ToolUse(m.calls[k].id, m.calls[k].name, m.calls[k].arguments)))
    case Tool => [(UserSide, ToolResult(m.callId, if m.content == "" then "(empty)" else m.content))]
  }

  // One more message adds, behind everything else, what it says and nothing more: a prompt or reply
  // its text unless blank, a reply its calls, a result what it gave, a system message its text apart.
  lemma {:induction false} NextMessageSays(ms: seq<Message>, m: Message)
    ensures Flattened(Built(ms + [m])) == Flattened(Built(ms)) + Spoken(m)
    ensures SystemTexts(ms + [m])
         == SystemTexts(ms) + if m.role == System && TrimSpace(m.content) != "" then [m.content] else []
  {
    SpokenBlocks(m);
    assert Parts(ms + [m]) == Parts(ms) + [PartOf(m)];
    hide Parts, TrimSpace, Blocks, Spoken, Tagged;
    TurnsAlternateAndKeepBlocks(ms);
    TurnsAlternateAndKeepBlocks(ms + [m]);
    ContributedSnoc(Parts(ms), PartOf(m));
    assert (ms + [m])[..|ms|] == ms;
  }

  lemma SpokenBlocks(m: Message)
    ensures Tagged(SideOf(m), Blocks(m)) == Spoken(m)
  {
    hide TrimSpace;
  }

  lemma {:induction false} ContributedSnoc(parts: seq<Part>, p: Part)
    ensures Contributed(parts + [p]) == Contributed(parts) + Tagged(p.side, p.blocks)
    decreases |parts|
  {
    if parts == [] {
      assert parts + [p] == [p] && [p][1..] == [];
      assert Tagged(p.side, p.blocks) + [] == [] + Tagged(p.side, p.blocks);
    } else {
      assert (parts + [p])[1..] == parts[1..] + [p];
      ContributedSnoc(parts[1..], p);
      Associate(Tagged(parts[0].side, parts[0].blocks), Contributed(parts[1..]), Tagged(p.side, p.blocks));
    }
  }

  // --- Calls and results meet in adjacent turns ---

  function UseIds(blocks: seq<Block>): seq<string> {
    if blocks == [] then [] else
      var b := blocks[|blocks| - 1];
      UseIds(blocks[..|blocks| - 1]) + (if b.ToolUse? then [b.id] else [])
  }

  function ResultIds(blocks: seq<Block>): seq<string> {
    if blocks == [] then [] else
      var b := blocks[|blocks| - 1];
      ResultIds(blocks[..|blocks| - 1]) + (if b.ToolResult? then [b.id] else [])
  }

  // All tool results come before everything else.
  predicate ResultsLead(blocks: seq<Block>) {
    forall k :: 0 <= k < |blocks| ==> (blocks[k].ToolResult? <==> k < |ResultIds(blocks)|)
  }

  predicate Opens(blocks: seq<Block>, wanted: seq<string>) {
    ResultsLead(blocks) && ResultIds(blocks) == wanted
  }

  // The calls waiting when turn t starts.
  function Pending(out: seq<Turn>, t: nat): seq<string>
    requires t <= |out|
  {
    if t == 0 || out[t - 1].side == UserSide then [] else UseIds(out[t - 1].blocks)
  }

  predicate TurnOk(out: seq<Turn>, t: nat)
    requires t < |out|
  {
    if out[t].side == UserSide then Opens(out[t].blocks, Pending(out, t)) else Pending(out, t) == []
  }

  predicate TurnsOk(out: seq<Turn>, n: nat)
    requires n <= |out|
  {
    forall t :: 0 <= t < n ==> TurnOk(out, t)
  }

  // Each user turn opens with the results of exactly the calls of the turn before it, in order,
  // and no call is left without a following turn.
  predicate PairedTurns(out: seq<Turn>) {
    TurnsOk(out, |out|) && Pending(out, |out|) == []
  }

  lemma IdsSnoc(blocks: seq<Block>, b: Block)
    ensures UseIds(blocks + [b]) == UseIds(blocks) + (if b.ToolUse? then [b.id] else [])
    ensures ResultIds(blocks + [b]) == ResultIds(blocks) + (if b.ToolResult? then [b.id] else [])
  {
    assert (blocks + [b])[..|blocks|] == blocks;
  }

  lemma {:induction false} UseIdsConcat(a: seq<Block>, b: seq<Block>)
    ensures UseIds(a + b) == UseIds(a) + UseIds(b)
    decreases |b|
  {
    if b == [] {
      assert a + b == a;
    } else {
      var init := b[..|b| - 1];
      assert (a + b)[..|a + b| - 1] == a + init;
      UseIdsConcat(a, init);
    }
  }

  function CallIds(calls: seq<ToolCall>): (r: seq<string>)
    ensures |r| == |calls| && forall k :: 0 <= k < |r| ==> r[k] == calls[k].id
  {
    if calls == [] then [] else CallIds(calls[..|calls| - 1]) + [calls[|calls| - 1].id]
  }

  lemma {:induction false} UseIdsOfCalls(calls: seq<ToolCall>)
    ensures UseIds(UseBlocks(calls)) == CallIds(calls)
  {
    if calls != [] {
      UseIdsOfCalls(calls[..|calls| - 1]);
      IdsSnoc(UseBlocks(calls[..|calls| - 1]), UseBlocks(calls)[|calls| - 1]);
    }
  }

  lemma UseIdsOfMessage(m: Message)
    requires m.role == Assistant
    ensures UseIds(Blocks(m)) == CallIds(m.calls)
  {
    var text, uses := TextIfAny(m.content), UseBlocks(m.calls);
    UseIdsConcat(text, uses);
    UseIdsOfCalls(m.calls);
    assert UseIds(text) == [] by {
      if text != [] {
        assert text[..0] == [];
      }
    }
    assert [] + UseIds(uses) == UseIds(uses);
  }

  // Turns before n keep their standing when the list grows or its last turn is replaced.
  lemma PushKeeps(out: seq<Turn>, t: Turn, n: nat)
    requires n <= |out| && TurnsOk(out, n)
    ensures TurnsOk(out + [t], n) && Pending(out + [t], |out|) == Pending(out, |out|)
  {
    forall i | 0 <= i < n
      ensures TurnOk(out + [t], i)
    {
      assert TurnOk(out, i);
    }
  }

  lemma ReplaceLastKeeps(out: seq<Turn>, t: Turn, n: nat)
    requires n < |out| && TurnsOk(out, n)
    ensures TurnsOk(out[|out| - 1 := t], n) && Pending(out[|out| - 1 := t], |out| - 1) == Pending(out, |out| - 1)
  {
    var res := out[|out| - 1 := t];
    forall i | 0 <= i < n
      ensures TurnOk(res, i)
    {
      assert TurnOk(out, i);
    }
  }

  // What a turn must look like after the given calls, and the calls it leaves waiting.
  predicate FitsAfter(t: Turn, waiting: seq<string>) {
    if t.side == UserSide then Opens(t.blocks, waiting) else waiting == []
  }

  function LeftWaiting(t: Turn): seq<string> {
    if t.side == UserSide then [] else UseIds(t.blocks)
  }

  lemma Pushed(out: seq<Turn>, t: Turn)
    requires TurnsOk(out, |out|) && FitsAfter(t, Pending(out, |out|))
    ensures TurnsOk(out + [t], |out| + 1) && Pending(out + [t], |out| + 1) == LeftWaiting(t)
  {
    PushKeeps(out, t, |out|);
    assert TurnOk(out + [t], |out|);
  }

  lemma Replaced(out: seq<Turn>, t: Turn)
    requires out != [] && TurnsOk(out, |out| - 1) && FitsAfter(t, Pending(out, |out| - 1))
    ensures TurnsOk(out[|out| - 1 := t], |out|) && Pending(out[|out| - 1 := t], |out|) == LeftWaiting(t)
  {
    ReplaceLastKeeps(out, t, |out| - 1);
    assert TurnOk(out[|out| - 1 := t], |out| - 1);
  }

  lemma TextKeepsOpening(blocks: seq<Block>, wanted: seq<string>, text: Block)
    requires Opens(blocks, wanted) && text.TextBlock?
    ensures Opens(blocks + [text], wanted)
  {
    IdsSnoc(blocks, text);
    ResultsAtMost(blocks);
  }

  lemma {:induction false} ResultsAtMost(blocks: seq<Block>)
    ensures |ResultIds(blocks)| <= |blocks|
  {
    if blocks != [] {
      ResultsAtMost(blocks[..|blocks| - 1]);
    }
  }

  lemma UserTextKeeps(out: seq<Turn>, text: Block)
    requires PairedTurns(out) && text.TextBlock?
    ensures PairedTurns(Joined(out, UserSide, [text]))
  {
    if out != [] && out[|out| - 1].side == UserSide {
      var last := out[|out| - 1];
      assert TurnOk(out, |out| - 1);
      TextKeepsOpening(last.blocks, Pending(out, |out| - 1), text);
      Replaced(out, Turn(UserSide, last.blocks + [text]));
    } else {
      TextKeepsOpening([], [], text);
      assert [] + [text] == [text];
      Pushed(out, Turn(UserSide, [text]));
    }
  }

  // Everything is in order but the calls of the last turn, none of which is answered yet.
  predicate Waiting(out: seq<Turn>, ids: seq<string>) {
    out != [] && out[|out| - 1].side == AssistantSide && TurnsOk(out, |out|) && Pending(out, |out|) == ids
  }

  // An assistant message joins at the end; its calls become the calls of the last turn.
  lemma AssistantJoins(out: seq<Turn>, blocks: seq<Block>)
    requires PairedTurns(out) && blocks != []
    ensures Waiting(Joined(out, AssistantSide, blocks), UseIds(blocks))
  {
    if out != [] && out[|out| - 1].side == AssistantSide {
      var last := out[|out| - 1];
      assert TurnOk(out, |out| - 1);
      UseIdsConcat(last.blocks, blocks);
      assert [] + UseIds(blocks) == UseIds(blocks);
      Replaced(out, Turn(AssistantSide, last.blocks + blocks));
    } else {
      Pushed(out, Turn(AssistantSide, blocks));
    }
  }

  predicate OnlyResults(blocks: seq<Block>) {
    forall k :: 0 <= k < |blocks| ==> blocks[k].ToolResult?
  }

  // The last turn holds the first n results, and nothing else, for the turn before it.
  predicate Receiving(out: seq<Turn>, ids: seq<string>, n: nat)
    requires n <= |ids|
  {
    2 <= |out| && out[|out| - 1].side == UserSide && out[|out| - 2].side == AssistantSide
    && TurnsOk(out, |out| - 1) && Pending(out, |out| - 1) == ids
    && OnlyResults(out[|out| - 1].blocks) && ResultIds(out[|out| - 1].blocks) == ids[..n]
  }

  lemma FirstResultJoins(out: seq<Turn>, ids: seq<string>, b: Block)
    requires Waiting(out, ids) && ids != [] && b.ToolResult? && b.id == ids[0]
    ensures Receiving(Joined(out, UserSide, [b]), ids, 1)
  {
    var n := |out|;
    PushKeeps(out, Turn(UserSide, [b]), n);
    IdsSnoc([], b);
    assert [] + [b] == [b] && [b.id] == ids[..1] && ResultIds([]) == [];
    hide TurnOk, TurnsOk, UseIds, ResultIds;
  }

  lemma NextResultJoins(out: seq<Turn>, ids: seq<string>, n: nat, b: Block)
    requires n < |ids| && Receiving(out, ids, n) && b.ToolResult? && b.id == ids[n]
    ensures Receiving(Joined(out, UserSide, [b]), ids, n + 1)
  {
    var m := |out|;
    var res := Joined(out, UserSide, [b]);
    ReplaceLastKeeps(out, res[m - 1], m - 1);
    IdsSnoc(out[m - 1].blocks, b);
    assert ids[..n] + [ids[n]] == ids[..n + 1];
  }

  lemma {:induction false} OnlyResultsLead(blocks: seq<Block>)
    requires OnlyResults(blocks)
    ensures |ResultIds(blocks)| == |blocks|
  {
    if blocks != [] {
      OnlyResultsLead(blocks[..|blocks| - 1]);
    }
  }

  lemma AllReceived(out: seq<Turn>, ids: seq<string>)
    requires Receiving(out, ids, |ids|)
    ensures PairedTurns(out)
  {
    OnlyResultsLead(out[|out| - 1].blocks);
    assert ids[..|ids|] == ids;
    assert TurnOk(out, |out| - 1);
  }

  // The remaining answers arrive one by one.
  lemma {:induction false} ResultsArrive(
    out: seq<Turn>, ids: seq<string>, n: nat, parts: seq<Part>)
    returns (res: seq<Turn>)
    requires n <= |ids| && |ids| - n <= |parts| && Receiving(out, ids, n)
    requires forall k :: n <= k < |ids| ==> IsResultPart(parts[k - n], ids[k])
    ensures PairedTurns(res) && BuiltFrom(out, parts) == BuiltFrom(res, parts[|ids| - n..])
    decreases |ids| - n
  {
    hide PairedTurns, Receiving, Joined;
    if n == |ids| {
      AllReceived(out, ids);
      assert parts[0..] == parts;
      res := out;
    } else {
      assert IsResultPart(parts[n - n], ids[n]);
      var b := parts[0].blocks[0];
      assert parts[0].blocks == [b];
      NextResultJoins(out, ids, n, b);
      var rest := parts[1..];
      forall k | n + 1 <= k < |ids|
        ensures IsResultPart(rest[k - (n + 1)], ids[k])
      {
        assert IsResultPart(parts[k - n], ids[k]);
      }
      res := ResultsArrive(Joined(out, UserSide, parts[0].blocks), ids, n + 1, rest);
      assert rest[|ids| - (n + 1)..] == parts[|ids| - n..];
    }
  }

  predicate IsResultPart(p: Part, id: string) {
    p.side == UserSide && |p.blocks| == 1 && p.blocks[0].ToolResult? && p.blocks[0].id == id
  }

  lemma ExchangeArrives(out: seq<Turn>, blocks: seq<Block>, ids: seq<string>, parts: seq<Part>) returns (res: seq<Turn>)
    requires PairedTurns(out) && blocks != [] && UseIds(blocks) == ids && ids != [] && |ids| <= |parts|
    requires forall k :: 0 <= k < |ids| ==> IsResultPart(parts[k], ids[k])
    ensures PairedTurns(res) && BuiltFrom(Joined(out, AssistantSide, blocks), parts) == BuiltFrom(res, parts[|ids|..])
  {
    AssistantJoins(out, blocks);
    var asked := Joined(out, AssistantSide, blocks);
    assert IsResultPart(parts[0], ids[0]);
    var b := parts[0].blocks[0];
    assert parts[0].blocks == [b];
    FirstResultJoins(asked, ids, b);
    var rest := parts[1..];
    forall k | 1 <= k < |ids|
      ensures IsResultPart(rest[k - 1], ids[k])
    {
      assert IsResultPart(parts[k], ids[k]);
    }
    res := ResultsArrive(Joined(asked, UserSide, [b]), ids, 1, rest);
    assert rest[|ids| - 1..] == parts[|ids|..];
  }

  lemma AnswersAreResultParts(ms: seq<Message>, k: nat)
    requires ms != [] && HasCalls(ms[0]) && HeadBlock(ms) && k < |ms[0].calls|
    ensures IsResultPart(Parts(ms[1..])[k], CallIds(ms[0].calls)[k])
  {
    assert ms[1..1 + |ms[0].calls|][k] == ms[1..][k];
  }

  lemma PartsBehind(ms: seq<Message>, n: nat)
    requires n < |ms|
    ensures Parts(ms)[1..] == Parts(ms[1..]) && Parts(ms[1..])[n..] == Parts(ms[1 + n..])
  {
  }

  // One assistant message with calls, then exactly its answers.
  lemma BlockArrives(out: seq<Turn>, ms: seq<Message>) returns (res: seq<Turn>)
    requires PairedTurns(out) && ms != [] && HasCalls(ms[0]) && HeadBlock(ms)
    ensures PairedTurns(res) && BuiltFrom(out, Parts(ms)) == BuiltFrom(res, Parts(ms[1 + |ms[0].calls|..]))
  {
    var m, n := ms[0], |ms[0].calls|;
    hide PairedTurns, Joined, IsResultPart;
    UseIdsOfMessage(m);
    forall k | 0 <= k < n
      ensures IsResultPart(Parts(ms[1..])[k], CallIds(m.calls)[k])
    {
      AnswersAreResultParts(ms, k);
    }
    hide UseIds, Answers, UseBlocks;
    assert Blocks(m) != [];
    res := ExchangeArrives(out, Blocks(m), CallIds(m.calls), Parts(ms[1..]));
    PartsBehind(ms, n);
  }

  lemma PlainArrives(out: seq<Turn>, m: Message)
    requires PairedTurns(out) && Plain(m)
    ensures PairedTurns(Joined(out, SideOf(m), Blocks(m)))
  {
    if m.role == Assistant {
      UseIdsOfMessage(m);
      if Blocks(m) != [] {
        AssistantJoins(out, Blocks(m));
      }
    } else if Blocks(m) != [] {
      UserTextKeeps(out, TextBlock(m.content));
    }
  }

  lemma {:induction false} PairedFrom(out: seq<Turn>, ms: seq<Message>)
    requires PairedTurns(out) && WellPaired(ms)
    ensures PairedTurns(BuiltFrom(out, Parts(ms)))
    decreases |ms|
  {
    if ms != [] {
      if HasCalls(ms[0]) {
        var res := BlockArrives(out, ms);
        PairedFrom(res, ms[1 + |ms[0].calls|..]);
      } else {
        PlainArrives(out, ms[0]);
        assert Parts(ms)[1..] == Parts(ms[1..]);
        PairedFrom(Joined(out, SideOf(ms[0]), Blocks(ms[0])), ms[1..]);
      }
    }
  }

  // A well-paired conversation becomes turns in which every call is answered, in order, at the
  // head of the very next user turn, and no other result appears anywhere.
  lemma WellPairedBecomesPairedTurns(ms: seq<Message>)
    requires WellPaired(ms)
    ensures PairedTurns(Built(ms))
  {
    PairedFrom([], ms);
  }
}
