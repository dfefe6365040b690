// Provider-independent conversation messages (internal/llm/types.go).
//
// `WellPaired` is the pairing protocol every request must follow; the lemmas say which ways of
// cutting, joining and thinning out a conversation keep it.
module Messages {
  import opened Options

  datatype Role = System | User | Assistant | Tool

  datatype ToolCall = ToolCall(id: string, name: string, arguments: string)

  // Opaque continuation data, bound to the provider instance and model that produced it.
  datatype ReasoningState = ReasoningState(provider: string, model: string, payload: string)

  datatype Reasoning = Reasoning(summary: string, state: Option<ReasoningState>)

  datatype Message =
    Message(role: Role, content: string, calls: seq<ToolCall>, callId: string, reasoning: Option<Reasoning>)

  function SystemMessage(content: string): Message {
    Message(System, content, [], "", None)
  }

  function UserMessage(content: string): Message {
    Message(User, content, [], "", None)
  }

  function AssistantMessage(content: string): Message {
    Message(Assistant, content, [], "", None)
  }

  function ToolMessage(content: string, callId: string): Message {
    Message(Tool, content, [], callId, None)
  }

  predicate HasCalls(m: Message) {
    m.role == Assistant && m.calls != []
  }

  // One tool message per call, in call order.
  predicate Answers(calls: seq<ToolCall>, ts: seq<Message>) {
    |ts| == |calls| && forall k :: 0 <= k < |ts| ==> ts[k].role == Tool && ts[k].callId == calls[k].id
  }

  // The block at the head of ms: an assistant message with calls and its answers.
  predicate HeadBlock(ms: seq<Message>)
    requires ms != [] && HasCalls(ms[0])
  {
    |ms[0].calls| < |ms| && Answers(ms[0].calls, ms[1..1 + |ms[0].calls|])
  }

  // Every assistant message with calls is followed at once by its answers, and tool messages
  // appear nowhere else.
  predicate WellPaired(ms: seq<Message>)
    decreases |ms|
  {
    if ms == [] then true
    else if ms[0].role == Tool then false
    else if HasCalls(ms[0]) then HeadBlock(ms) && WellPaired(ms[1 + |ms[0].calls|..])
    else WellPaired(ms[1..])
  }

  // The same protocol read position by position.
  ghost predicate PairedAt(ms: seq<Message>, i: nat)
    requires i < |ms|
  {
    && (HasCalls(ms[i]) ==> i + |ms[i].calls| < |ms| && Answers(ms[i].calls, ms[i + 1..i + 1 + |ms[i].calls|]))
    && (ms[i].role == Tool ==> exists j :: 0 <= j < i && HasCalls(ms[j]) && i <= j + |ms[j].calls|)
  }

  // Positions of a suffix keep their meaning in the whole list.
  lemma PairedInSuffix(ms: seq<Message>, d: nat, k: nat)
    requires d <= |ms| && k < |ms[d..]| && PairedAt(ms[d..], k)
    ensures PairedAt(ms, d + k)
  {
    var rest, m := ms[d..], |ms[d + k].calls|;
    assert rest[k] == ms[d + k];
    if HasCalls(rest[k]) {
      assert rest[k + 1..k + 1 + m] == ms[d + k + 1..d + k + 1 + m];
    }
    if rest[k].role == Tool {
      var j :| 0 <= j < k && HasCalls(rest[j]) && k <= j + |rest[j].calls|;
      assert rest[j] == ms[d + j];
    }
  }

  lemma {:induction false} WellPairedMeans(ms: seq<Message>, i: nat)
    requires WellPaired(ms) && i < |ms|
    ensures PairedAt(ms, i)
    decreases |ms|
  {
    var n := if HasCalls(ms[0]) then |ms[0].calls| else 0;
    if i <= n {
      if 0 < i {
        assert ms[i] == ms[1..1 + n][i - 1];
      }
    } else {
      WellPairedMeans(ms[1 + n..], i - 1 - n);
      PairedInSuffix(ms, 1 + n, i - 1 - n);
    }
  }

  lemma {:induction false} WellPairedConcat(a: seq<Message>, b: seq<Message>)
    requires WellPaired(a) && WellPaired(b)
    ensures WellPaired(a + b)
    decreases |a|
  {
    if a == [] {
      assert a + b == b;
    } else {
      hide Answers;
      var n := if HasCalls(a[0]) then |a[0].calls| else 0;
      assert (a + b)[1 + n..] == a[1 + n..] + b;
      assert (a + b)[1..1 + n] == a[1..1 + n];
      WellPairedConcat(a[1 + n..], b);
    }
  }

  predicate Plain(m: Message) {
    m.role != Tool && !HasCalls(m)
  }

  lemma {:induction false} PlainIsWellPaired(ms: seq<Message>)
    requires forall i :: 0 <= i < |ms| ==> Plain(ms[i])
    ensures WellPaired(ms)
    decreases |ms|
  {
    if ms != [] {
      PlainIsWellPaired(ms[1..]);
    }
  }

  lemma WellPairedAppendPlain(ms: seq<Message>, m: Message)
    requires WellPaired(ms) && Plain(m)
    ensures WellPaired(ms + [m])
  {
    WellPairedConcat(ms, [m]);
  }

  // An assistant message followed by exactly its answers is one well-paired piece.
  lemma BlockIsWellPaired(m: Message, answers: seq<Message>)
    requires m.role == Assistant && Answers(m.calls, answers)
    ensures WellPaired([m] + answers)
  {
    var ms := [m] + answers;
    assert ms[1..] == answers && ms[1..1 + |m.calls|] == answers && ms[1 + |m.calls|..] == [];
  }

  // Same roles, calls and answered IDs; contents and reasoning may differ.
  predicate SameShape(a: seq<Message>, b: seq<Message>) {
    |a| == |b| && forall i :: 0 <= i < |a| ==> SameLinks(a[i], b[i])
  }

  predicate SameLinks(m: Message, m': Message) {
    m'.role == m.role && (m.role == Assistant ==> m'.calls == m.calls) && (m.role == Tool ==> m'.callId == m.callId)
  }

  lemma {:induction false} SameShapeKeepsPairing(a: seq<Message>, b: seq<Message>)
    requires SameShape(a, b) && WellPaired(a)
    ensures WellPaired(b)
    decreases |a|
  {
    if a != [] {
      var n := if HasCalls(a[0]) then |a[0].calls| else 0;
      if HasCalls(a[0]) {
        assert Answers(b[0].calls, b[1..1 + n]) by {
          var x, y := a[1..1 + n], b[1..1 + n];
          assert forall k :: 0 <= k < n ==> SameLinks(x[k], y[k]);
        }
      }
      SameShapeKeepsPairing(a[1 + n..], b[1 + n..]);
    }
  }

  // A well-paired list is its head piece, a single message or a block, followed by a well-paired
  // list.
  lemma HeadPiece(ms: seq<Message>) returns (n: nat)
    requires WellPaired(ms) && ms != []
    ensures 1 <= n <= |ms| && WellPaired(ms[..n]) && WellPaired(ms[n..])
    ensures n == 1 || HasCalls(ms[0])
    ensures forall i :: 1 <= i < n ==> ms[i].role == Tool
  {
    n := 1 + if HasCalls(ms[0]) then |ms[0].calls| else 0;
    var head := ms[..n];
    assert head[1..n] == ms[1..n] && head[n..] == [];
    forall i | 1 <= i < n
      ensures ms[i].role == Tool
    {
      assert ms[i] == ms[1..n][i - 1];
    }
  }

  lemma SplitBehindHead(ms: seq<Message>, n: nat, s: nat)
    requires n <= s <= |ms| && WellPaired(ms[..n]) && WellPaired(ms[n..][..s - n]) && WellPaired(ms[n..][s - n..])
    ensures WellPaired(ms[..s]) && WellPaired(ms[s..])
  {
    WellPairedConcat(ms[..n], ms[n..][..s - n]);
    assert ms[..n] + ms[n..][..s - n] == ms[..s];
    assert ms[n..][s - n..] == ms[s..];
  }

  // Cutting before anything but a tool message leaves both halves well paired.
  lemma {:induction false} SplitKeepsPairing(ms: seq<Message>, s: nat)
    requires WellPaired(ms) && s <= |ms| && (s < |ms| ==> ms[s].role != Tool)
    ensures WellPaired(ms[..s]) && WellPaired(ms[s..])
    decreases |ms|
  {
    if s == 0 {
      assert ms[0..] == ms;
    } else {
      var n := HeadPiece(ms);
      SplitKeepsPairing(ms[n..], s - n);
      SplitBehindHead(ms, n, s);
    }
  }

  // The messages `drop` does not select, in order.
  function Without(ms: seq<Message>, drop: Message -> bool): seq<Message> {
    if ms == [] then [] else
      var last := ms[|ms| - 1];
      Without(ms[..|ms| - 1], drop) + (if drop(last) then [] else [last])
  }

  lemma {:induction false} WithoutConcat(a: seq<Message>, b: seq<Message>, drop: Message -> bool)
    ensures Without(a + b, drop) == Without(a, drop) + Without(b, drop)
    decreases |b|
  {
    if b == [] {
      assert a + b == a;
    } else {
      var init, last := b[..|b| - 1], b[|b| - 1];
      assert (a + b)[..|a + b| - 1] == a + init && (a + b)[|a + b| - 1] == last;
      WithoutConcat(a, init, drop);
    }
  }

  lemma {:induction false} WithoutNothing(ms: seq<Message>, drop: Message -> bool)
    requires forall i :: 0 <= i < |ms| ==> !drop(ms[i])
    ensures Without(ms, drop) == ms
    decreases |ms|
  {
    if ms != [] {
      WithoutNothing(ms[..|ms| - 1], drop);
    }
  }

  lemma {:induction false} WithoutLength(ms: seq<Message>, drop: Message -> bool)
    ensures |Without(ms, drop)| <= |ms|
    ensures |Without(ms, drop)| == |ms| <==> forall i :: 0 <= i < |ms| ==> !drop(ms[i])
  {
    if ms != [] {
      WithoutLength(ms[..|ms| - 1], drop);
    }
  }

  // One message, or a block nothing of which is dropped.
  lemma WithoutHead(head: seq<Message>, drop: Message -> bool)
    requires WellPaired(head) && head != [] && (|head| == 1 || HasCalls(head[0]))
    requires forall i :: 1 <= i < |head| ==> head[i].role == Tool
    requires forall m :: drop(m) ==> m.role == User || m.role == System
    ensures WellPaired(Without(head, drop))
  {
    if |head| == 1 {
      assert head == [head[0]] && head[..0] == [] && Without(head[..0], drop) == [];
      assert Without(head, drop) == if drop(head[0]) then [] else head;
    } else {
      WithoutNothing(head, drop);
    }
  }

  // Removing user and system messages cannot separate calls from their answers.
  lemma {:induction false} WithoutKeepsPairing(ms: seq<Message>, drop: Message -> bool)
    requires WellPaired(ms) && forall m :: drop(m) ==> m.role == User || m.role == System
    ensures WellPaired(Without(ms, drop))
    decreases |ms|
  {
    if ms != [] {
      var n := HeadPiece(ms);
      var head, rest := ms[..n], ms[n..];
      assert head + rest == ms;
      WithoutConcat(head, rest, drop);
      WithoutHead(head, drop);
      WithoutKeepsPairing(rest, drop);
      WellPairedConcat(Without(head, drop), Without(rest, drop));
    }
  }
}
