/**
 Chat messages, when a list of them is well paired, and one turn's append-only
 conversation (internal/llm/types.go, internal/agent/conversation.go).
 */
module Chat {
  import opened Text

  datatype Role = System | User | Assistant | Tool

  datatype ToolCall = ToolCall(id: string, name: string, arguments: string)

  datatype Message = Message(
    role: Role, content: string, toolCalls: seq<ToolCall>, toolCallId: string, name: string)

  function Say(role: Role, content: string): Message {
    Message(role, content, [], "", "")
  }

  function CallMessage(call: ToolCall): Message {
    Message(Assistant, "", [call], "", "")
  }

  function ResultMessage(call: ToolCall, content: string): Message {
    Message(Tool, content, [], call.id, call.name)
  }

  // ---------- Pairing ----------

  predicate IsCall(m: Message) {
    m.role == Assistant && m.toolCalls != []
  }

  predicate Plain(m: Message) {
    !IsCall(m) && m.role != Tool
  }

  predicate AnsweredBy(m: Message, r: Message) {
    |m.toolCalls| == 1 && r.role == Tool && r.toolCallId == m.toolCalls[0].id
  }

  /** Each call is followed at once by its one result, and no result stands alone. */
  predicate Paired(ms: seq<Message>) {
    if ms == [] then true
    else if IsCall(ms[0]) then |ms| >= 2 && AnsweredBy(ms[0], ms[1]) && Paired(ms[2..])
    else Plain(ms[0]) && Paired(ms[1..])
  }

  ghost predicate Adjacent(ms: seq<Message>) {
    && (forall i :: 0 <= i < |ms| && IsCall(ms[i]) ==> i + 1 < |ms| && AnsweredBy(ms[i], ms[i + 1]))
    && (forall i :: 0 <= i < |ms| && ms[i].role == Tool ==> i > 0 && IsCall(ms[i - 1]) && AnsweredBy(ms[i - 1], ms[i]))
  }

  /** Pairing, said of positions rather than by recursion. */
  lemma {:induction false} PairedIsAdjacent(ms: seq<Message>)
    ensures Paired(ms) <==> Adjacent(ms)
  {
    if ms != [] {
      if IsCall(ms[0]) {
        if |ms| >= 2 && AnsweredBy(ms[0], ms[1]) {
          PairedIsAdjacent(ms[2..]);
          PrefixOff(ms, 2);
        }
      } else {
        PairedIsAdjacent(ms[1..]);
        PrefixOff(ms, 1);
      }
    }
  }

  lemma {:induction false} PrefixOff(ms: seq<Message>, n: nat)
    requires n == 1 || n == 2
    requires |ms| >= n && (if n == 2 then IsCall(ms[0]) && AnsweredBy(ms[0], ms[1]) else !IsCall(ms[0]))
    ensures Adjacent(ms) <==> (n == 2 || Plain(ms[0])) && Adjacent(ms[n..])
  {
    var rest := ms[n..];
    assert forall i :: 0 <= i < |rest| ==> rest[i] == ms[n + i];
    if Adjacent(ms) {
      forall i | 0 <= i < |rest| && rest[i].role == Tool
        ensures i > 0 && IsCall(rest[i - 1]) && AnsweredBy(rest[i - 1], rest[i])
      {
        assert ms[n + i].role == Tool && IsCall(ms[n + i - 1]);
        assert i > 0;
      }
      forall i | 0 <= i < |rest| && IsCall(rest[i]) ensures i + 1 < |rest| && AnsweredBy(rest[i], rest[i + 1]) {
        assert IsCall(ms[n + i]);
      }
    }
    if (n == 2 || Plain(ms[0])) && Adjacent(rest) {
      forall i | 0 <= i < |ms| && ms[i].role == Tool
        ensures i > 0 && IsCall(ms[i - 1]) && AnsweredBy(ms[i - 1], ms[i])
      {
        assert i >= n ==> ms[i] == rest[i - n];
      }
      forall i | 0 <= i < |ms| && IsCall(ms[i]) ensures i + 1 < |ms| && AnsweredBy(ms[i], ms[i + 1]) {
        assert i >= n ==> ms[i] == rest[i - n];
      }
    }
  }

  lemma {:induction false} PairedJoin(a: seq<Message>, b: seq<Message>)
    requires Paired(a) && Paired(b)
    ensures Paired(a + b)
  {
    if a == [] {
      assert a + b == b;
    } else if IsCall(a[0]) {
      PairedJoin(a[2..], b);
      assert (a + b)[2..] == a[2..] + b;
    } else {
      PairedJoin(a[1..], b);
      assert (a + b)[1..] == a[1..] + b;
    }
  }

  lemma {:induction false} PairedPlain(ms: seq<Message>)
    requires forall m :: m in ms ==> Plain(m)
    ensures Paired(ms)
  {
    if ms != [] {
      assert ms[0] in ms;
      PairedPlain(ms[1..]);
    }
  }

  lemma PairedExchange(call: ToolCall, content: string)
    ensures Paired([CallMessage(call), ResultMessage(call, content)])
  {
    var ms := [CallMessage(call), ResultMessage(call, content)];
    assert ms[2..] == [];
  }

  // ---------- Size ----------

  function CallBytes(calls: seq<ToolCall>): nat {
    if calls == [] then 0
    else ByteLen(calls[0].arguments) + ByteLen(calls[0].name) + CallBytes(calls[1..])
  }

  function MessageBytes(m: Message): nat {
    ByteLen(m.content) + CallBytes(m.toolCalls)
  }

  /** Contents, call names and call arguments, summed. */
  function Bytes(ms: seq<Message>): nat {
    if ms == [] then 0 else MessageBytes(ms[0]) + Bytes(ms[1..])
  }

  lemma {:induction false} BytesJoin(a: seq<Message>, b: seq<Message>)
    ensures Bytes(a + b) == Bytes(a) + Bytes(b)
  {
    if a == [] {
      assert a + b == b;
    } else {
      BytesJoin(a[1..], b);
      assert (a + b)[1..] == a[1..] + b;
    }
  }

  /** A call's name alone makes the conversation grow. */
  lemma {:induction false} CallGrows(ms: seq<Message>, call: ToolCall)
    requires call.name != ""
    ensures Bytes(ms + [CallMessage(call)]) >= Bytes(ms) + 1
  {
    BytesJoin(ms, [CallMessage(call)]);
    assert Bytes([CallMessage(call)]) == CallBytes([call]) == ByteLen(call.arguments) + ByteLen(call.name);
  }

  // ---------- The conversation ----------

  // harness: where in messages the ones stand that a saved exchange leaves out.
  datatype Transcript = Transcript(messages: seq<Message>, turnStart: nat, harness: set<nat>)

  function With(t: Transcript, m: Message): Transcript {
    t.(messages := t.messages + [m])
  }

  function WithHarness(t: Transcript, m: Message): Transcript {
    t.(messages := t.messages + [m], harness := t.harness + {|t.messages|})
  }

  function Opening(systemPrompt: string, history: seq<Message>): Transcript {
    var msgs := (if systemPrompt != "" then [Say(System, systemPrompt)] else []) + history;
    Transcript(msgs, |msgs|, {})
  }

  function VisibleFrom(ms: seq<Message>, harness: set<nat>, i: nat): seq<Message>
    decreases |ms| - i
  {
    if i >= |ms| then [] else (if i in harness then [] else [ms[i]]) + VisibleFrom(ms, harness, i + 1)
  }

  /** From turnStart on, every message that is not marked. */
  function TurnMessages(t: Transcript): seq<Message> {
    VisibleFrom(t.messages, t.harness, t.turnStart)
  }

  /** Only plain messages are marked as the harness's own, and marks are positions in the list. */
  ghost predicate HarnessIsPlain(t: Transcript) {
    forall i :: i in t.harness ==> i < |t.messages| && Plain(t.messages[i])
  }

  lemma {:induction false} VisibleIsPaired(ms: seq<Message>, harness: set<nat>, i: nat)
    requires i <= |ms| && Paired(ms[i..]) && HarnessIsPlain(Transcript(ms, 0, harness))
    ensures Paired(VisibleFrom(ms, harness, i))
    decreases |ms| - i
  {
    if i < |ms| {
      if IsCall(ms[i]) {
        assert ms[i..][2..] == ms[i + 2..];
        assert ms[i..][1] == ms[i + 1];
        VisibleIsPaired(ms, harness, i + 2);
        var rest := VisibleFrom(ms, harness, i + 2);
        assert VisibleFrom(ms, harness, i + 1) == [ms[i + 1]] + rest;
        assert ([ms[i]] + ([ms[i + 1]] + rest))[2..] == rest;
      } else {
        assert ms[i..][1..] == ms[i + 1..];
        VisibleIsPaired(ms, harness, i + 1);
        var rest := VisibleFrom(ms, harness, i + 1);
        assert i !in harness ==> ([ms[i]] + rest)[1..] == rest;
        assert [] + rest == rest;
      }
    }
  }

  lemma {:induction false} VisibleJoin(ms: seq<Message>, m: Message, harness: set<nat>, i: nat)
    requires i <= |ms|
    ensures VisibleFrom(ms + [m], harness, i)
         == VisibleFrom(ms, harness, i) + (if |ms| in harness then [] else [m])
    decreases |ms| - i
  {
    if i < |ms| {
      VisibleJoin(ms, m, harness, i + 1);
    } else {
      assert VisibleFrom(ms + [m], harness, i + 1) == [];
    }
  }

  class Conversation {
    var messages: seq<Message>
    const turnStart: nat
    var harness: set<nat>

    ghost function View(): Transcript
      reads this
    {
      Transcript(messages, turnStart, harness)
    }

    constructor (systemPrompt: string, history: seq<Message>)
      ensures View() == Opening(systemPrompt, history)
    {
      var msgs: seq<Message> := [];
      if systemPrompt != "" {
        msgs := msgs + [Say(System, systemPrompt)];
      }
      msgs := msgs + history;
      messages, turnStart, harness := msgs, |msgs|, {};
    }

    method Append(m: Message)
      modifies this
      ensures View() == With(old(View()), m)
    {
      messages := messages + [m];
    }

    method AppendHarness(m: Message)
      modifies this
      ensures View() == WithHarness(old(View()), m)
    {
      harness := harness + {|messages|};
      messages := messages + [m];
    }

    method CountBytes() returns (n: nat)
      ensures n == Bytes(messages)
    {
      n := 0;
      for i := 0 to |messages|
        invariant n + Bytes(messages[i..]) == Bytes(messages)
      {
        var m := messages[i];
        n := n + ByteLen(m.content);
        for j := 0 to |m.toolCalls|
          invariant n + CallBytes(m.toolCalls[j..]) + Bytes(messages[i + 1..]) == Bytes(messages)
        {
          n := n + ByteLen(m.toolCalls[j].arguments) + ByteLen(m.toolCalls[j].name);
          assert m.toolCalls[j..][1..] == m.toolCalls[j + 1..];
        }
        assert messages[i..][1..] == messages[i + 1..];
      }
    }

    method ThisTurn() returns (out: seq<Message>)
      ensures out == TurnMessages(View())
    {
      out := [];
      var i := turnStart;
      while i < |messages|
        invariant i <= |messages| || i == turnStart
        invariant out + VisibleFrom(messages, harness, i) == TurnMessages(View())
      {
        if i !in harness {
          out := out + [messages[i]];
        }
        i := i + 1;
      }
    }
  }
}
