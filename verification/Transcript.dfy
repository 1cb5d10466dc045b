/** Messages of a run and what a strict provider accepts as a replayable history. */
module Transcript {

  datatype Role = System | User | Assistant | Tool

  datatype ToolCall = ToolCall(id: string, name: string, arguments: string)

  datatype Message = Message(role: Role, content: string, toolCalls: seq<ToolCall>, toolCallId: string, images: nat)

  function SystemMessage(content: string): Message { Message(System, content, [], "", 0) }

  function UserMessage(content: string): Message { Message(User, content, [], "", 0) }

  function AssistantMessage(content: string, calls: seq<ToolCall>): Message {
    Message(Assistant, content, calls, "", 0)
  }

  function ToolMessage(content: string, id: string): Message { Message(Tool, content, [], id, 0) }

  function Ids(calls: seq<ToolCall>): (ids: seq<string>)
    ensures |ids| == |calls|
    ensures forall k | 0 <= k < |calls| :: ids[k] == calls[k].id
  {
    seq(|calls|, k requires 0 <= k < |calls| => calls[k].id)
  }

  /** What a reader of the history still owes: the ids of the tool calls that wait
      for their result, oldest first, or Broken once the pairing rule was violated. */
  datatype Owed = Broken | Owes(ids: seq<string>)

  const SETTLED: Owed := Owes([])

  function Read(owed: Owed, m: Message): Owed {
    match owed
    case Broken => Broken
    case Owes(ids) =>
      if m.role == Tool then
        if ids != [] && ids[0] == m.toolCallId && m.toolCalls == [] then Owes(ids[1..]) else Broken
      else if ids == [] && (m.role == Assistant || m.toolCalls == []) then Owes(Ids(m.toolCalls))
      else Broken
  }

  function ReadTo(owed: Owed, ms: seq<Message>, n: nat): Owed
    requires n <= |ms|
  {
    if n == 0 then owed else Read(ReadTo(owed, ms, n - 1), ms[n - 1])
  }

  function ReadAll(owed: Owed, ms: seq<Message>): Owed { ReadTo(owed, ms, |ms|) }

  /** The history can be replayed: nothing is owed at its end. */
  predicate Valid(ms: seq<Message>) {
    ReadAll(SETTLED, ms) == SETTLED
  }

  lemma {:induction false} ReadPrefix(owed: Owed, a: seq<Message>, b: seq<Message>, n: nat)
    requires n <= |a|
    ensures ReadTo(owed, a + b, n) == ReadTo(owed, a, n)
  {
    if n > 0 {
      ReadPrefix(owed, a, b, n - 1);
    }
  }

  lemma {:induction false} ReadSuffix(owed: Owed, a: seq<Message>, b: seq<Message>, n: nat)
    requires n <= |b|
    ensures ReadTo(owed, a + b, |a| + n) == ReadTo(ReadAll(owed, a), b, n)
  {
    if n == 0 {
      ReadPrefix(owed, a, b, |a|);
    } else {
      ReadSuffix(owed, a, b, n - 1);
    }
  }

  lemma ReadConcat(owed: Owed, a: seq<Message>, b: seq<Message>)
    ensures ReadAll(owed, a + b) == ReadAll(ReadAll(owed, a), b)
  {
    ReadSuffix(owed, a, b, |b|);
  }

  lemma {:induction false} BrokenStays(owed: Owed, ms: seq<Message>, k: nat, n: nat)
    requires k <= n <= |ms| && ReadTo(owed, ms, k) == Broken
    ensures ReadTo(owed, ms, n) == Broken
  {
    if k < n {
      BrokenStays(owed, ms, k, n - 1);
    }
  }

  lemma ValidConcat(a: seq<Message>, b: seq<Message>)
    requires Valid(a) && Valid(b)
    ensures Valid(a + b)
  {
    ReadConcat(SETTLED, a, b);
  }

  /** A message that is no tool result and calls no tool can follow any valid history. */
  lemma ValidSnoc(a: seq<Message>, m: Message)
    requires Valid(a) && m.role != Tool && m.toolCalls == []
    ensures Valid(a + [m])
  {
    ReadSuffix(SETTLED, a, [m], 1);
  }

  lemma NeverBroken(ms: seq<Message>, n: nat)
    requires Valid(ms) && n <= |ms|
    ensures ReadTo(SETTLED, ms, n) != Broken
  {
    if ReadTo(SETTLED, ms, n) == Broken {
      BrokenStays(SETTLED, ms, n, |ms|);
    }
  }

  /** A valid history may be cut before any message that is not a tool result. */
  lemma ValidCut(ms: seq<Message>, cut: nat)
    requires Valid(ms) && cut <= |ms|
    requires cut < |ms| ==> ms[cut].role != Tool
    ensures Valid(ms[..cut]) && Valid(ms[cut..])
  {
    var a, b := ms[..cut], ms[cut..];
    assert ms == a + b;
    ReadConcat(SETTLED, a, b);
    ReadPrefix(SETTLED, a, b, cut);
    if cut < |ms| {
      NeverBroken(ms, cut + 1);
    }
  }

  /** The rule of the providers, said position by position: only assistant messages
      call tools, the n calls of one are answered by the n messages that follow it,
      in order and by id, and no tool result stands anywhere else. */
  ghost predicate Paired(ms: seq<Message>) {
    && (forall i | 0 <= i < |ms| && ms[i].toolCalls != [] :: ms[i].role == Assistant)
    && (forall i, k | 0 <= i < |ms| && 0 <= k < |ms[i].toolCalls| :: Answers(ms, i, k))
    && (forall i | 0 <= i < |ms| && ms[i].role == Tool :: exists j, k :: IsAnswer(ms, j, k, i))
  }

  ghost predicate Answers(ms: seq<Message>, i: nat, k: nat)
    requires i < |ms| && k < |ms[i].toolCalls|
  {
    i + 1 + k < |ms| && ms[i + 1 + k].role == Tool && ms[i + 1 + k].toolCallId == ms[i].toolCalls[k].id
  }

  ghost predicate IsAnswer(ms: seq<Message>, j: nat, k: nat, i: nat) {
    j < |ms| && k < |ms[j].toolCalls| && j + 1 + k == i
  }

  /** What is owed after a prefix that is not broken: nothing, or the tail of the calls
      of the one assistant message that is still being answered. */
  lemma {:induction false} OwedByOne(ms: seq<Message>, n: nat) returns (j: nat)
    requires n <= |ms| && ReadTo(SETTLED, ms, n) != Broken
    ensures var owed := ReadTo(SETTLED, ms, n).ids;
      owed != [] ==>
        && j < n && n - 1 - j < |ms[j].toolCalls| && ms[j].role == Assistant
        && owed == Ids(ms[j].toolCalls)[n - 1 - j..]
  {
    j := 0;
    if n > 0 {
      j := OwedByOne(ms, n - 1);
      if ms[n - 1].role != Tool {
        j := n - 1;
      }
    }
  }

  lemma {:induction false} CallsAreAnswered(ms: seq<Message>, i: nat, k: nat)
    requires Valid(ms) && i < |ms| && k <= |ms[i].toolCalls| && ms[i].role != Tool
    ensures i + 1 + k <= |ms|
    ensures ReadTo(SETTLED, ms, i + 1 + k) == Owes(Ids(ms[i].toolCalls)[k..])
    ensures forall l | 0 <= l < k :: Answers(ms, i, l)
  {
    if k == 0 {
      NeverBroken(ms, i + 1);
    } else {
      CallsAreAnswered(ms, i, k - 1);
      if i + k < |ms| {
        NeverBroken(ms, i + k + 1);
      }
    }
  }

  predicate ResultFor(m: Message, id: string) {
    m.role == Tool && m.toolCallId == id && m.toolCalls == []
  }

  /** Results that answer the owed calls one by one pay them off. */
  lemma {:induction false} AnswersPay(ms: seq<Message>, i: nat, ids: seq<string>, n: nat)
    requires i + n <= |ms| && n <= |ids| && ReadTo(SETTLED, ms, i) == Owes(ids)
    requires forall j | i <= j < i + n :: ResultFor(ms[j], ids[j - i])
    ensures ReadTo(SETTLED, ms, i + n) == Owes(ids[n..])
  {
    if n > 0 {
      AnswersPay(ms, i, ids, n - 1);
      assert ids[n - 1..][0] == ids[n - 1];
    }
  }

  /** Nothing is owed before position i, and every earlier call is answered before it. */
  ghost predicate SettledAt(ms: seq<Message>, i: nat)
    requires i <= |ms|
  {
    ReadTo(SETTLED, ms, i) == SETTLED && forall j | 0 <= j < i :: j + |ms[j].toolCalls| < i
  }

  lemma SettledStep(ms: seq<Message>, i: nat)
    requires Paired(ms) && i < |ms| && SettledAt(ms, i)
    ensures var next := i + 1 + |ms[i].toolCalls|;
      next <= |ms| && SettledAt(ms, next)
  {
    var n := |ms[i].toolCalls|;
    assert forall j, k :: !IsAnswer(ms, j, k, i);
    if n > 0 {
      assert Answers(ms, i, n - 1);
    }
    forall j | i < j < i + 1 + n ensures ResultFor(ms[j], Ids(ms[i].toolCalls)[j - i - 1]) {
      assert Answers(ms, i, j - i - 1);
    }
    AnswersPay(ms, i + 1, Ids(ms[i].toolCalls), n);
  }

  lemma {:induction false} PairedFrom(ms: seq<Message>, i: nat)
    requires Paired(ms) && i <= |ms| && SettledAt(ms, i)
    ensures Valid(ms)
    decreases |ms| - i
  {
    if i < |ms| {
      hide Paired, SettledAt;
      SettledStep(ms, i);
      PairedFrom(ms, i + 1 + |ms[i].toolCalls|);
    }
  }

  /** The two readings of the rule agree on every history. */
  lemma ValidIffPaired(ms: seq<Message>)
    ensures Valid(ms) <==> Paired(ms)
  {
    if Paired(ms) {
      PairedFrom(ms, 0);
    }
    if Valid(ms) {
      forall i | 0 <= i < |ms| ensures ms[i].toolCalls != [] ==> ms[i].role == Assistant {
        NeverBroken(ms, i + 1);
      }
      forall i, k | 0 <= i < |ms| && 0 <= k < |ms[i].toolCalls| ensures Answers(ms, i, k) {
        CallsAreAnswered(ms, i, k + 1);
      }
      forall i | 0 <= i < |ms| && ms[i].role == Tool ensures exists j, k :: IsAnswer(ms, j, k, i) {
        NeverBroken(ms, i + 1);
        var j := OwedByOne(ms, i);
        assert IsAnswer(ms, j, i - 1 - j, i);
      }
    }
  }
}
