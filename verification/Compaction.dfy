/** Session compaction (internal/agent/compaction.go): the oldest middle of the history is
    replaced by one summary message, proactively before a request or once after a
    context-limit error. */
module Compaction {
  import opened Text
  import opened Transcript
  import opened Summarizer

  const DEFAULT_PRESERVE_LAST := 6
  const TRIGGER_RATIO := 0.7
  const SUMMARY_LABEL := "[Summary of earlier conversation]"

  /** Turns the elided middle into a summary. */
  type Summarize = seq<Message> -> Reply

  /** Appends the structured state of the middle to the labelled summary. */
  type Carry = (string, seq<Message>) -> string

  datatype Result =
    | Compacted(messages: seq<Message>, removedCount: nat, preservedCount: nat, summaryText: string)
    | Unchanged(messages: seq<Message>)
    | CompactionError(error: ProviderError)

  function SystemEnd(ms: seq<Message>, from: nat): (end: nat)
    requires from <= |ms|
    ensures from <= end <= |ms|
    ensures forall i | from <= i < end :: ms[i].role == System
    ensures end < |ms| ==> ms[end].role != System
    decreases |ms| - from
  {
    if from < |ms| && ms[from].role == System then SystemEnd(ms, from + 1) else from
  }

  /** How many messages a compaction keeps at least: six unless the caller asks for a positive number. */
  function Keep(preserveLast: int): (keep: nat)
    ensures keep > 0
  {
    if preserveLast <= 0 then DEFAULT_PRESERVE_LAST else preserveLast
  }

  /** The naive boundary: the last messages are kept. */
  function NaiveBoundary(ms: seq<Message>, preserveLast: int): (b: nat)
    ensures SystemEnd(ms, 0) <= b <= |ms|
    ensures b == |ms| ==> SystemEnd(ms, 0) == |ms|
  {
    var keep := Keep(preserveLast);
    if |ms| - keep < SystemEnd(ms, 0) then SystemEnd(ms, 0) else |ms| - keep
  }

  function SafeBoundary(ms: seq<Message>, systemEnd: nat, boundary: nat): (b: nat)
    requires systemEnd <= boundary && (boundary < |ms| || boundary == systemEnd == |ms|)
    ensures systemEnd <= b <= boundary
    ensures b > systemEnd ==> ms[b].role == Assistant
    ensures forall i | b < i <= boundary :: ms[i].role != Assistant
    decreases boundary
  {
    if boundary > systemEnd && ms[boundary].role != Assistant
    then SafeBoundary(ms, systemEnd, boundary - 1) else boundary
  }

  /** Where the preserved suffix of a compaction begins. */
  function Boundary(ms: seq<Message>, preserveLast: int): (b: nat)
    ensures SystemEnd(ms, 0) <= b <= NaiveBoundary(ms, preserveLast)
    ensures b > SystemEnd(ms, 0) ==> b < |ms| && ms[b].role == Assistant
  {
    SafeBoundary(ms, SystemEnd(ms, 0), NaiveBoundary(ms, preserveLast))
  }

  function Middle(ms: seq<Message>, preserveLast: int): seq<Message> {
    ms[SystemEnd(ms, 0)..Boundary(ms, preserveLast)]
  }

  function WithSummary(ms: seq<Message>, preserveLast: int, content: string): seq<Message> {
    ms[..SystemEnd(ms, 0)] + [UserMessage(content)] + ms[Boundary(ms, preserveLast)..]
  }

  function Compact(ms: seq<Message>, preserveLast: int, summarize: Summarize, carry: Carry): Result {
    var middle := Middle(ms, preserveLast);
    if middle == [] then Unchanged(ms)
    else match summarize(middle)
      case Failed(e) => CompactionError(e)
      case Answered(text) =>
        var summary := TrimSpace(text);
        var content := carry(SUMMARY_LABEL + "\n" + summary, middle);
        Compacted(WithSummary(ms, preserveLast, content), |middle|, |ms| - |middle|, summary)
  }

  method SafeSuffixBoundary(messages: seq<Message>, systemEnd: nat, naive: nat) returns (boundary: nat)
    requires systemEnd <= naive && (naive < |messages| || naive == systemEnd == |messages|)
    ensures boundary == SafeBoundary(messages, systemEnd, naive)
  {
    boundary := naive;
    while boundary > systemEnd && messages[boundary].role != Assistant
      invariant systemEnd <= boundary <= naive
      invariant SafeBoundary(messages, systemEnd, naive) == SafeBoundary(messages, systemEnd, boundary)
    {
      boundary := boundary - 1;
    }
  }

  method CompactMessages(messages: seq<Message>, preserveLast: int, summarize: Summarize, carry: Carry)
    returns (result: Result)
    ensures result == Compact(messages, preserveLast, summarize, carry)
    ensures result.Compacted? ==> result.removedCount + result.preservedCount == |messages|
    ensures result.Compacted? ==> |result.messages| == result.preservedCount + 1
  {
    hide TrimSpace, SafeBoundary;
    var keep := preserveLast;
    if keep <= 0 {
      keep := DEFAULT_PRESERVE_LAST;
    }
    var systemEnd := 0;
    while systemEnd < |messages| && messages[systemEnd].role == System
      invariant 0 <= systemEnd <= |messages|
      invariant SystemEnd(messages, 0) == SystemEnd(messages, systemEnd)
    {
      systemEnd := systemEnd + 1;
    }
    var naive := |messages| - keep;
    if naive < systemEnd {
      naive := systemEnd;
    }
    var boundary := SafeSuffixBoundary(messages, systemEnd, naive);
    var middle := messages[systemEnd..boundary];
    if |middle| == 0 {
      return Unchanged(messages);
    }
    var reply := summarize(middle);
    if reply.Failed? {
      return CompactionError(reply.error);
    }
    var summary := TrimSpace(reply.text);
    var content := carry(SUMMARY_LABEL + "\n" + summary, middle);
    var compacted := messages[..systemEnd];
    compacted := compacted + [UserMessage(content)];
    compacted := compacted + messages[boundary..];
    result := Compacted(compacted, |middle|, |messages| - |middle|, summary);
  }

  /** The shape of a compaction. The system head and at least the last keep messages stay
      verbatim around one user message; that message is followed by an assistant message, and the
      kept suffix is the shortest one that allows this. */
  ghost predicate Summarized(ms: seq<Message>, keep: nat, out: seq<Message>, removed: nat) {
    var head := SystemEnd(ms, 0);
    var b := head + removed;
    && removed > 0 && b < |ms| && b + keep <= |ms|
    && |out| == |ms| - removed + 1
    && out[..head] == ms[..head] && out[head].role == User && out[head + 1..] == ms[b..]
    && out[head + 1].role == Assistant
    && (forall i | b < i <= |ms| - keep && i < |ms| :: ms[i].role != Assistant)
  }

  lemma CompactionShape(ms: seq<Message>, preserveLast: int, summarize: Summarize, carry: Carry)
    requires Compact(ms, preserveLast, summarize, carry).Compacted?
    ensures var result := Compact(ms, preserveLast, summarize, carry);
      Summarized(ms, Keep(preserveLast), result.messages, result.removedCount)
  {
    hide TrimSpace, SafeBoundary, SystemEnd, Summarized, WithSummary;
    var middle := Middle(ms, preserveLast);
    WithSummaryShape(ms, preserveLast, carry(SUMMARY_LABEL + "\n" + TrimSpace(summarize(middle).text), middle));
  }

  lemma WithSummaryShape(ms: seq<Message>, preserveLast: int, content: string)
    requires Middle(ms, preserveLast) != []
    ensures Summarized(ms, Keep(preserveLast), WithSummary(ms, preserveLast, content), |Middle(ms, preserveLast)|)
  {
    hide SafeBoundary, SystemEnd, Boundary, NaiveBoundary;
    BoundaryIsLatest(ms, preserveLast);
    KeptBySuffix(ms, preserveLast);
    Around(ms, SystemEnd(ms, 0), Boundary(ms, preserveLast), UserMessage(content));
  }

  lemma KeptBySuffix(ms: seq<Message>, preserveLast: int)
    requires Middle(ms, preserveLast) != []
    ensures NaiveBoundary(ms, preserveLast) == |ms| - Keep(preserveLast)
  {
  }

  lemma Around(ms: seq<Message>, head: nat, b: nat, m: Message)
    requires head < b < |ms|
    ensures var out := ms[..head] + [m] + ms[b..];
      && |out| == |ms| - (b - head) + 1
      && out[..head] == ms[..head] && out[head] == m && out[head + 1..] == ms[b..] && out[head + 1] == ms[b]
  {
    assert ms[b..][0] == ms[b];
  }

  lemma BoundaryIsLatest(ms: seq<Message>, preserveLast: int)
    ensures forall i | Boundary(ms, preserveLast) < i <= NaiveBoundary(ms, preserveLast) :: ms[i].role != Assistant
  {
  }

  /** Nothing is summarized exactly when no assistant message stands between the system head and
      the last preserveLast messages; then the history comes back as it was. */
  lemma NothingToCompact(ms: seq<Message>, preserveLast: int, summarize: Summarize, carry: Carry)
    ensures Compact(ms, preserveLast, summarize, carry) == Unchanged(ms)
       <==> forall i | SystemEnd(ms, 0) < i <= NaiveBoundary(ms, preserveLast) :: ms[i].role != Assistant
  {
    hide TrimSpace, SafeBoundary;
    BoundaryIsLatest(ms, preserveLast);
    assert |Middle(ms, preserveLast)| == Boundary(ms, preserveLast) - SystemEnd(ms, 0);
  }

  /** Compaction never separates a tool call from its result. */
  lemma CompactionKeepsValid(ms: seq<Message>, preserveLast: int, content: string)
    requires Valid(ms) && Middle(ms, preserveLast) != []
    ensures Valid(WithSummary(ms, preserveLast, content))
  {
    var head, b := SystemEnd(ms, 0), Boundary(ms, preserveLast);
    ValidCut(ms, b);
    HeadIsNoAnswer(ms);
    ValidCut(ms, head);
    ValidSnoc(ms[..head], UserMessage(content));
    ValidConcat(ms[..head] + [UserMessage(content)], ms[b..]);
  }

  lemma HeadIsNoAnswer(ms: seq<Message>)
    requires Valid(ms) && SystemEnd(ms, 0) < |ms|
    ensures ms[SystemEnd(ms, 0)].role != Tool
  {
    var head := SystemEnd(ms, 0);
    OnlySystem(ms, head);
    NeverBroken(ms, head + 1);
  }

  lemma {:induction false} OnlySystem(ms: seq<Message>, n: nat)
    requires n <= |ms| && Valid(ms) && forall i | 0 <= i < n :: ms[i].role == System
    ensures ReadTo(SETTLED, ms, n) == SETTLED
  {
    if n > 0 {
      OnlySystem(ms, n - 1);
      NeverBroken(ms, n);
    }
  }
}
