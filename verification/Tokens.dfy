/** The token estimate behind every compaction decision (internal/agent/compaction.go). */
module Tokens {
  import opened Text
  import opened Transcript

  const IMAGE_TOKENS := 1000
  const CALL_OVERHEAD := 4
  const MESSAGE_OVERHEAD := 4

  predicate IsAsciiSpace(c: char) {
    c == ' ' || '\t' <= c <= '\r'
  }

  /** The bytes of the first n characters that are not ASCII white space. */
  function InkTo(value: string, n: nat): nat
    requires n <= |value|
  {
    if n == 0 then 0
    else InkTo(value, n - 1) + if IsAsciiSpace(value[n - 1]) then 0 else Utf8Width(value[n - 1])
  }

  function TextTokens(value: string): nat { InkTo(value, |value|) / 4 }

  function CallTokens(calls: seq<ToolCall>, n: nat): nat
    requires n <= |calls|
  {
    if n == 0 then 0
    else CallTokens(calls, n - 1)
         + TextTokens(calls[n - 1].name) + TextTokens(calls[n - 1].arguments) + CALL_OVERHEAD
  }

  function MessageTokens(m: Message): nat {
    TextTokens(m.content) + CallTokens(m.toolCalls, |m.toolCalls|) + m.images * IMAGE_TOKENS + MESSAGE_OVERHEAD
  }

  function EstimateTo(ms: seq<Message>, n: nat): nat
    requires n <= |ms|
  {
    if n == 0 then 0 else EstimateTo(ms, n - 1) + MessageTokens(ms[n - 1])
  }

  function Estimate(ms: seq<Message>): nat { EstimateTo(ms, |ms|) }

  method ApproxTextTokens(value: string) returns (tokens: nat)
    ensures tokens == TextTokens(value)
  {
    var nonSpace := 0;
    for i := 0 to |value|
      invariant nonSpace == InkTo(value, i)
    {
      if !IsAsciiSpace(value[i]) {
        nonSpace := nonSpace + Utf8Width(value[i]);
      }
    }
    tokens := nonSpace / 4;
  }

  method EstimateTokens(messages: seq<Message>) returns (total: nat)
    ensures total == Estimate(messages)
  {
    total := 0;
    for i := 0 to |messages|
      invariant total == EstimateTo(messages, i)
    {
      var m := messages[i];
      var t := ApproxTextTokens(m.content);
      total := total + t;
      for j := 0 to |m.toolCalls|
        invariant total == EstimateTo(messages, i) + TextTokens(m.content) + CallTokens(m.toolCalls, j)
      {
        var name := ApproxTextTokens(m.toolCalls[j].name);
        var arguments := ApproxTextTokens(m.toolCalls[j].arguments);
        total := total + name + arguments + CALL_OVERHEAD;
      }
      total := total + m.images * IMAGE_TOKENS;
      total := total + MESSAGE_OVERHEAD;
    }
  }

  lemma {:induction false} EstimatePrefix(a: seq<Message>, b: seq<Message>, n: nat)
    requires n <= |a|
    ensures EstimateTo(a + b, n) == EstimateTo(a, n)
  {
    if n > 0 {
      EstimatePrefix(a, b, n - 1);
    }
  }

  lemma {:induction false} EstimateSuffix(a: seq<Message>, b: seq<Message>, n: nat)
    requires n <= |b|
    ensures EstimateTo(a + b, |a| + n) == Estimate(a) + EstimateTo(b, n)
  {
    if n == 0 {
      EstimatePrefix(a, b, |a|);
    } else {
      EstimateSuffix(a, b, n - 1);
    }
  }

  /** The estimate is additive, so removing messages always lowers it. */
  lemma EstimateConcat(a: seq<Message>, b: seq<Message>)
    ensures Estimate(a + b) == Estimate(a) + Estimate(b)
  {
    EstimateSuffix(a, b, |b|);
  }
}
