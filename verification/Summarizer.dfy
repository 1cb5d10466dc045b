/** Summarizing a slice that may not fit the summarizer's own window
    (internal/agent/compaction.go, summarizeWithFallback). */
module Summarizer {
  import opened Text
  import opened Transcript

  /** One provider error, by what the loop's substring predicates make of it. */
  datatype ProviderError = ProviderError(contextLimit: bool, imageRejected: bool, timeout: bool, transient: bool,
                                         text: string)

  datatype Reply = Answered(text: string) | Failed(error: ProviderError)

  /** The summarizer model: the reply to the n-th request of a run, given its input. */
  type Model = (nat, seq<Message>) -> Reply

  datatype Request = Request(input: seq<Message>, reply: Reply)

  /** A finished summarization: its result, the requests it sent, and the slices it answered directly. */
  datatype Outcome = Outcome(result: Reply, log: seq<Request>, leaves: seq<seq<Message>>)

  function Once(model: Model, n: nat, ms: seq<Message>): Reply { model(n, ms) }

  function Combined(left: string, right: string): seq<Message> {
    [UserMessage(TrimSpace(left + "\n\n" + right))]
  }

  /** Both halves are done: the partial summaries are summarized again, and the joined text
      stands in when even they do not fit. */
  function Join(model: Model, n: nat, head: Request, left: Outcome, right: Outcome): Outcome
    requires left.result.Answered?
  {
    var log := [head] + left.log + right.log;
    var leaves := left.leaves + right.leaves;
    if right.result.Failed? then Outcome(right.result, log, leaves)
    else
      var both := Combined(left.result.text, right.result.text);
      var reduced := Once(model, n + |log|, both);
      var result := if reduced.Failed? && reduced.error.contextLimit then Answered(both[0].content) else reduced;
      Outcome(result, log + [Request(both, reduced)], leaves)
  }

  function SummarizeWithFallback(model: Model, n: nat, ms: seq<Message>): Outcome
    decreases |ms|
  {
    var first := Once(model, n, ms);
    var head := Request(ms, first);
    if first.Answered? then Outcome(first, [head], [ms])
    else if |ms| < 2 || !first.error.contextLimit then Outcome(first, [head], [])
    else
      var mid := |ms| / 2;
      var left := SummarizeWithFallback(model, n + 1, ms[..mid]);
      if left.result.Failed? then Outcome(left.result, [head] + left.log, left.leaves)
      else Join(model, n, head, left, SummarizeWithFallback(model, n + 1 + |left.log|, ms[mid..]))
  }

  /** At most 3n - 2 requests are sent for n messages. */
  lemma {:induction false} RequestBound(model: Model, n: nat, ms: seq<Message>)
    requires ms != []
    ensures 1 <= |SummarizeWithFallback(model, n, ms).log| <= 3 * |ms| - 2
    decreases |ms|
  {
    hide Join, Once;
    var first := Once(model, n, ms);
    if first.Failed? && |ms| >= 2 && first.error.contextLimit {
      var mid := |ms| / 2;
      assert 0 < mid < |ms| && |ms[..mid]| + |ms[mid..]| == |ms|;
      RequestBound(model, n + 1, ms[..mid]);
      var left := SummarizeWithFallback(model, n + 1, ms[..mid]);
      if left.result.Answered? {
        RequestBound(model, n + 1 + |left.log|, ms[mid..]);
        JoinLog(model, n, Request(ms, first), left, SummarizeWithFallback(model, n + 1 + |left.log|, ms[mid..]));
      }
    }
  }

  lemma JoinLog(model: Model, n: nat, head: Request, left: Outcome, right: Outcome)
    requires left.result.Answered?
    ensures 1 <= |Join(model, n, head, left, right).log| <= |left.log| + |right.log| + 2
  {
    hide TrimSpace;
  }

  const TOO_LONG := Failed(ProviderError(true, false, false, false, "prompt is too long"))

  /** A model that fits exactly one message of input. */
  const ONE_MESSAGE: Model := (n: nat, ms: seq<Message>) => if |ms| >= 2 then TOO_LONG else Answered("-")

  /** The bound is reached for every n, so it cannot be improved. */
  lemma {:induction false} RequestBoundIsTight(n: nat, ms: seq<Message>)
    requires ms != []
    ensures var out := SummarizeWithFallback(ONE_MESSAGE, n, ms);
      out.result.Answered? && |out.log| == 3 * |ms| - 2
    decreases |ms|
  {
    hide Join;
    assert Once(ONE_MESSAGE, n, ms) == if |ms| >= 2 then TOO_LONG else Answered("-");
    if |ms| >= 2 {
      var mid := |ms| / 2;
      RequestBoundIsTight(n + 1, ms[..mid]);
      var left := SummarizeWithFallback(ONE_MESSAGE, n + 1, ms[..mid]);
      var right := SummarizeWithFallback(ONE_MESSAGE, n + 1 + |left.log|, ms[mid..]);
      RequestBoundIsTight(n + 1 + |left.log|, ms[mid..]);
      JoinOfAnswers(n, Request(ms, TOO_LONG), left, right);
    }
  }

  lemma JoinOfAnswers(n: nat, head: Request, left: Outcome, right: Outcome)
    requires left.result.Answered? && right.result.Answered?
    ensures var out := Join(ONE_MESSAGE, n, head, left, right);
      out.result.Answered? && |out.log| == |left.log| + |right.log| + 2
  {
    hide TrimSpace;
  }

  function Flatten(slices: seq<seq<Message>>): seq<Message> {
    if slices == [] then [] else slices[0] + Flatten(slices[1..])
  }

  lemma {:induction false} FlattenConcat(a: seq<seq<Message>>, b: seq<seq<Message>>)
    ensures Flatten(a + b) == Flatten(a) + Flatten(b)
  {
    if a == [] {
      assert a + b == b;
    } else {
      assert (a + b)[1..] == a[1..] + b;
      FlattenConcat(a[1..], b);
    }
  }

  /** On success every message was read, once and in order: the slices the model answered
      directly concatenate to the whole input. */
  lemma {:induction false} EverythingIsRead(model: Model, n: nat, ms: seq<Message>)
    requires SummarizeWithFallback(model, n, ms).result.Answered?
    ensures Flatten(SummarizeWithFallback(model, n, ms).leaves) == ms
    decreases |ms|
  {
    hide Flatten, Combined;
    if Once(model, n, ms).Failed? {
      var mid := |ms| / 2;
      var left := SummarizeWithFallback(model, n + 1, ms[..mid]);
      var right := SummarizeWithFallback(model, n + 1 + |left.log|, ms[mid..]);
      EverythingIsRead(model, n + 1, ms[..mid]);
      EverythingIsRead(model, n + 1 + |left.log|, ms[mid..]);
      FlattenConcat(left.leaves, right.leaves);
      assert ms == ms[..mid] + ms[mid..];
    } else {
      FlattenOne(ms);
    }
  }

  lemma FlattenOne(ms: seq<Message>)
    ensures Flatten([ms]) == ms
  {
    assert Flatten([ms]) == ms + Flatten([]);
  }

  /* What reaches the result. */

  /** The two halves of an input that does not fit, and the numbers of their first requests. */
  lemma Halves(model: Model, n: nat, ms: seq<Message>)
      returns (first: nat, front: seq<Message>, second: nat, back: seq<Message>)
    requires |ms| >= 2 && Once(model, n, ms).Failed? && Once(model, n, ms).error.contextLimit
    ensures |front| == |ms| / 2 && 0 < |back| < |ms| && ms == front + back
    ensures var left := SummarizeWithFallback(model, first, front);
      var out := SummarizeWithFallback(model, n, ms);
      if left.result.Failed? then out.result == left.result
      else out == Join(model, n, Request(ms, Once(model, n, ms)), left, SummarizeWithFallback(model, second, back))
  {
    hide Join;
    first, front, back := n + 1, ms[..|ms| / 2], ms[|ms| / 2..];
    second := n + 1 + |SummarizeWithFallback(model, first, front).log|;
  }

  lemma JoinAnswers(model: Model, n: nat, head: Request, left: Outcome, right: Outcome)
    requires left.result.Answered? && Join(model, n, head, left, right).result.Answered?
    ensures right.result.Answered?
    ensures var both := Combined(left.result.text, right.result.text);
      var text := Join(model, n, head, left, right).result.text;
      text == both[0].content || exists k: nat :: model(k, both) == Answered(text)
  {
    hide Combined;
  }

  /** A text that trimming cannot touch. */
  predicate Solid(s: string) { s != "" && !IsSpace(s[0]) && !IsSpace(s[|s| - 1]) }

  predicate SplitsAt(s: string, before: string, w: string, after: string) { s == before + w + after }

  ghost predicate Mentions(s: string, w: string) { exists before, after :: SplitsAt(s, before, w, after) }

  ghost predicate AnyMentions(ms: seq<Message>, w: string) { exists m :: m in ms && Mentions(m.content, w) }

  /** A model whose summaries never leave a text out. */
  ghost predicate Keeps(model: Model, w: string) {
    forall n, ms | AnyMentions(ms, w) && model(n, ms).Answered? :: Mentions(model(n, ms).text, w)
  }

  lemma {:induction false} TrimLeftMentions(s: string, before: string, w: string, after: string) returns (rest: string)
    requires Solid(w) && SplitsAt(s, before, w, after)
    ensures SplitsAt(TrimLeft(s), rest, w, after)
  {
    rest := before;
    if before != "" && IsSpace(s[0]) {
      assert s[1..] == before[1..] + w + after;
      rest := TrimLeftMentions(s[1..], before[1..], w, after);
    } else if before == "" {
      assert s[0] == w[0];
    }
  }

  lemma {:induction false} TrimRightMentions(s: string, before: string, w: string, after: string) returns (rest: string)
    requires Solid(w) && SplitsAt(s, before, w, after)
    ensures SplitsAt(TrimRight(s), before, w, rest)
  {
    rest := after;
    if after != "" && IsSpace(s[|s| - 1]) {
      assert s[..|s| - 1] == before + w + after[..|after| - 1];
      rest := TrimRightMentions(s[..|s| - 1], before, w, after[..|after| - 1]);
    } else if after == "" {
      assert s[|s| - 1] == w[|w| - 1];
    }
  }

  lemma TrimMentions(s: string, w: string)
    requires Solid(w) && Mentions(s, w)
    ensures Mentions(TrimSpace(s), w)
  {
    var before, after :| SplitsAt(s, before, w, after);
    var rest := TrimLeftMentions(s, before, w, after);
    var last := TrimRightMentions(TrimLeft(s), rest, w, after);
  }

  /** Both partial summaries enter the request that joins them. */
  lemma CombinedMentions(left: string, right: string, w: string)
    requires Solid(w) && (Mentions(left, w) || Mentions(right, w))
    ensures Mentions(Combined(left, right)[0].content, w) && AnyMentions(Combined(left, right), w)
  {
    var text := left + "\n\n" + right;
    if Mentions(left, w) {
      var before, after :| SplitsAt(left, before, w, after);
      assert SplitsAt(text, before, w, after + "\n\n" + right);
    } else {
      var before, after :| SplitsAt(right, before, w, after);
      assert SplitsAt(text, left + "\n\n" + before, w, after);
    }
    TrimMentions(text, w);
    assert Combined(left, right)[0] in Combined(left, right);
  }

  /** What the model itself never leaves out of a summary is in the final one, however often the input was halved
      and the halves joined. */
  lemma {:induction false} KeptTextStays(model: Model, n: nat, ms: seq<Message>, w: string)
    requires Solid(w) && Keeps(model, w) && AnyMentions(ms, w)
    requires SummarizeWithFallback(model, n, ms).result.Answered?
    ensures Mentions(SummarizeWithFallback(model, n, ms).result.text, w)
    decreases |ms|
  {
    var reply := Once(model, n, ms);
    if reply.Failed? {
      var first, front, second, back := Halves(model, n, ms);
      var left, right := SummarizeWithFallback(model, first, front), SummarizeWithFallback(model, second, back);
      JoinAnswers(model, n, Request(ms, reply), left, right);
      hide *;
      if AnyMentions(front, w) {
        KeptTextStays(model, first, front, w);
      } else {
        OtherMentions(front, back, w);
        KeptTextStays(model, second, back, w);
      }
      JoinMentions(model, n, Request(ms, reply), left, right, w);
    }
  }

  lemma OtherMentions(front: seq<Message>, back: seq<Message>, w: string)
    requires AnyMentions(front + back, w) && !AnyMentions(front, w)
    ensures AnyMentions(back, w)
  {
    hide Mentions;
  }

  lemma JoinMentions(model: Model, n: nat, head: Request, left: Outcome, right: Outcome, w: string)
    requires Solid(w) && Keeps(model, w) && left.result.Answered? && right.result.Answered?
    requires Mentions(left.result.text, w) || Mentions(right.result.text, w)
    requires Join(model, n, head, left, right).result.Answered?
    ensures Mentions(Join(model, n, head, left, right).result.text, w)
  {
    CombinedMentions(left.result.text, right.result.text, w);
    JoinAnswers(model, n, head, left, right);
    hide Mentions, Join, Combined, Solid, AnyMentions;
  }

  /** A model that fits one message and repeats it. */
  const ECHO: Model := (n: nat, ms: seq<Message>) => if |ms| == 1 then Answered(ms[0].content) else TOO_LONG

  /** The contents of the messages, a blank line between them. */
  function Paragraphs(ms: seq<Message>): string
    requires ms != []
  {
    if |ms| == 1 then ms[0].content else ms[0].content + "\n\n" + Paragraphs(ms[1..])
  }

  lemma {:induction false} ParagraphsConcat(a: seq<Message>, b: seq<Message>)
    requires a != [] && b != []
    ensures Paragraphs(a + b) == Paragraphs(a) + "\n\n" + Paragraphs(b)
  {
    if |a| == 1 {
      assert (a + b)[1..] == b;
    } else {
      assert (a + b)[1..] == a[1..] + b;
      ParagraphsConcat(a[1..], b);
      assert a[0].content + "\n\n" + (Paragraphs(a[1..]) + "\n\n" + Paragraphs(b))
        == a[0].content + "\n\n" + Paragraphs(a[1..]) + "\n\n" + Paragraphs(b);
    }
  }

  lemma {:induction false} ParagraphsSolid(ms: seq<Message>)
    requires ms != [] && forall m | m in ms :: Solid(m.content)
    ensures Solid(Paragraphs(ms))
  {
    assert ms[0] in ms;
    if |ms| > 1 {
      ParagraphsSolid(ms[1..]);
    }
  }

  /** The summaries of the halves are joined in order: with a model that repeats single messages the summary is the
      whole input, paragraph by paragraph. */
  lemma {:induction false} HalvesJoinInOrder(n: nat, ms: seq<Message>)
    requires ms != [] && forall m | m in ms :: Solid(m.content)
    ensures SummarizeWithFallback(ECHO, n, ms).result == Answered(Paragraphs(ms))
    decreases |ms|
  {
    if |ms| == 1 {
      assert Paragraphs(ms) == ms[0].content;
    } else {
      assert Once(ECHO, n, ms) == TOO_LONG;
      var first, front, second, back := Halves(ECHO, n, ms);
      var left, right := SummarizeWithFallback(ECHO, first, front), SummarizeWithFallback(ECHO, second, back);
      hide *;
      HalvesJoinInOrder(first, front);
      HalvesJoinInOrder(second, back);
      ParagraphsConcat(front, back);
      ParagraphsSolid(ms);
      EchoJoins(n, Request(ms, TOO_LONG), left, right, Paragraphs(ms));
    }
  }

  lemma EchoJoins(n: nat, head: Request, left: Outcome, right: Outcome, text: string)
    requires left.result.Answered? && right.result.Answered?
    requires text == left.result.text + "\n\n" + right.result.text && Solid(text)
    ensures Join(ECHO, n, head, left, right).result == Answered(text)
  {
    assert TrimSpace(text) == text;
  }

  /** An error that is not about the context limit. */
  predicate Surfaces(r: Request) {
    r.reply.Failed? && !r.reply.error.contextLimit
  }

  /** A summarization that hid no error: only its last request can carry one that is not about the
      context limit, that one is its result, and any failure is the failure of its last request. */
  ghost predicate Honest(out: Outcome) {
    && out.log != []
    && (forall i | 0 <= i < |out.log| - 1 :: !Surfaces(out.log[i]))
    && var last := out.log[|out.log| - 1];
    && (out.result.Failed? ==> last.reply == out.result)
    && (Surfaces(last) ==> out.result == last.reply)
    && (out.result.Failed? && out.result.error.contextLimit ==> |last.input| < 2)
  }

  lemma JoinIsHonest(model: Model, n: nat, head: Request, left: Outcome, right: Outcome)
    requires !Surfaces(head) && Honest(left) && Honest(right) && left.result.Answered?
    ensures Honest(Join(model, n, head, left, right))
  {
    hide TrimSpace;
    assert !Surfaces(left.log[|left.log| - 1]);
    var log := [head] + left.log + right.log;
    forall i | 0 <= i < |log| - 1 ensures !Surfaces(log[i]) {
    }
    assert log[|log| - 1] == right.log[|right.log| - 1];
  }

  lemma {:induction false} ErrorsSurface(model: Model, n: nat, ms: seq<Message>)
    ensures Honest(SummarizeWithFallback(model, n, ms))
    decreases |ms|
  {
    hide Join;
    var first := Once(model, n, ms);
    if first.Failed? && |ms| >= 2 && first.error.contextLimit {
      var mid := |ms| / 2;
      ErrorsSurface(model, n + 1, ms[..mid]);
      var left := SummarizeWithFallback(model, n + 1, ms[..mid]);
      if left.result.Answered? {
        ErrorsSurface(model, n + 1 + |left.log|, ms[mid..]);
        JoinIsHonest(model, n, Request(ms, first), left, SummarizeWithFallback(model, n + 1 + |left.log|, ms[mid..]));
      }
    }
  }
}
