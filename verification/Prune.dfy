/** Stale tool-output pruning (internal/agent/prune.go): old, large tool results are
    replaced by a placeholder, recent ones stay verbatim. */
module Prune {
  import opened Text
  import opened Transcript
  import opened Tokens

  const PROTECT_RECENT_TOKENS := 40000
  const MIN_RECLAIM_TOKENS := 20000
  const MIN_BODY_TOKENS := 200
  const PLACEHOLDER_HEAD := "[pruned "

  function Placeholder(toolName: string, originalTokens: nat): string {
    PLACEHOLDER_HEAD + (if toolName == "" then "tool" else toolName) + " output (~" + Numeral(originalTokens)
    + " tokens) to reclaim context — re-run the tool if you need it again]"
  }

  predicate IsPlaceholder(content: string) { PLACEHOLDER_HEAD <= TrimSpace(content) }

  function NameIn(calls: seq<ToolCall>, id: string, from: nat): Option<string>
    requires from <= |calls|
    decreases |calls| - from
  {
    if from == |calls| then None
    else if calls[from].id == id then Some(calls[from].name)
    else NameIn(calls, id, from + 1)
  }

  /** The name of the newest call before position n that carries the id. */
  function NameBefore(ms: seq<Message>, id: string, n: nat): string
    requires n <= |ms|
  {
    if n == 0 then ""
    else match NameIn(ms[n - 1].toolCalls, id, 0)
      case Some(name) => name
      case None => NameBefore(ms, id, n - 1)
  }

  function ToolName(ms: seq<Message>, index: nat): string
    requires index < |ms|
  {
    if ms[index].toolCallId == "" then "" else NameBefore(ms, ms[index].toolCallId, index)
  }

  method ToolNameForResult(messages: seq<Message>, index: nat) returns (name: string)
    requires index < |messages|
    ensures name == ToolName(messages, index)
  {
    var id := messages[index].toolCallId;
    if id == "" {
      return "";
    }
    var j := index;
    while j > 0
      invariant 0 <= j <= index
      invariant NameBefore(messages, id, index) == NameBefore(messages, id, j)
    {
      j := j - 1;
      var calls := messages[j].toolCalls;
      for k := 0 to |calls|
        invariant NameIn(calls, id, 0) == NameIn(calls, id, k)
      {
        if calls[k].id == id {
          return calls[k].name;
        }
      }
    }
    return "";
  }

  /** Where the protected suffix of the last preserveLast messages begins. */
  function ProtectFrom(ms: seq<Message>, preserveLast: int): int {
    |ms| - if preserveLast < 0 then 0 else preserveLast
  }

  /** Tool output counted toward the protected window by a newest-first scan down to i. */
  function Window(ms: seq<Message>, protect: int, i: nat): nat
    requires i <= |ms|
    decreases |ms| - i
  {
    if i == |ms| then 0
    else
      var newer := Window(ms, protect, i + 1);
      if ms[i].role == Tool && (i >= protect || newer < PROTECT_RECENT_TOKENS)
      then newer + TextTokens(ms[i].content) else newer
  }

  predicate Stale(ms: seq<Message>, protect: int, i: nat)
    requires i < |ms|
  {
    && ms[i].role == Tool && i < protect
    && Window(ms, protect, i + 1) >= PROTECT_RECENT_TOKENS
    && TextTokens(ms[i].content) >= MIN_BODY_TOKENS
    && !IsPlaceholder(ms[i].content)
  }

  function Reclaimable(ms: seq<Message>, protect: int, i: nat): nat
    requires i <= |ms|
    decreases |ms| - i
  {
    if i == |ms| then 0
    else Reclaimable(ms, protect, i + 1) + if Stale(ms, protect, i) then TextTokens(ms[i].content) else 0
  }

  /** The message at position i as pruning leaves it. */
  function Slimmed(ms: seq<Message>, protect: int, i: nat): Message
    requires i < |ms|
  {
    if Stale(ms, protect, i)
    then ms[i].(content := Placeholder(ToolName(ms, i), TextTokens(ms[i].content)))
    else ms[i]
  }

  /** A history with the stale bodies at positions >= from replaced. */
  function Rewritten(ms: seq<Message>, protect: int, from: nat): (out: seq<Message>)
    ensures |out| == |ms|
    ensures forall i | 0 <= i < |ms| :: out[i] == if i >= from then Slimmed(ms, protect, i) else ms[i]
  {
    seq(|ms|, i requires 0 <= i < |ms| => if i >= from then Slimmed(ms, protect, i) else ms[i])
  }

  function Pruned(ms: seq<Message>, preserveLast: int): seq<Message> {
    var protect := ProtectFrom(ms, preserveLast);
    if Reclaimable(ms, protect, 0) < MIN_RECLAIM_TOKENS then ms else Rewritten(ms, protect, 0)
  }

  method PruneStaleToolOutput(messages: seq<Message>, preserveLast: int) returns (out: seq<Message>, reclaimed: int)
    ensures out == Pruned(messages, preserveLast)
    ensures Estimate(messages) == Estimate(out) + reclaimed
  {
    hide Stale, Window, Slimmed, Rewritten;
    if |messages| == 0 {
      return messages, 0;
    }
    var keep := if preserveLast < 0 then 0 else preserveLast;
    var protectUntil := |messages| - keep;
    var candidates, reclaimable := CollectCandidates(messages, protectUntil);
    if reclaimable < MIN_RECLAIM_TOKENS || |candidates| == 0 {
      NoneListed(messages, protectUntil, candidates);
      return messages, 0;
    }
    out, reclaimed := ReplaceBodies(messages, protectUntil, candidates);
  }

  /** The newest-first scan. */
  method CollectCandidates(messages: seq<Message>, protectUntil: int) returns (candidates: seq<nat>, reclaimable: nat)
    ensures Listed(messages, protectUntil, 0, candidates)
    ensures reclaimable == Reclaimable(messages, protectUntil, 0)
  {
    candidates := [];
    reclaimable := 0;
    var recentToolTokens := 0;
    var i := |messages|;
    while i > 0
      invariant 0 <= i <= |messages|
      invariant recentToolTokens == Window(messages, protectUntil, i)
      invariant reclaimable == Reclaimable(messages, protectUntil, i)
      invariant Listed(messages, protectUntil, i, candidates)
    {
      i := i - 1;
      var msg := messages[i];
      if msg.role != Tool {
        continue;
      }
      var bodyTokens := ApproxTextTokens(msg.content);
      if i >= protectUntil {
        recentToolTokens := recentToolTokens + bodyTokens;
        continue;
      }
      if recentToolTokens < PROTECT_RECENT_TOKENS {
        recentToolTokens := recentToolTokens + bodyTokens;
        continue;
      }
      if bodyTokens < MIN_BODY_TOKENS || IsPlaceholder(msg.content) {
        continue;
      }
      candidates := candidates + [i];
      reclaimable := reclaimable + bodyTokens;
    }
  }

  /** The rewrite of the copied history. */
  method ReplaceBodies(messages: seq<Message>, protectUntil: int, candidates: seq<nat>)
    returns (out: seq<Message>, reclaimed: int)
    requires Listed(messages, protectUntil, 0, candidates)
    ensures out == Rewritten(messages, protectUntil, 0)
    ensures Estimate(messages) == Estimate(out) + reclaimed
  {
    out := messages;
    reclaimed := 0;
    ghost var done := |messages|;
    for c := 0 to |candidates|
      invariant done == (if c == 0 then |messages| else candidates[c - 1])
      invariant |out| == |messages| && out == Rewritten(messages, protectUntil, done)
      invariant Estimate(messages) == Estimate(out) + reclaimed
    {
      var index := candidates[c];
      SameCalls(messages, protectUntil, done, index);
      NextRewrite(messages, protectUntil, candidates, c);
      var toolName := ToolNameForResult(out, index);
      var tokens := ApproxTextTokens(messages[index].content);
      var newBody := Placeholder(toolName, tokens);
      var newTokens := ApproxTextTokens(newBody);
      ReplacedBody(out, index, newBody);
      reclaimed := reclaimed + tokens - newTokens;
      out := out[index := out[index].(content := newBody)];
      done := index;
    }
    LastRewrite(messages, protectUntil, candidates);
  }

  lemma NextRewrite(ms: seq<Message>, protect: int, candidates: seq<nat>, c: nat)
    requires Listed(ms, protect, 0, candidates) && c < |candidates|
    ensures var done := if c == 0 then |ms| else candidates[c - 1];
      var index := candidates[c];
      && Rewritten(ms, protect, done)[index] == ms[index]
      && Rewritten(ms, protect, index) == Rewritten(ms, protect, done)[index := Slimmed(ms, protect, index)]
  {
    hide Window, TextTokens, IsPlaceholder, Stale;
    var done := if c == 0 then |ms| else candidates[c - 1];
    forall j | candidates[c] < j < done ensures Slimmed(ms, protect, j) == ms[j] {
      assert forall d | 0 <= d < |candidates| :: candidates[d] != j;
    }
  }

  lemma LastRewrite(ms: seq<Message>, protect: int, candidates: seq<nat>)
    requires Listed(ms, protect, 0, candidates)
    ensures var done := if candidates == [] then |ms| else candidates[|candidates| - 1];
      Rewritten(ms, protect, done) == Rewritten(ms, protect, 0)
  {
    hide Window, TextTokens, IsPlaceholder, Stale, Placeholder, ToolName;
  }

  /** candidates lists the stale positions from i on, newest first. */
  ghost predicate Listed(ms: seq<Message>, protect: int, i: nat, candidates: seq<nat>)
    requires i <= |ms|
  {
    && (forall c | 0 <= c < |candidates| :: i <= candidates[c] < |ms| && Stale(ms, protect, candidates[c]))
    && (forall c, d | 0 <= c < d < |candidates| :: candidates[c] > candidates[d])
    && (forall j | i <= j < |ms| && Stale(ms, protect, j) :: j in candidates)
  }

  lemma {:induction false} NoneListed(ms: seq<Message>, protect: int, candidates: seq<nat>)
    requires Listed(ms, protect, 0, candidates)
    ensures candidates == [] ==> Reclaimable(ms, protect, 0) == 0
  {
    if candidates == [] {
      NothingStale(ms, protect, 0);
    }
  }

  lemma {:induction false} NothingStale(ms: seq<Message>, protect: int, i: nat)
    requires i <= |ms| && forall j | i <= j < |ms| :: !Stale(ms, protect, j)
    ensures Reclaimable(ms, protect, i) == 0
    decreases |ms| - i
  {
    if i < |ms| {
      NothingStale(ms, protect, i + 1);
    }
  }

  lemma {:induction false} SameCallsBefore(a: seq<Message>, b: seq<Message>, id: string, n: nat)
    requires n <= |a| == |b| && forall j | 0 <= j < |a| :: a[j].toolCalls == b[j].toolCalls
    ensures NameBefore(a, id, n) == NameBefore(b, id, n)
  {
    if n > 0 {
      SameCallsBefore(a, b, id, n - 1);
    }
  }

  lemma SameCalls(ms: seq<Message>, protect: int, from: nat, index: nat)
    requires index < |ms|
    ensures ToolName(Rewritten(ms, protect, from), index) == ToolName(ms, index)
  {
    SameCallsBefore(ms, Rewritten(ms, protect, from), ms[index].toolCallId, index);
  }

  lemma {:induction false} ReplacedBodyTo(ms: seq<Message>, index: nat, body: string, n: nat)
    requires index < |ms| && n <= |ms|
    ensures var out := ms[index := ms[index].(content := body)];
      EstimateTo(out, n)
      == EstimateTo(ms, n) + if index < n then TextTokens(body) - TextTokens(ms[index].content) else 0
  {
    if n > 0 {
      ReplacedBodyTo(ms, index, body, n - 1);
    }
  }

  lemma ReplacedBody(ms: seq<Message>, index: nat, body: string)
    requires index < |ms|
    ensures Estimate(ms[index := ms[index].(content := body)])
         == Estimate(ms) + TextTokens(body) - TextTokens(ms[index].content)
  {
    ReplacedBodyTo(ms, index, body, |ms|);
  }

  /* What pruning promises. */

  /** Tool output at positions >= i that pruning leaves verbatim. */
  function Verbatim(before: seq<Message>, after: seq<Message>, i: nat): nat
    requires i <= |before| == |after|
    decreases |before| - i
  {
    if i == |before| then 0
    else Verbatim(before, after, i + 1)
         + if before[i].role == Tool && after[i] == before[i] then TextTokens(before[i].content) else 0
  }

  lemma {:induction false} WindowIsVerbatim(ms: seq<Message>, protect: int, i: nat)
    requires i <= |ms|
    ensures Window(ms, protect, i) <= Verbatim(ms, Rewritten(ms, protect, 0), i)
    decreases |ms| - i
  {
    if i < |ms| {
      WindowIsVerbatim(ms, protect, i + 1);
    }
  }

  /** Pruning keeps length, roles, ids, calls and images; it touches no message of the protected
      suffix, and every body it changes has 40000 tokens of newer tool output left verbatim. */
  lemma PruningIsSafe(ms: seq<Message>, preserveLast: int, i: nat)
    requires i < |ms|
    ensures var out := Pruned(ms, preserveLast);
      && |out| == |ms|
      && out[i].(content := ms[i].content) == ms[i]
      && (i >= |ms| - preserveLast ==> out[i] == ms[i])
      && (out[i] != ms[i] ==> ms[i].role == Tool && Verbatim(ms, out, i + 1) >= PROTECT_RECENT_TOKENS)
  {
    var protect := ProtectFrom(ms, preserveLast);
    WindowIsVerbatim(ms, protect, i + 1);
  }

  lemma {:induction false} PruningKeepsOwed(ms: seq<Message>, preserveLast: int, n: nat)
    requires n <= |ms|
    ensures |Pruned(ms, preserveLast)| == |ms|
    ensures ReadTo(SETTLED, Pruned(ms, preserveLast), n) == ReadTo(SETTLED, ms, n)
  {
    if n > 0 {
      PruningKeepsOwed(ms, preserveLast, n - 1);
      PruningIsSafe(ms, preserveLast, n - 1);
    } else if |ms| > 0 {
      PruningIsSafe(ms, preserveLast, 0);
    }
  }

  lemma PruningKeepsValid(ms: seq<Message>, preserveLast: int)
    ensures Valid(Pruned(ms, preserveLast)) <==> Valid(ms)
  {
    PruningKeepsOwed(ms, preserveLast, |ms|);
  }

  /** A placeholder is recognised as one, so no body is pruned twice. */
  lemma PlaceholderIsRecognised(toolName: string, tokens: nat)
    ensures IsPlaceholder(Placeholder(toolName, tokens))
  {
    var body := Placeholder(toolName, tokens);
    assert PLACEHOLDER_HEAD[0] == '[' && PLACEHOLDER_HEAD[6] == 'd';
    assert body[..7] == PLACEHOLDER_HEAD[..7];
    assert body[0] == '[' && body[6] == 'd';
    var tail := body[|body| - 1];
    assert tail == ']';
    assert TrimSpace(body) == body;
  }

  lemma {:induction false} SameWindow(ms: seq<Message>, protect: int, i: nat)
    requires i <= |ms|
    ensures Window(Rewritten(ms, protect, 0), protect, i) == Window(ms, protect, i)
    decreases |ms| - i
  {
    if i < |ms| {
      SameWindow(ms, protect, i + 1);
    }
  }

  lemma NothingLeftStale(ms: seq<Message>, protect: int, i: nat)
    requires i < |ms|
    ensures !Stale(Rewritten(ms, protect, 0), protect, i)
  {
    SameWindow(ms, protect, i + 1);
    if Stale(ms, protect, i) {
      PlaceholderIsRecognised(ToolName(ms, i), TextTokens(ms[i].content));
    }
  }

  /** Pruning is idempotent: a second pass changes nothing, whatever the tool names are. */
  lemma PruningIsIdempotent(ms: seq<Message>, preserveLast: int)
    ensures Pruned(Pruned(ms, preserveLast), preserveLast) == Pruned(ms, preserveLast)
  {
    var protect := ProtectFrom(ms, preserveLast);
    if Reclaimable(ms, protect, 0) >= MIN_RECLAIM_TOKENS {
      var out := Rewritten(ms, protect, 0);
      forall i | 0 <= i < |ms| ensures !Stale(out, protect, i) {
        NothingLeftStale(ms, protect, i);
      }
      NothingStale(out, protect, 0);
    }
  }

  /** Pruning is not lazy either: when the stale output reaches the minimum, every large tool
      body that lies before the suffix and behind a full window is gone afterwards. */
  lemma PruningIsComplete(ms: seq<Message>, preserveLast: int, i: nat)
    requires i < |ms| && Stale(ms, ProtectFrom(ms, preserveLast), i)
    ensures Pruned(ms, preserveLast)[i] != ms[i]
       <==> Reclaimable(ms, ProtectFrom(ms, preserveLast), 0) >= MIN_RECLAIM_TOKENS
  {
    PlaceholderIsRecognised(ToolName(ms, i), TextTokens(ms[i].content));
  }

  /* Which bodies go, and what takes their place, said of the history alone. */

  /** The tokens of the tool output at positions >= i. */
  function ToolOutput(ms: seq<Message>, i: nat): nat
    requires i <= |ms|
    decreases |ms| - i
  {
    if i == |ms| then 0
    else ToolOutput(ms, i + 1) + if ms[i].role == Tool then TextTokens(ms[i].content) else 0
  }

  /** A large tool result before the suffix, behind 40000 tokens of newer tool output, that is no placeholder. */
  predicate Old(ms: seq<Message>, preserveLast: int, i: nat)
    requires i < |ms|
  {
    && ms[i].role == Tool && i < |ms| && (preserveLast >= 0 ==> i + preserveLast < |ms|)
    && ToolOutput(ms, i + 1) >= 40000
    && TextTokens(ms[i].content) >= 200 && !("[pruned " <= TrimSpace(ms[i].content))
  }

  function OldTokens(ms: seq<Message>, preserveLast: int, i: nat): nat
    requires i <= |ms|
    decreases |ms| - i
  {
    if i == |ms| then 0
    else OldTokens(ms, preserveLast, i + 1) + if Old(ms, preserveLast, i) then TextTokens(ms[i].content) else 0
  }

  lemma {:induction false} WindowIsOutput(ms: seq<Message>, protect: int, i: nat)
    requires i <= |ms|
    ensures Window(ms, protect, i) <= ToolOutput(ms, i)
    ensures Window(ms, protect, i) == ToolOutput(ms, i) || Window(ms, protect, i) >= 40000
    decreases |ms| - i
  {
    if i < |ms| {
      WindowIsOutput(ms, protect, i + 1);
    }
  }

  lemma StaleIsOld(ms: seq<Message>, preserveLast: int, i: nat)
    requires i < |ms|
    ensures Stale(ms, ProtectFrom(ms, preserveLast), i) <==> Old(ms, preserveLast, i)
  {
    WindowIsOutput(ms, ProtectFrom(ms, preserveLast), i + 1);
  }

  lemma {:induction false} ReclaimableIsOld(ms: seq<Message>, preserveLast: int, i: nat)
    requires i <= |ms|
    ensures Reclaimable(ms, ProtectFrom(ms, preserveLast), i) == OldTokens(ms, preserveLast, i)
    decreases |ms| - i
  {
    if i < |ms| {
      ReclaimableIsOld(ms, preserveLast, i + 1);
      StaleIsOld(ms, preserveLast, i);
    }
  }

  /** The k-th call of the message at p, which stands before position i, has the id of the result there. */
  predicate CallsFor(ms: seq<Message>, i: nat, p: nat, k: nat)
    requires i < |ms|
  {
    p < i && k < |ms[p].toolCalls| && ms[p].toolCalls[k].id == ms[i].toolCallId
  }

  /** It is the first such call of the newest message that has one. */
  ghost predicate NewestCall(ms: seq<Message>, i: nat, p: nat, k: nat)
    requires i < |ms|
  {
    && ms[i].toolCallId != "" && CallsFor(ms, i, p, k)
    && forall q: nat, l: nat | CallsFor(ms, i, q, l) :: q < p || (q == p && k <= l)
  }

  /** The name a placeholder carries: that of the call it answered, or "tool" when that has none or is not there. */
  ghost predicate NamesCall(ms: seq<Message>, i: nat, name: string)
    requires i < |ms|
  {
    if ms[i].toolCallId == "" || forall p: nat, k: nat :: !CallsFor(ms, i, p, k) then name == "tool"
    else
      exists p: nat, k: nat ::
        NewestCall(ms, i, p, k) && name == if ms[p].toolCalls[k].name == "" then "tool" else ms[p].toolCalls[k].name
  }

  lemma {:induction false} NameInIsFirst(calls: seq<ToolCall>, id: string, from: nat) returns (k: nat)
    requires from <= |calls|
    ensures NameIn(calls, id, from).None? ==> forall l | from <= l < |calls| :: calls[l].id != id
    ensures NameIn(calls, id, from).Some? ==>
      && from <= k < |calls| && calls[k].id == id && calls[k].name == NameIn(calls, id, from).value
      && forall l | from <= l < k :: calls[l].id != id
    decreases |calls| - from
  {
    k := from;
    if from < |calls| && calls[from].id != id {
      k := NameInIsFirst(calls, id, from + 1);
    }
  }

  lemma {:induction false} NameBeforeIsNewest(ms: seq<Message>, i: nat, n: nat) returns (p: nat, k: nat)
    requires n <= i < |ms|
    ensures (forall q: nat, l: nat | q < n :: !CallsFor(ms, i, q, l)) ==> NameBefore(ms, ms[i].toolCallId, n) == ""
    ensures (exists q: nat, l: nat :: q < n && CallsFor(ms, i, q, l)) ==>
      && p < n && CallsFor(ms, i, p, k) && NameBefore(ms, ms[i].toolCallId, n) == ms[p].toolCalls[k].name
      && forall q: nat, l: nat | q < n && CallsFor(ms, i, q, l) :: q < p || (q == p && k <= l)
  {
    p, k := 0, 0;
    if n > 0 {
      k := NameInIsFirst(ms[n - 1].toolCalls, ms[i].toolCallId, 0);
      if NameIn(ms[n - 1].toolCalls, ms[i].toolCallId, 0).Some? {
        p := n - 1;
        assert CallsFor(ms, i, p, k);
      } else {
        p, k := NameBeforeIsNewest(ms, i, n - 1);
      }
    }
  }

  lemma ToolNameNamesCall(ms: seq<Message>, i: nat)
    requires i < |ms|
    ensures NamesCall(ms, i, if ToolName(ms, i) == "" then "tool" else ToolName(ms, i))
  {
    var p, k := NameBeforeIsNewest(ms, i, i);
    if ms[i].toolCallId != "" && exists q: nat, l: nat :: CallsFor(ms, i, q, l) {
      assert NewestCall(ms, i, p, k);
    }
  }

  /** A pruned body names the tool whose call it answered and the tokens it had; it is pruned exactly when it is an
      old one and the old ones hold 20000 tokens together. Everything else stays as it is. */
  lemma PruningIsExact(ms: seq<Message>, preserveLast: int, i: nat) returns (name: string)
    requires i < |ms|
    ensures NamesCall(ms, i, name)
    ensures Pruned(ms, preserveLast)[i]
      == if !Old(ms, preserveLast, i) || OldTokens(ms, preserveLast, 0) < 20000 then ms[i]
         else ms[i].(content := "[pruned " + name + " output (~" + Numeral(TextTokens(ms[i].content))
                       + " tokens) to reclaim context — re-run the tool if you need it again]")
  {
    name := if ToolName(ms, i) == "" then "tool" else ToolName(ms, i);
    ToolNameNamesCall(ms, i);
    StaleIsOld(ms, preserveLast, i);
    ReclaimableIsOld(ms, preserveLast, 0);
    hide Old, OldTokens, Stale, Reclaimable, ToolName;
  }
}
