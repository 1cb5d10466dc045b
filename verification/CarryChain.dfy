/** The chain of compactions of a run (internal/agent/compaction.go, compaction_preserve.go): the history grows,
    is pruned and compacted, grows again, and the block in its summary goes on describing everything that was
    elided. */
module CarryChain {
  import opened Text
  import opened Transcript
  import opened Tokens
  import opened RecentEdits
  import opened PreservedState
  import opened Carryover
  import opened Compaction
  import opened Prune
  import opened Summarizer
  import opened OneLook
  import Compactor

  /** What a run adds, whether it prunes then, and what it compacts with. */
  datatype Round = Round(added: seq<Message>, pruning: Option<int>, keep: int, summarize: Summarize, task: Option<Task>)

  /** The history, and what the compactions elided beside the earlier summary. */
  datatype Progress = Progress(history: seq<Message>, elisions: seq<Elision>)

  function Compacting(x: Extract, p: Progress, round: Round): Progress {
    var result := Compact(p.history, round.keep, round.summarize, CarryOf(x, round.task));
    if !result.Compacted? then p
    else
      var middle := Middle(p.history, round.keep);
      var piece := if p.elisions == [] then middle else middle[1..];
      Progress(result.messages, p.elisions + [Elision(round.summarize(middle).text, piece, round.task)])
  }

  function Thinned(ms: seq<Message>, pruning: Option<int>): seq<Message> {
    if pruning.Some? then Pruned(ms, pruning.value) else ms
  }

  function PlayRound(x: Extract, p: Progress, round: Round): Progress {
    Compacting(x, p.(history := Thinned(p.history + round.added, round.pruning)), round)
  }

  function Play(x: Extract, start: seq<Message>, rounds: seq<Round>): Progress {
    if rounds == [] then Progress(start, [])
    else PlayRound(x, Play(x, start, rounds[..|rounds| - 1]), rounds[|rounds| - 1])
  }

  /** The history as it would be had nothing been pruned or compacted. */
  function Raw(start: seq<Message>, rounds: seq<Round>): seq<Message> {
    if rounds == [] then start else Raw(start, rounds[..|rounds| - 1]) + rounds[|rounds| - 1].added
  }

  /* The history is the raw one with one stretch replaced. */

  /** Where the elided stretch ends. */
  function Cut(raw: seq<Message>, es: seq<Elision>): nat { SystemEnd(raw, 0) + |Elided(es)| }

  function Spliced(raw: seq<Message>, head: nat, m: Message, cut: nat): seq<Message>
    requires head <= cut <= |raw|
  {
    raw[..head] + [m] + raw[cut..]
  }

  /** The elided pieces are the stretch of the raw history between its system head and an assistant message,
      and the newest summary stands in their place. */
  ghost predicate Tracks(x: Extract, raw: seq<Message>, p: Progress) {
    var head, cut := SystemEnd(raw, 0), Cut(raw, p.elisions);
    if p.elisions == [] then p.history == raw
    else
      && cut < |raw| && raw[cut].role == Assistant
      && Elided(p.elisions) == raw[head..cut]
      && p.history == Spliced(raw, head, UserMessage(ContentOf(x, p.elisions)), cut)
  }

  ghost predicate ValidPieces(es: seq<Elision>) { forall e | e in es :: Valid(e.piece) }

  lemma TracksIsSpliced(x: Extract, raw: seq<Message>, p: Progress)
    requires Tracks(x, raw, p) && p.elisions != []
    ensures var head, cut := SystemEnd(raw, 0), Cut(raw, p.elisions);
      && head <= cut < |raw| && raw[cut].role == Assistant && Elided(p.elisions) == raw[head..cut]
      && p.history == Spliced(raw, head, UserMessage(ContentOf(x, p.elisions)), cut)
  {
    hide ContentOf, Elided, Spliced;
  }

  lemma SplicedTracks(x: Extract, raw: seq<Message>, p: Progress, cut: nat)
    requires p.elisions != [] && SystemEnd(raw, 0) <= cut < |raw| && raw[cut].role == Assistant
    requires Elided(p.elisions) == raw[SystemEnd(raw, 0)..cut]
    requires p.history == Spliced(raw, SystemEnd(raw, 0), UserMessage(ContentOf(x, p.elisions)), cut)
    ensures Tracks(x, raw, p)
  {
    hide ContentOf, Elided, Spliced;
  }

  lemma ValidPiecesSnoc(es: seq<Elision>, e: Elision)
    requires ValidPieces(es) && Valid(e.piece)
    ensures ValidPieces(es + [e])
  {
    hide Valid;
  }

  lemma {:induction false} HeadStays(ms: seq<Message>, more: seq<Message>, from: nat)
    requires from <= |ms| && SystemEnd(ms, from) < |ms|
    ensures SystemEnd(ms + more, from) == SystemEnd(ms, from)
    decreases |ms| - from
  {
    if ms[from].role == System {
      HeadStays(ms, more, from + 1);
    }
  }

  lemma {:induction false} HeadIs(ms: seq<Message>, head: nat, from: nat)
    requires from <= head < |ms| && ms[head].role != System
    requires forall i | from <= i < head :: ms[i].role == System
    ensures SystemEnd(ms, from) == head
    decreases head - from
  {
    if from < head {
      HeadIs(ms, head, from + 1);
    }
  }

  function Stretch(raw: seq<Message>, from: nat, to: nat): seq<Message>
    requires from <= to <= |raw|
  {
    raw[from..to]
  }

  lemma StretchJoins(raw: seq<Message>, from: nat, to: nat, next: nat)
    requires from <= to <= next <= |raw|
    ensures Stretch(raw, to, next) == raw[to..next] && raw[from..to] + Stretch(raw, to, next) == raw[from..next]
  {
  }

  function Behind(m: Message, piece: seq<Message>): seq<Message> { [m] + piece }

  lemma ElidedSnoc(es: seq<Elision>, e: Elision)
    ensures Elided(es + [e]) == Elided(es) + e.piece
  {
    assert (es + [e])[..|es|] == es;
  }

  /** What the next compaction writes is the content of the longer chain. */
  lemma ContentSnoc(x: Extract, es: seq<Elision>, e: Elision, middle: seq<Message>)
    requires middle == (if es == [] then [] else [UserMessage(ContentOf(x, es))]) + e.piece
    ensures ContentOf(x, es + [e]) == CarryOf(x, e.task)(Headed(e.prose), middle)
  {
    hide Append, Step, ParseBlock, LatestSummary, Headed;
    assert (es + [e])[..|es|] == es;
    assert MiddleOf(x, es + [e]) == middle;
  }

  lemma ContentAgain(x: Extract, es: seq<Elision>, e: Elision, middle: seq<Message>)
    requires es != [] && middle == Behind(UserMessage(ContentOf(x, es)), e.piece)
    ensures ContentOf(x, es + [e]) == CarryOf(x, e.task)(Headed(e.prose), middle)
  {
    hide ContentOf, CarryOf, Headed;
    ContentSnoc(x, es, e, middle);
  }

  lemma Grow(raw: seq<Message>, more: seq<Message>, head: nat, m: Message, cut: nat)
    requires head <= cut <= |raw|
    ensures Spliced(raw, head, m, cut) + more == Spliced(raw + more, head, m, cut)
    ensures (raw + more)[head..cut] == raw[head..cut]
  {
  }

  lemma TracksGrow(x: Extract, raw: seq<Message>, p: Progress, more: seq<Message>)
    requires Tracks(x, raw, p)
    ensures Tracks(x, raw + more, Progress(p.history + more, p.elisions))
  {
    hide ContentOf, Elided, Spliced;
    if p.elisions != [] {
      HeadStays(raw, more, 0);
      Grow(raw, more, SystemEnd(raw, 0), UserMessage(ContentOf(x, p.elisions)), Cut(raw, p.elisions));
    }
  }

  lemma SplicedHead(raw: seq<Message>, m: Message, cut: nat)
    requires SystemEnd(raw, 0) <= cut < |raw| && m.role != System
    ensures SystemEnd(Spliced(raw, SystemEnd(raw, 0), m, cut), 0) == SystemEnd(raw, 0)
  {
    HeadIs(Spliced(raw, SystemEnd(raw, 0), m, cut), SystemEnd(raw, 0), 0);
  }

  lemma SlicesOfSpliced(raw: seq<Message>, head: nat, m: Message, cut: nat, b: nat) returns (next: nat)
    requires head <= cut <= |raw| && head < b < |Spliced(raw, head, m, cut)|
    ensures var h := Spliced(raw, head, m, cut);
      && cut <= next < |raw| && h[..head] == raw[..head] && h[b..] == raw[next..] && h[b] == raw[next]
      && h[head..b] == [m] + raw[cut..next] && h[head..b][1..] == raw[cut..next]
  {
    var h := Spliced(raw, head, m, cut);
    next := cut + b - head - 1;
    assert |h[head..b]| == |[m] + raw[cut..next]|;
    assert h[head..b] == [m] + raw[cut..next];
  }

  /** Compacting the spliced history elides its summary and the next stretch of the raw one. */
  lemma CutSpliced(raw: seq<Message>, m: Message, cut: nat, h: seq<Message>, keep: int) returns (next: nat)
    requires SystemEnd(raw, 0) <= cut < |raw| && m.role != System && h == Spliced(raw, SystemEnd(raw, 0), m, cut)
    requires SystemEnd(h, 0) < Boundary(h, keep) < |h|
    ensures SystemEnd(h, 0) == SystemEnd(raw, 0) && cut <= next < |raw|
    ensures h[Boundary(h, keep)] == raw[next] && Middle(h, keep)[1..] == Stretch(raw, cut, next)
    ensures Middle(h, keep) == Behind(m, Stretch(raw, cut, next))
    ensures forall content ::
      WithSummary(h, keep, content) == Spliced(raw, SystemEnd(raw, 0), UserMessage(content), next)
  {
    hide Boundary, NaiveBoundary;
    SplicedHead(raw, m, cut);
    hide SystemEnd;
    next := SlicesOfSpliced(raw, SystemEnd(raw, 0), m, cut, Boundary(h, keep));
  }

  /** A stretch between two messages that are no tool results is a history of its own. */
  lemma ValidStretch(ms: seq<Message>, from: nat, to: nat)
    requires Valid(ms) && from <= to < |ms| && ms[from].role != Tool && ms[to].role != Tool
    ensures Valid(ms[from..to])
  {
    ValidCut(ms, to);
    if from < to {
      ValidCut(ms[..to], from);
      assert ms[..to][from..] == ms[from..to];
    } else {
      assert ms[from..to] == [];
    }
  }

  /** The first compaction. */
  lemma FirstTracks(x: Extract, raw: seq<Message>, p: Progress, round: Round)
    requires Tracks(x, raw, p) && p.elisions == [] && Valid(raw) && Compacting(x, p, round) != p
    ensures Tracks(x, raw, Compacting(x, p, round)) && ValidPieces(Compacting(x, p, round).elisions)
  {
    hide Append, Step, ParseBlock, LatestSummary, TrimSpace, Boundary, NaiveBoundary, SystemEnd, Valid, ContentOf;
    var middle, head, b := Middle(raw, round.keep), SystemEnd(raw, 0), Boundary(raw, round.keep);
    var e := Elision(round.summarize(middle).text, middle, round.task);
    assert head < b < |raw|;
    assert Compacting(x, p, round).elisions == [e] by { assert [] + [e] == [e]; }
    ElidedSnoc([], e);
    ContentSnoc(x, [], e, middle);
    HeadIsNoAnswer(raw);
    ValidStretch(raw, head, b);
    assert Elided([e]) == middle by { assert [] + [e] == [e] && [] + middle == middle; }
  }

  /** What a later compaction does to the progress of a chain. */
  lemma CompactingAgain(x: Extract, p: Progress, round: Round) returns (e: Elision)
    requires p.elisions != [] && Compacting(x, p, round) != p
    ensures Compacting(x, p, round).elisions == p.elisions + [e]
    ensures SystemEnd(p.history, 0) < Boundary(p.history, round.keep) < |p.history|
    ensures p.history[Boundary(p.history, round.keep)].role == Assistant
    ensures var middle := Middle(p.history, round.keep);
      && middle != [] && e.piece == middle[1..]
      && Compacting(x, p, round).history
           == WithSummary(p.history, round.keep, CarryOf(x, e.task)(Headed(e.prose), middle))
  {
    hide Append, NaiveBoundary, SystemEnd, TrimSpace, CarryOf;
    var middle := Middle(p.history, round.keep);
    e := Elision(round.summarize(middle).text, middle[1..], round.task);
  }

  /** A later compaction: its middle is the earlier summary and the next stretch of the raw history. */
  lemma NextStretch(x: Extract, raw: seq<Message>, p: Progress, round: Round) returns (e: Elision, next: nat)
    requires Tracks(x, raw, p) && p.elisions != [] && Compacting(x, p, round) != p
    ensures Compacting(x, p, round).elisions == p.elisions + [e]
    ensures SystemEnd(raw, 0) <= Cut(raw, p.elisions) <= next < |raw| && raw[next].role == Assistant
    ensures e.piece == Stretch(raw, Cut(raw, p.elisions), next) && raw[Cut(raw, p.elisions)].role == Assistant
    ensures Elided(p.elisions) == raw[SystemEnd(raw, 0)..Cut(raw, p.elisions)]
    ensures Compacting(x, p, round).history
      == Spliced(raw, SystemEnd(raw, 0), UserMessage(ContentOf(x, p.elisions + [e])), next)
  {
    var m := UserMessage(ContentOf(x, p.elisions));
    assert m.role != System;
    hide *;
    TracksIsSpliced(x, raw, p);
    e := CompactingAgain(x, p, round);
    next := CutSpliced(raw, m, Cut(raw, p.elisions), p.history, round.keep);
    ContentAgain(x, p.elisions, e, Middle(p.history, round.keep));
  }

  lemma NextTracks(x: Extract, raw: seq<Message>, p: Progress, round: Round)
    requires Tracks(x, raw, p) && p.elisions != [] && ValidPieces(p.elisions) && Valid(raw)
      && Compacting(x, p, round) != p
    ensures Tracks(x, raw, Compacting(x, p, round)) && ValidPieces(Compacting(x, p, round).elisions)
  {
    hide *;
    var e, next := NextStretch(x, raw, p, round);
    ElidedSnoc(p.elisions, e);
    StretchJoins(raw, SystemEnd(raw, 0), Cut(raw, p.elisions), next);
    ValidStretch(raw, Cut(raw, p.elisions), next);
    ValidPiecesSnoc(p.elisions, e);
    SplicedTracks(x, raw, Compacting(x, p, round), next);
  }

  lemma CompactingTracks(x: Extract, raw: seq<Message>, p: Progress, round: Round)
    requires Tracks(x, raw, p) && ValidPieces(p.elisions) && Valid(raw)
    ensures Tracks(x, raw, Compacting(x, p, round)) && ValidPieces(Compacting(x, p, round).elisions)
  {
    hide Tracks, Compacting;
    if Compacting(x, p, round) != p {
      if p.elisions == [] {
        FirstTracks(x, raw, p, round);
      } else {
        NextTracks(x, raw, p, round);
      }
    }
  }

  lemma {:induction false} RawIsValid(start: seq<Message>, rounds: seq<Round>)
    requires Valid(start) && forall round | round in rounds :: Valid(round.added)
    ensures Valid(Raw(start, rounds))
  {
    hide Valid;
    if rounds != [] {
      RawIsValid(start, rounds[..|rounds| - 1]);
      ValidConcat(Raw(start, rounds[..|rounds| - 1]), rounds[|rounds| - 1].added);
    }
  }

  /* Pruning only fades bodies. */

  predicate FadedAt(m: Message, seen: Message) {
    seen == m || (m.role == Tool && IsPlaceholder(seen.content) && seen.(content := m.content) == m)
  }

  /** The same history but for some tool results whose bodies are placeholders. */
  ghost predicate Faded(raw: seq<Message>, seen: seq<Message>) {
    |raw| == |seen| && forall i | 0 <= i < |raw| :: FadedAt(raw[i], seen[i])
  }

  lemma PrunedFades(ms: seq<Message>, preserveLast: int)
    ensures Faded(ms, Pruned(ms, preserveLast))
  {
    hide Stale, Reclaimable, Placeholder, ToolName, IsPlaceholder;
    forall i | 0 <= i < |ms| ensures FadedAt(ms[i], Pruned(ms, preserveLast)[i]) {
      PlaceholderIsRecognised(ToolName(ms, i), TextTokens(ms[i].content));
      SlimmedBody(ms, ProtectFrom(ms, preserveLast), i);
    }
  }

  lemma SlimmedBody(ms: seq<Message>, protect: int, i: nat)
    requires i < |ms|
    ensures var m := Slimmed(ms, protect, i);
      m == ms[i]
        || (ms[i].role == Tool && m == ms[i].(content := Placeholder(ToolName(ms, i), TextTokens(ms[i].content))))
  {
  }

  lemma FadedTwice(a: seq<Message>, b: seq<Message>, c: seq<Message>)
    requires Faded(a, b) && Faded(b, c)
    ensures Faded(a, c)
  {
    hide IsPlaceholder;
    forall i | 0 <= i < |a| ensures FadedAt(a[i], c[i]) {
      assert FadedAt(a[i], b[i]) && FadedAt(b[i], c[i]);
    }
  }

  lemma FadedGrow(raw: seq<Message>, seen: seq<Message>, more: seq<Message>)
    requires Faded(raw, seen)
    ensures Faded(raw + more, seen + more)
  {
    hide IsPlaceholder;
  }

  lemma FadedSlice(raw: seq<Message>, seen: seq<Message>, from: nat, to: nat)
    requires Faded(raw, seen) && from <= to <= |raw|
    ensures Faded(raw[from..to], seen[from..to])
  {
    hide FadedAt;
  }

  lemma {:induction false} FadedReads(raw: seq<Message>, seen: seq<Message>, n: nat)
    requires Faded(raw, seen) && n <= |raw|
    ensures ReadTo(SETTLED, seen, n) == ReadTo(SETTLED, raw, n)
  {
    if n > 0 {
      FadedReads(raw, seen, n - 1);
      assert FadedAt(raw[n - 1], seen[n - 1]);
    }
  }

  lemma FadedIsValid(raw: seq<Message>, seen: seq<Message>)
    requires Faded(raw, seen) && Valid(raw)
    ensures Valid(seen)
  {
    FadedReads(raw, seen, |raw|);
  }

  lemma FadedIds(raw: seq<Message>, seen: seq<Message>)
    requires Faded(raw, seen)
    ensures UniqueIds(raw) ==> UniqueIds(seen)
    ensures Unshadowed(raw) ==> Unshadowed(seen)
  {
    hide IsPlaceholder, TrimSpace, StartsWith;
    assert forall i | 0 <= i < |raw| :: FadedAt(raw[i], seen[i]) && seen[i].toolCalls == raw[i].toolCalls;
  }

  lemma {:induction false} FadedHead(raw: seq<Message>, seen: seq<Message>, from: nat)
    requires Faded(raw, seen) && from <= |raw|
    ensures SystemEnd(seen, from) == SystemEnd(raw, from)
    decreases |raw| - from
  {
    hide IsPlaceholder;
    if from < |raw| {
      assert FadedAt(raw[from], seen[from]);
      FadedHead(raw, seen, from + 1);
    }
  }

  lemma {:induction false} FadedPlan(format: string -> string, raw: seq<Message>, seen: seq<Message>, n: nat)
    requires Faded(raw, seen) && n <= |raw|
    ensures PlanOf(format, seen, n) == PlanOf(format, raw, n)
  {
    hide IsPlaceholder, PlanOfCalls;
    if n > 0 {
      FadedPlan(format, raw, seen, n - 1);
      assert FadedAt(raw[n - 1], seen[n - 1]);
    }
  }

  lemma {:induction false} FadedEdits(r: Readers, raw: seq<Message>, seen: seq<Message>, n: nat)
    requires Faded(raw, seen) && n <= |raw|
    ensures Edits(r, seen, n) == Edits(r, raw, n)
  {
    hide IsPlaceholder, EditsOf;
    if n > 0 {
      FadedEdits(r, raw, seen, n - 1);
      assert FadedAt(raw[n - 1], seen[n - 1]);
    }
  }

  lemma {:induction false} FadedInstructions(x: Extract, raw: seq<Message>, seen: seq<Message>, keys: Paths, n: nat)
    requires Faded(raw, seen) && n <= |raw|
    ensures Loads(x.Instructions(), keys, seen, n)
      == Loads(x.Instructions(), Keys(x.Instructions(), raw, |raw|), raw, n)
  {
    hide IsPlaceholder, TrimSpace, WithNames, StartsWith;
    if n > 0 {
      FadedInstructions(x, raw, seen, keys, n - 1);
      assert FadedAt(raw[n - 1], seen[n - 1]);
    }
  }

  /** What fading cannot touch: the plan, the edited paths in order, and the instructions. */
  ghost predicate AgreesWith(x: Extract, st: State, raw: seq<Message>) {
    && st.plan == PlanOf(x.format, raw, |raw|)
    && NamesOf(st.edits) == NamesOf(Recent(x.edits, raw))
    && st.instructions == Latest(AllLoads(x.Instructions(), raw))
  }

  lemma FadedAgrees(x: Extract, raw: seq<Message>, seen: seq<Message>, task: Option<Task>)
    requires Faded(raw, seen)
    ensures AgreesWith(x, Direct(x, seen, task), raw)
  {
    hide Faded, Edits, Loads, PlanOf, Latest, LastSeen, Keys, NamesOf, Notes;
    assert |raw| == |seen| by { FadedLength(raw, seen); }
    FadedPlan(x.format, raw, seen, |raw|);
    FadedEdits(x.edits, raw, seen, |raw|);
    RecentNames(x.edits, raw);
    RecentNames(x.edits, seen);
    FadedInstructions(x, raw, seen, Keys(x.Instructions(), seen, |seen|), |raw|);
  }

  lemma FadedLength(raw: seq<Message>, seen: seq<Message>)
    requires Faded(raw, seen)
    ensures |raw| == |seen|
  {
  }

  /** Pruning the compacted history prunes the raw one behind the summary. */
  lemma ThinnedTracks(x: Extract, raw: seq<Message>, p: Progress, pruning: Option<int>) returns (seen: seq<Message>)
    requires Tracks(x, raw, p)
    ensures Tracks(x, seen, Progress(Thinned(p.history, pruning), p.elisions)) && Faded(raw, seen)
    ensures pruning.None? ==> seen == raw
  {
    seen := raw;
    if pruning.Some? {
      hide Pruned, FadedAt, ContentOf, Elided, Spliced;
      PrunedFades(p.history, pruning.value);
      if p.elisions == [] {
        seen := Pruned(p.history, pruning.value);
      } else {
        seen := FadedTracks(x, raw, p, Pruned(p.history, pruning.value));
      }
    } else {
      hide Tracks, IsPlaceholder;
    }
  }

  lemma FadedTracks(x: Extract, raw: seq<Message>, p: Progress, out: seq<Message>) returns (seen: seq<Message>)
    requires Tracks(x, raw, p) && p.elisions != [] && Faded(p.history, out)
    ensures Tracks(x, seen, Progress(out, p.elisions)) && Faded(raw, seen)
  {
    hide ContentOf, Elided, Spliced, IsPlaceholder;
    var head, cut := SystemEnd(raw, 0), Cut(raw, p.elisions);
    seen := FadedSplice(raw, head, UserMessage(ContentOf(x, p.elisions)), cut, out);
    FadedHead(raw, seen, 0);
    assert FadedAt(raw[cut], seen[cut]);
  }

  lemma FadedSplice(raw: seq<Message>, head: nat, m: Message, cut: nat, out: seq<Message>) returns (seen: seq<Message>)
    requires head <= cut <= |raw| && m.role != Tool && (forall i | 0 <= i < head :: raw[i].role != Tool)
    requires Faded(Spliced(raw, head, m, cut), out)
    ensures Faded(raw, seen) && out == Spliced(seen, head, m, cut) && seen[..cut] == raw[..cut]
    ensures seen[head..cut] == raw[head..cut]
  {
    hide IsPlaceholder;
    var h := Spliced(raw, head, m, cut);
    seen := raw[..cut] + out[head + 1..];
    assert forall i | 0 <= i < |h| :: FadedAt(h[i], out[i]);
    assert out[..head] == raw[..head] by { assert forall i | 0 <= i < head :: h[i] == raw[i]; }
    assert out[head] == m by { assert h[head] == m; }
    forall i | cut <= i < |raw| ensures FadedAt(raw[i], seen[i]) {
      assert h[head + 1 + i - cut] == raw[i] && seen[i] == out[head + 1 + i - cut];
    }
    assert out == out[..head] + [out[head]] + out[head + 1..];
    assert seen[..head] == raw[..head] && seen[cut..] == out[head + 1..];
  }

  lemma {:induction false} PlayTracks(x: Extract, start: seq<Message>, rounds: seq<Round>) returns (seen: seq<Message>)
    requires Valid(start) && forall round | round in rounds :: Valid(round.added)
    ensures Faded(Raw(start, rounds), seen)
    ensures Tracks(x, seen, Play(x, start, rounds)) && ValidPieces(Play(x, start, rounds).elisions)
    ensures (forall round | round in rounds :: round.pruning.None?) ==> seen == Raw(start, rounds)
  {
    seen := start;
    if rounds != [] {
      hide FadedAt, Valid, Tracks, ValidPieces, Compacting, Thinned, Faded;
      var front, last := rounds[..|rounds| - 1], rounds[|rounds| - 1];
      var p := Play(x, start, front);
      var before := PlayTracks(x, start, front);
      assert forall round | round in front :: round in rounds;
      assert last in rounds;
      TracksGrow(x, before, p, last.added);
      FadedGrow(Raw(start, front), before, last.added);
      seen := ThinnedTracks(x, before + last.added, p.(history := p.history + last.added), last.pruning);
      FadedTwice(Raw(start, rounds), before + last.added, seen);
      RawIsValid(start, rounds);
      FadedIsValid(Raw(start, rounds), seen);
      CompactingTracks(x, seen, p.(history := Thinned(p.history + last.added, last.pruning)), last);
    }
  }

  /* The pieces use ids of their own. */

  /** A replayable stretch holds only results of its own calls. */
  lemma ResultsAnswerCalls(ms: seq<Message>)
    requires Valid(ms)
    ensures ResultIds(ms) <= CallIds(ms)
  {
    hide Valid;
    ValidIffPaired(ms);
    forall id | id in ResultIds(ms) ensures id in CallIds(ms) {
      var i :| 0 <= i < |ms| && ms[i].role == Tool && ms[i].toolCallId == id;
      var j: nat, k: nat :| IsAnswer(ms, j, k, i);
      assert Answers(ms, j, k);
      assert ms[j] in ms && ms[j].toolCalls[k] in ms[j].toolCalls;
    }
  }

  lemma UniqueSplits(a: seq<Message>, b: seq<Message>)
    requires UniqueIds(a + b)
    ensures UniqueIds(a) && UniqueIds(b) && CallIds(a) !! CallIds(b)
  {
    var ms := a + b;
    assert forall i | 0 <= i < |a| :: ms[i] == a[i];
    assert forall i | 0 <= i < |b| :: ms[|a| + i] == b[i];
    forall id | id in CallIds(a) ensures id !in CallIds(b) {
      var i, k :| 0 <= i < |a| && 0 <= k < |a[i].toolCalls| && a[i].toolCalls[k].id == id;
      forall j, l | 0 <= j < |b| && 0 <= l < |b[j].toolCalls| ensures b[j].toolCalls[l].id != id {
        assert ms[i].toolCalls[k].id == id && ms[|a| + j] == b[j];
      }
    }
  }

  lemma {:induction false} PiecesAreElided(es: seq<Elision>, i: nat)
    requires i < |es|
    ensures forall m | m in es[i].piece :: m in Elided(es)
    ensures CallIds(es[i].piece) <= CallIds(Elided(es))
  {
    if i < |es| - 1 {
      PiecesAreElided(es[..|es| - 1], i);
    }
  }

  lemma {:induction false} PiecesUnique(es: seq<Elision>, i: nat)
    requires UniqueIds(Elided(es)) && i < |es|
    ensures UniqueIds(es[i].piece)
  {
    hide UniqueIds;
    UniqueSplits(Elided(es[..|es| - 1]), es[|es| - 1].piece);
    if i < |es| - 1 {
      PiecesUnique(es[..|es| - 1], i);
    }
  }

  lemma {:induction false} PiecesApart(es: seq<Elision>, i: nat, j: nat)
    requires UniqueIds(Elided(es)) && ValidPieces(es) && i < j < |es|
    ensures NoSharedIds(es[i].piece, es[j].piece)
  {
    hide UniqueIds, Valid, CallIds, NoSharedIds;
    var front, last := es[..|es| - 1], es[|es| - 1].piece;
    UniqueSplits(Elided(front), last);
    if j < |es| - 1 {
      PiecesApart(front, i, j);
    } else {
      PiecesAreElided(front, i);
      ApartByCalls(es[i].piece, last);
    }
  }

  lemma ApartByCalls(a: seq<Message>, b: seq<Message>)
    requires Valid(a) && Valid(b) && CallIds(a) !! CallIds(b)
    ensures NoSharedIds(a, b)
  {
    ResultsAnswerCalls(a);
    ResultsAnswerCalls(b);
  }

  /** Each block can be read back behind its prose (PreservedState.ReadBack says when). */
  ghost predicate BlocksReadable(x: Extract, es: seq<Elision>) {
    forall n | 0 < n <= |es| :: Readable(Headed(es[n - 1].prose), Direct(x, Elided(es[..n]), LastTask(es[..n])))
  }

  lemma ChainHolds(x: Extract, es: seq<Elision>)
    requires UniqueIds(Elided(es)) && Unshadowed(Elided(es)) && ValidPieces(es) && BlocksReadable(x, es)
    ensures ChainOk(x, es)
  {
    hide UniqueIds, Valid, NoSharedIds, Readable, Direct, Elided, LastTask, IsSummary;
    forall i | 0 <= i < |es| ensures UniqueIds(es[i].piece) && Unshadowed(es[i].piece) {
      PiecesUnique(es, i);
      PiecesAreElided(es, i);
    }
    forall i, j | 0 <= i < j < |es| ensures NoSharedIds(es[i].piece, es[j].piece) {
      PiecesApart(es, i, j);
    }
  }

  /** Start from a valid history, let it grow by valid stretches whose tool calls have ids of their own, and prune
      and compact it after each of them, in whatever way. The history is then the raw one, seen with some
      tool results faded to placeholders, but for one stretch behind the system head; a summary message stands in
      its place, and the block in that message reads back as what one look at the whole replaced stretch
      gives. In the plan, the edited paths and the instructions that is what the raw stretch gives; without
      pruning it is so in everything. */
  lemma SummaryDescribesElided(x: Extract, start: seq<Message>, rounds: seq<Round>) returns (seen: seq<Message>)
    requires Valid(start) && forall round | round in rounds :: Valid(round.added)
    requires UniqueIds(Raw(start, rounds)) && Unshadowed(Raw(start, rounds))
    requires BlocksReadable(x, Play(x, start, rounds).elisions)
    ensures Faded(Raw(start, rounds), seen)
    ensures (forall round | round in rounds :: round.pruning.None?) ==> seen == Raw(start, rounds)
    ensures var raw, p := Raw(start, rounds), Play(x, start, rounds);
      var head := SystemEnd(raw, 0);
      if p.elisions == [] then p.history == seen
      else
        var cut := head + |Elided(p.elisions)|;
        && cut < |raw| && raw[cut].role == Assistant && head < |p.history|
        && p.history == seen[..head] + [UserMessage(p.history[head].content)] + seen[cut..]
        && ParseBlock(p.history[head].content) == Direct(x, seen[head..cut], LastTask(p.elisions))
        && Describes(x, seen[head..cut], ParseBlock(p.history[head].content))
        && AgreesWith(x, ParseBlock(p.history[head].content), raw[head..cut])
  {
    hide Valid, UniqueIds, IsSummary, Play, Raw, BlocksReadable, ValidPieces, Direct, ParseBlock, ContentOf, Elided;
    hide AgreesWith, Describes;
    var raw, p := Raw(start, rounds), Play(x, start, rounds);
    seen := PlayTracks(x, start, rounds);
    FadedHead(raw, seen, 0);
    if p.elisions != [] {
      var head, cut := SystemEnd(raw, 0), Cut(raw, p.elisions);
      assert FadedAt(raw[cut], seen[cut]);
      FadedIds(raw, seen);
      StretchReads(x, seen, p);
      FadedSlice(raw, seen, head, cut);
      FadedAgrees(x, raw[head..cut], seen[head..cut], LastTask(p.elisions));
    }
  }

  lemma StretchReads(x: Extract, seen: seq<Message>, p: Progress)
    requires Tracks(x, seen, p) && p.elisions != [] && ValidPieces(p.elisions)
    requires UniqueIds(seen) && Unshadowed(seen) && BlocksReadable(x, p.elisions)
    ensures var head, cut := SystemEnd(seen, 0), Cut(seen, p.elisions);
      && head < |p.history| && p.history == seen[..head] + [UserMessage(p.history[head].content)] + seen[cut..]
      && ParseBlock(p.history[head].content) == Direct(x, seen[head..cut], LastTask(p.elisions))
      && Describes(x, seen[head..cut], ParseBlock(p.history[head].content))
  {
    hide UniqueIds, IsSummary, BlocksReadable, ValidPieces, Direct, ParseBlock, ContentOf, Elided, Describes;
    var head, cut := SystemEnd(seen, 0), Cut(seen, p.elisions);
    assert seen == seen[..head] + seen[head..cut] + seen[cut..];
    UniqueSplits(seen[..head] + seen[head..cut], seen[cut..]);
    UniqueSplits(seen[..head], seen[head..cut]);
    ChainHolds(x, p.elisions);
    StateSurvives(x, p.elisions);
    SummaryDescribes(x, p.elisions);
    assert p.history[head] == UserMessage(ContentOf(x, p.elisions));
  }

  /** And the compacted history can be replayed. */
  lemma ChainKeepsValid(x: Extract, start: seq<Message>, rounds: seq<Round>)
    requires Valid(start) && forall round | round in rounds :: Valid(round.added)
    ensures Valid(Play(x, start, rounds).history)
  {
    hide Valid, Play, Raw, ContentOf, Elided, Faded;
    RawIsValid(start, rounds);
    var seen := PlayTracks(x, start, rounds);
    FadedIsValid(Raw(start, rounds), seen);
    var p := Play(x, start, rounds);
    if p.elisions != [] {
      var head, cut := SystemEnd(seen, 0), Cut(seen, p.elisions);
      HeadIsNoAnswer(seen);
      ValidCut(seen, head);
      ValidCut(seen, cut);
      ValidSnoc(seen[..head], UserMessage(ContentOf(x, p.elisions)));
      ValidConcat(seen[..head] + [UserMessage(ContentOf(x, p.elisions))], seen[cut..]);
    }
  }

  /* What the controller does is such a round. */

  function Outcome(x: Extract, ms: seq<Message>, c: Compactor.Control, summarize: Summarize, task: Option<Task>,
                   pruning: Option<int>, out: seq<Message>): Round
  {
    var failing := (middle: seq<Message>) => Failed(ProviderError(false, false, false, false, ""));
    Round([], pruning, c.preserveLast, if out == Thinned(ms, pruning) then failing else summarize, task)
  }

  lemma OutcomePlays(x: Extract, p: Progress, c: Compactor.Control, summarize: Summarize, task: Option<Task>,
                     pruning: Option<int>, out: seq<Message>)
    requires var base := Thinned(p.history, pruning);
      var result := Compact(base, c.preserveLast, summarize, CarryOf(x, task));
      out == base || (result.Compacted? && out == result.messages)
    ensures PlayRound(x, p, Outcome(x, p.history, c, summarize, task, pruning, out)).history == out
  {
    hide CarryOf, Pruned, TrimSpace, WithSummary;
    assert p.history + [] == p.history;
  }

  /** A call of the controller at the top of a turn: whether it prunes, compacts, or drops what it got. */
  lemma ProactiveIsRound(x: Extract, p: Progress, c: Compactor.Control, toolTokens: nat, summarize: Summarize,
                         task: Option<Task>)
    returns (round: Round)
    requires c.ratio >= 0.0
    ensures round.added == [] && round.task == task
    ensures PlayRound(x, p, round).history
         == Compactor.Proactively(c, p.history, toolTokens, summarize, CarryOf(x, task)).messages
  {
    hide Compact, Pruned, CarryOf, PlayRound;
    var out := Compactor.Proactively(c, p.history, toolTokens, summarize, CarryOf(x, task)).messages;
    var pruned := Pruned(p.history, c.preserveLast);
    var pruning := if out != p.history && Estimate(pruned) < Estimate(p.history) then Some(c.preserveLast) else None;
    round := Outcome(x, p.history, c, summarize, task, pruning, out);
    OutcomePlays(x, p, c, summarize, task, pruning, out);
  }

  /** And its recovery from a context limit. */
  lemma ReactiveIsRound(x: Extract, p: Progress, c: Compactor.Control, toolTokens: nat, error: ProviderError,
                        summarize: Summarize, task: Option<Task>)
    returns (round: Round)
    requires c.ratio >= 0.0
    ensures round.added == [] && round.task == task
    ensures PlayRound(x, p, round).history
         == Compactor.Reactively(c, p.history, toolTokens, error, summarize, CarryOf(x, task)).messages
  {
    hide Compact, Pruned, CarryOf, PlayRound;
    var out := Compactor.Reactively(c, p.history, toolTokens, error, summarize, CarryOf(x, task)).messages;
    round := Outcome(x, p.history, c, summarize, task, None, out);
    OutcomePlays(x, p, c, summarize, task, None, out);
  }
}
