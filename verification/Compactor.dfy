/** The per-run compaction controller (internal/agent/compaction.go, compactionState):
    when to compact, what size counts, and the learned calibration ratio. */
module Compactor {
  import opened Text
  import opened Transcript
  import opened Tokens
  import opened Prune
  import opened Summarizer
  import opened Compaction

  const ALPHA := 0.3

  /** The value of a controller. A ratio of 0.0 is one that no sample has set. */
  datatype Control = Control(
    enabled: bool, threshold: nat, preserveLast: int,
    lowWaterMark: nat, reactiveAttempted: bool, ratio: real)

  function Threshold(contextWindow: int): (t: nat)
    ensures t <= if contextWindow <= 0 then 0 else contextWindow
  {
    if contextWindow <= 0 then 0 else (contextWindow as real * TRIGGER_RATIO).Floor
  }

  function NewControl(contextWindow: int, preserveLast: int): Control {
    Control(contextWindow > 0, Threshold(contextWindow), preserveLast, 0, false, 0.0)
  }

  function Clamp(sample: real): (r: real)
    ensures 0.5 <= r <= 2.0
  {
    if sample < 0.5 then 0.5 else if sample > 2.0 then 2.0 else sample
  }

  function Calibrated(c: Control, rawEstimate: int, actual: int): Control {
    if !c.enabled || rawEstimate <= 0 || actual <= 0 then c
    else
      var prior := if c.ratio <= 0.0 then 1.0 else c.ratio;
      c.(ratio := prior * (1.0 - ALPHA) + Clamp(actual as real / rawEstimate as real) * ALPHA)
  }

  /** The calibrated size of a raw estimate. */
  function Scaled(ratio: real, raw: nat): (size: nat)
    requires ratio >= 0.0
  {
    if ratio <= 0.0 then raw else (raw as real * ratio).Floor
  }

  /** The size every decision looks at: the messages and the tool definitions of a request. */
  function Size(c: Control, ms: seq<Message>, toolTokens: nat): nat
    requires c.ratio >= 0.0
  {
    Scaled(c.ratio, Estimate(ms) + toolTokens)
  }

  /** What one call of the controller did: the history and control it leaves, whether the
      summarizer was called, and whether it failed. */
  datatype Proactive = Proactive(messages: seq<Message>, control: Control, asked: bool, failed: bool)

  /** The paid stage, on the history the free stage left. */
  function Paid(c: Control, ms: seq<Message>, toolTokens: nat, summarize: Summarize, carry: Carry): Proactive
    requires c.ratio >= 0.0
  {
    var size := Size(c, ms, toolTokens);
    match Compact(ms, c.preserveLast, summarize, carry)
    case CompactionError(_) => Proactive(ms, c, true, true)
    case Unchanged(_) => Proactive(ms, c.(lowWaterMark := size), false, false)
    case Compacted(out, _, _, _) =>
      var newSize := Size(c, out, toolTokens);
      if newSize >= size then Proactive(ms, c.(lowWaterMark := size), true, false)
      else Proactive(out, c.(lowWaterMark := newSize), true, false)
  }

  function Proactively(c: Control, ms: seq<Message>, toolTokens: nat, summarize: Summarize, carry: Carry): Proactive
    requires c.ratio >= 0.0
  {
    var size := Size(c, ms, toolTokens);
    if !c.enabled || size <= c.threshold || (c.lowWaterMark > 0 && size <= c.lowWaterMark)
    then Proactive(ms, c, false, false)
    else
      var pruned := Pruned(ms, c.preserveLast);
      if Estimate(pruned) >= Estimate(ms) then Paid(c, ms, toolTokens, summarize, carry)
      else
        var prunedSize := Size(c, pruned, toolTokens);
        if prunedSize <= c.threshold then Proactive(pruned, c.(lowWaterMark := prunedSize), false, false)
        else Paid(c, pruned, toolTokens, summarize, carry)
  }

  datatype Reactive = Reactive(messages: seq<Message>, control: Control, retried: bool, failure: Option<ProviderError>)

  function Reactively(c: Control, ms: seq<Message>, toolTokens: nat, error: ProviderError, summarize: Summarize,
                      carry: Carry): Reactive
    requires c.ratio >= 0.0
  {
    if !c.enabled || c.reactiveAttempted || !error.contextLimit then Reactive(ms, c, false, None)
    else match Compact(ms, c.preserveLast, summarize, carry)
      case CompactionError(e) => Reactive(ms, c.(reactiveAttempted := true), true, Some(e))
      case Unchanged(_) => Reactive(ms, c, false, None)
      case Compacted(out, _, _, _) =>
        if Estimate(out) >= Estimate(ms) then Reactive(ms, c, false, None)
        else Reactive(out, c.(reactiveAttempted := true, lowWaterMark := Size(c, out, toolTokens)), true, None)
  }

  class CompactionState {
    var enabled: bool
    var threshold: nat
    var preserveLast: int
    var lowWaterMark: nat
    var reactiveAttempted: bool
    var calibrationRatio: real

    ghost predicate Valid() reads this { calibrationRatio >= 0.0 }

    ghost function Value(): Control reads this {
      Control(enabled, threshold, preserveLast, lowWaterMark, reactiveAttempted, calibrationRatio)
    }

    constructor (contextWindow: int, preserve: int)
      ensures Valid() && Value() == NewControl(contextWindow, preserve)
      ensures (enabled <==> contextWindow > 0) && preserveLast == preserve
      ensures lowWaterMark == 0 && !reactiveAttempted && calibrationRatio == 0.0
    {
      enabled := contextWindow > 0;
      threshold := Threshold(contextWindow);
      preserveLast := preserve;
      lowWaterMark := 0;
      reactiveAttempted := false;
      calibrationRatio := 0.0;
    }

    method Calibrate(rawEstimate: int, actualPromptTokens: int)
      requires Valid()
      modifies this`calibrationRatio
      ensures Valid() && Value() == Calibrated(old(Value()), rawEstimate, actualPromptTokens)
    {
      if !enabled || rawEstimate <= 0 || actualPromptTokens <= 0 {
        return;
      }
      var sample := actualPromptTokens as real / rawEstimate as real;
      if sample < 0.5 {
        sample := 0.5;
      } else if sample > 2.0 {
        sample := 2.0;
      }
      if calibrationRatio <= 0.0 {
        calibrationRatio := 1.0;
      }
      calibrationRatio := calibrationRatio * (1.0 - ALPHA) + sample * ALPHA;
    }

    method CalibratedTokens(raw: nat) returns (size: nat)
      requires Valid()
      ensures size == Scaled(calibrationRatio, raw)
    {
      if calibrationRatio <= 0.0 {
        return raw;
      }
      size := (raw as real * calibrationRatio).Floor;
    }

    method MaybeCompact(messages: seq<Message>, toolTokens: nat, summarize: Summarize, carry: Carry)
      returns (out: seq<Message>)
      requires Valid()
      modifies this
      ensures Valid()
      ensures var spec := Proactively(old(Value()), messages, toolTokens, summarize, carry);
        out == spec.messages && Value() == spec.control
    {
      hide Pruned, Compact;
      out := messages;
      if !enabled {
        return;
      }
      var raw := EstimateTokens(messages);
      var size := CalibratedTokens(raw + toolTokens);
      if size <= threshold {
        return;
      }
      if lowWaterMark > 0 && size <= lowWaterMark {
        return;
      }
      var pruned, reclaimed := PruneStaleToolOutput(messages, preserveLast);
      if reclaimed > 0 {
        out := pruned;
        raw := EstimateTokens(out);
        size := CalibratedTokens(raw + toolTokens);
        if size <= threshold {
          lowWaterMark := size;
          return;
        }
      }
      var result := CompactMessages(out, preserveLast, summarize, carry);
      if result.CompactionError? {
        return;
      }
      ReadsBack(out, preserveLast, summarize, carry);
      var newRaw := EstimateTokens(result.messages);
      var newSize := CalibratedTokens(newRaw + toolTokens);
      if newSize >= size {
        lowWaterMark := size;
        return;
      }
      lowWaterMark := newSize;
      out := result.messages;
    }

    method Recover(messages: seq<Message>, toolTokens: nat, error: ProviderError, summarize: Summarize, carry: Carry)
      returns (out: seq<Message>, retried: bool, failure: Option<ProviderError>)
      requires Valid()
      modifies this
      ensures Valid()
      ensures Reactive(out, Value(), retried, failure)
           == Reactively(old(Value()), messages, toolTokens, error, summarize, carry)
    {
      hide Compact;
      out, retried, failure := messages, false, None;
      if !enabled {
        return;
      }
      if reactiveAttempted {
        return;
      }
      if !error.contextLimit {
        return;
      }
      var result := CompactMessages(messages, preserveLast, summarize, carry);
      if result.CompactionError? {
        reactiveAttempted := true;
        return messages, true, Some(result.error);
      }
      ReadsBack(messages, preserveLast, summarize, carry);
      var newRaw := EstimateTokens(result.messages);
      var raw := EstimateTokens(messages);
      if newRaw >= raw {
        return;
      }
      reactiveAttempted := true;
      lowWaterMark := CalibratedTokens(newRaw + toolTokens);
      return result.messages, true, None;
    }
  }

  lemma ReadsBack(ms: seq<Message>, preserveLast: int, summarize: Summarize, carry: Carry)
    ensures var result := Compact(ms, preserveLast, summarize, carry);
      result.Unchanged? ==> result.messages == ms
  {
  }

  /* What the controller promises. */

  /** The threshold is seven tenths of the window, rounded down. */
  lemma ThresholdIsSevenTenths(contextWindow: int)
    requires contextWindow > 0
    ensures 10 * Threshold(contextWindow) <= 7 * contextWindow < 10 * Threshold(contextWindow) + 10
  {
    var exact := contextWindow as real * TRIGGER_RATIO;
    assert exact * 10.0 == 7.0 * contextWindow as real;
  }

  /** The size is the raw estimate times the ratio, rounded down; no ratio counts as one. */
  lemma ScaledIsProduct(ratio: real, raw: nat)
    requires ratio >= 0.0
    ensures var product := raw as real * if ratio == 0.0 then 1.0 else ratio;
      Scaled(ratio, raw) as real <= product < Scaled(ratio, raw) as real + 1.0
  {
  }

  /** The controller has reason to act: over the threshold, and grown since the last time. */
  predicate Due(c: Control, ms: seq<Message>, toolTokens: nat)
    requires c.ratio >= 0.0
  {
    && c.enabled && Size(c, ms, toolTokens) > c.threshold
    && (c.lowWaterMark == 0 || Size(c, ms, toolTokens) > c.lowWaterMark)
  }

  /** Pruning lowers the estimate. */
  predicate Reclaims(ms: seq<Message>, preserveLast: int) { Estimate(Pruned(ms, preserveLast)) < Estimate(ms) }

  /** When pruning alone gets a due history under the threshold, the pruned history is the result, its size the
      new mark, and nobody is paid. */
  lemma PruningSuffices(c: Control, ms: seq<Message>, toolTokens: nat, summarize: Summarize, carry: Carry)
    requires c.ratio >= 0.0 && Due(c, ms, toolTokens) && Reclaims(ms, c.preserveLast)
    requires Size(c, Pruned(ms, c.preserveLast), toolTokens) <= c.threshold
    ensures var p := Proactively(c, ms, toolTokens, summarize, carry);
      && p.messages == Pruned(ms, c.preserveLast) && !p.asked && !p.failed
      && p.control == c.(lowWaterMark := Size(c, p.messages, toolTokens))
  {
    hide Pruned, Compact;
  }

  /** Otherwise the history that pruning leaves is compacted. A smaller compaction is the result and its size the
      new mark; one that is not smaller, or nothing to compact, leaves that history with its own size as the mark;
      and a summarizer that fails leaves it and the control. */
  lemma DueIsCompacted(c: Control, ms: seq<Message>, toolTokens: nat, summarize: Summarize, carry: Carry)
    requires c.ratio >= 0.0 && Due(c, ms, toolTokens)
    requires Reclaims(ms, c.preserveLast) ==> Size(c, Pruned(ms, c.preserveLast), toolTokens) > c.threshold
    ensures var h := if Reclaims(ms, c.preserveLast) then Pruned(ms, c.preserveLast) else ms;
      var result := Compact(h, c.preserveLast, summarize, carry);
      var p := Proactively(c, ms, toolTokens, summarize, carry);
      match result
      case CompactionError(_) => p == Proactive(h, c, true, true)
      case Unchanged(_) => p == Proactive(h, c.(lowWaterMark := Size(c, h, toolTokens)), false, false)
      case Compacted(out, removed, _, _) =>
        if Size(c, out, toolTokens) < Size(c, h, toolTokens) then
          && p == Proactive(out, c.(lowWaterMark := Size(c, out, toolTokens)), true, false)
          && Summarized(h, Keep(c.preserveLast), p.messages, removed)
        else p == Proactive(h, c.(lowWaterMark := Size(c, h, toolTokens)), true, false)
  {
    var h := if Reclaims(ms, c.preserveLast) then Pruned(ms, c.preserveLast) else ms;
    if Compact(h, c.preserveLast, summarize, carry).Compacted? {
      CompactionShape(h, c.preserveLast, summarize, carry);
    }
    hide Pruned, Compact, Summarized;
  }

  /** And a history that is not due stays, whatever it is. */
  lemma NotDueStays(c: Control, ms: seq<Message>, toolTokens: nat, summarize: Summarize, carry: Carry)
    requires c.ratio >= 0.0 && !Due(c, ms, toolTokens)
    ensures Proactively(c, ms, toolTokens, summarize, carry) == Proactive(ms, c, false, false)
  {
    hide Pruned, Compact;
  }

  /** A context-limit error is retried, the attempt not yet spent, exactly when a compaction lowers the estimate or
      the summarizer fails; then with the compacted history, or with that failure. */
  lemma RecoversWhenItHelps(c: Control, ms: seq<Message>, toolTokens: nat, error: ProviderError, summarize: Summarize,
                            carry: Carry)
    requires c.ratio >= 0.0 && c.enabled && !c.reactiveAttempted && error.contextLimit
    ensures var result := Compact(ms, c.preserveLast, summarize, carry);
      var r := Reactively(c, ms, toolTokens, error, summarize, carry);
      match result
      case CompactionError(e) => r == Reactive(ms, c.(reactiveAttempted := true), true, Some(e))
      case Unchanged(_) => !r.retried
      case Compacted(out, removed, _, _) =>
        if Estimate(out) < Estimate(ms) then
          && r.retried && r.failure == None && r.messages == out && Summarized(ms, Keep(c.preserveLast), out, removed)
          && r.control == c.(reactiveAttempted := true, lowWaterMark := Size(c, out, toolTokens))
        else !r.retried
  {
    if Compact(ms, c.preserveLast, summarize, carry).Compacted? {
      CompactionShape(ms, c.preserveLast, summarize, carry);
    }
    hide Compact, Summarized;
  }

  /** Once a sample was taken the ratio lies in [0.5, 2], whatever the provider reports. */
  ghost predicate InBand(ratio: real) { ratio == 0.0 || 0.5 <= ratio <= 2.0 }

  function CalibratedBy(c: Control, samples: seq<(int, int)>): Control {
    if samples == [] then c
    else Calibrated(CalibratedBy(c, samples[..|samples| - 1]), samples[|samples| - 1].0, samples[|samples| - 1].1)
  }

  lemma {:induction false} RatioStaysInBand(contextWindow: int, preserveLast: int, samples: seq<(int, int)>)
    ensures InBand(CalibratedBy(NewControl(contextWindow, preserveLast), samples).ratio)
  {
    if samples != [] {
      RatioStaysInBand(contextWindow, preserveLast, samples[..|samples| - 1]);
    }
  }

  function Power(x: real, n: nat): real { if n == 0 then 1.0 else x * Power(x, n - 1) }

  function CalibratedTimes(c: Control, raw: int, actual: int, n: nat): Control {
    if n == 0 then c else Calibrated(CalibratedTimes(c, raw, actual, n - 1), raw, actual)
  }

  /** A sample counts as the nearest one of the band from 0.5 to 2. */
  lemma ClampIsNearest(sample: real, b: real)
    requires 0.5 <= b <= 2.0
    ensures 0.5 <= Clamp(sample) <= 2.0
    ensures b <= sample ==> b <= Clamp(sample) <= sample || Clamp(sample) == sample
    ensures sample <= b ==> sample <= Clamp(sample) <= b || Clamp(sample) == sample
  {
  }

  /** The first sample moves the ratio from one; a sample without an estimate or a count is ignored. */
  lemma FirstSample(c: Control, raw: int, actual: int)
    ensures c.ratio == 0.0 && c.enabled && raw > 0 && actual > 0
      ==> Calibrated(c, raw, actual) == Calibrated(c.(ratio := 1.0), raw, actual)
    ensures !c.enabled || raw <= 0 || actual <= 0 ==> Calibrated(c, raw, actual) == c
  {
  }

  /** Repeating one sample n times leaves the share 0.7^n of the first distance to it. */
  lemma {:induction false} RatioConverges(c: Control, raw: int, actual: int, n: nat)
    requires c.enabled && raw > 0 && actual > 0 && 0.5 <= c.ratio <= 2.0
    ensures var sample := Clamp(actual as real / raw as real);
      var after := CalibratedTimes(c, raw, actual, n);
      && after.enabled && 0.5 <= after.ratio <= 2.0
      && after.ratio - sample == Power(0.7, n) * (c.ratio - sample)
  {
    hide Clamp, Calibrated;
    if n > 0 {
      RatioConverges(c, raw, actual, n - 1);
      OneSample(CalibratedTimes(c, raw, actual, n - 1), raw, actual, c.ratio, Power(1.0 - ALPHA, n - 1));
    }
  }

  lemma OneSample(c: Control, raw: int, actual: int, start: real, p: real)
    requires c.enabled && raw > 0 && actual > 0 && 0.5 <= c.ratio <= 2.0
    requires c.ratio - Clamp(actual as real / raw as real) == p * (start - Clamp(actual as real / raw as real))
    ensures var sample := Clamp(actual as real / raw as real);
      var after := Calibrated(c, raw, actual);
      && after.enabled && 0.5 <= after.ratio <= 2.0
      && after.ratio - sample == (1.0 - ALPHA) * p * (start - sample)
  {
    MovesTowards(c.ratio, Clamp(actual as real / raw as real), start, p);
  }

  lemma MovesTowards(before: real, sample: real, start: real, p: real)
    requires before - sample == p * (start - sample)
    ensures before * (1.0 - ALPHA) + sample * ALPHA - sample == (1.0 - ALPHA) * p * (start - sample)
  {
    calc {
      before * (1.0 - ALPHA) + sample * ALPHA - sample;
      (1.0 - ALPHA) * (before - sample);
      (1.0 - ALPHA) * (p * (start - sample));
      (1.0 - ALPHA) * p * (start - sample);
    }
  }

  lemma ScaledIsMonotone(ratio: real, a: nat, b: nat)
    requires ratio >= 0.0 && a <= b
    ensures Scaled(ratio, a) <= Scaled(ratio, b)
  {
    assert a as real * ratio <= b as real * ratio;
  }

  /** Proactive compaction never returns a larger history. */
  lemma NeverGrows(c: Control, ms: seq<Message>, toolTokens: nat, summarize: Summarize, carry: Carry)
    requires c.ratio >= 0.0
    ensures Size(c, Proactively(c, ms, toolTokens, summarize, carry).messages, toolTokens) <= Size(c, ms, toolTokens)
  {
    hide Pruned, Compact;
    var pruned := Pruned(ms, c.preserveLast);
    if Estimate(pruned) < Estimate(ms) {
      ScaledIsMonotone(c.ratio, Estimate(pruned) + toolTokens, Estimate(ms) + toolTokens);
    }
  }

  /** Whatever the summarizer, asking gives the history back, leaves the control alone and calls nobody. */
  ghost predicate Rests(c: Control, ms: seq<Message>, toolTokens: nat, carry: Carry)
    requires c.ratio >= 0.0
  {
    forall again: Summarize :: Proactively(c, ms, toolTokens, again, carry) == Proactive(ms, c, false, false)
  }

  /** No thrash: unless the summarizer failed, asking again at once changes nothing and costs nothing. */
  lemma NoThrash(c: Control, ms: seq<Message>, toolTokens: nat, summarize: Summarize, carry: Carry)
    requires c.ratio >= 0.0
    ensures var once := Proactively(c, ms, toolTokens, summarize, carry);
      once.control.ratio >= 0.0 && (!once.failed ==> Rests(once.control, once.messages, toolTokens, carry))
  {
    hide Pruned, Compact;
    NoThrashAfterPaying(c, ms, toolTokens, summarize, carry);
    NoThrashAfterPaying(c, Pruned(ms, c.preserveLast), toolTokens, summarize, carry);
  }

  lemma NoThrashAfterPaying(c: Control, ms: seq<Message>, toolTokens: nat, summarize: Summarize, carry: Carry)
    requires c.ratio >= 0.0
    ensures var paid := Paid(c, ms, toolTokens, summarize, carry);
      !paid.failed && Size(c, ms, toolTokens) > c.threshold ==>
        && Size(paid.control, paid.messages, toolTokens) == paid.control.lowWaterMark
        && paid.control == c.(lowWaterMark := paid.control.lowWaterMark)
  {
    hide Pruned, Compact;
  }

  /** The summarizer is called only for a history that is over the threshold and has outgrown
      the last compaction. */
  lemma PaysOnlyWhenGrown(c: Control, ms: seq<Message>, toolTokens: nat, summarize: Summarize, carry: Carry)
    requires c.ratio >= 0.0 && Proactively(c, ms, toolTokens, summarize, carry).asked
    ensures c.enabled && Size(c, ms, toolTokens) > c.threshold
    ensures c.lowWaterMark > 0 ==> Size(c, ms, toolTokens) > c.lowWaterMark
  {
    hide Pruned, Compact;
  }

  lemma PaidKeepsValid(c: Control, ms: seq<Message>, toolTokens: nat, summarize: Summarize, carry: Carry)
    requires c.ratio >= 0.0 && Valid(ms)
    ensures Valid(Paid(c, ms, toolTokens, summarize, carry).messages)
  {
    hide Pruned, TrimSpace, WithSummary, Estimate;
    CompactKeepsValid(ms, c.preserveLast, summarize, carry);
  }

  lemma CompactKeepsValid(ms: seq<Message>, preserveLast: int, summarize: Summarize, carry: Carry)
    requires Valid(ms)
    ensures var result := Compact(ms, preserveLast, summarize, carry);
      !result.CompactionError? ==> Valid(result.messages)
  {
    hide TrimSpace, WithSummary, Valid, Boundary, SystemEnd;
    var middle := Middle(ms, preserveLast);
    if middle != [] {
      forall content: string ensures Valid(WithSummary(ms, preserveLast, content)) {
        CompactionKeepsValid(ms, preserveLast, content);
      }
    }
  }

  /** Both paths hand the provider a history whose calls are all answered. */
  lemma ControllerKeepsValid(c: Control, ms: seq<Message>, toolTokens: nat, error: ProviderError, summarize: Summarize,
                             carry: Carry)
    requires c.ratio >= 0.0 && Valid(ms)
    ensures Valid(Proactively(c, ms, toolTokens, summarize, carry).messages)
    ensures Valid(Reactively(c, ms, toolTokens, error, summarize, carry).messages)
  {
    hide Pruned, Compact, Valid, Paid;
    PruningKeepsValid(ms, c.preserveLast);
    PaidKeepsValid(c, ms, toolTokens, summarize, carry);
    PaidKeepsValid(c, Pruned(ms, c.preserveLast), toolTokens, summarize, carry);
    CompactKeepsValid(ms, c.preserveLast, summarize, carry);
  }

  lemma CompactKeepsHead(ms: seq<Message>, preserveLast: int, summarize: Summarize, carry: Carry)
    requires ms != [] && ms[0].role == System
    ensures var result := Compact(ms, preserveLast, summarize, carry);
      !result.CompactionError? ==> result.messages != [] && result.messages[0] == ms[0]
  {
    hide TrimSpace, Boundary;
    assert SystemEnd(ms, 0) > 0;
  }

  /** And one that opens with the same system message. */
  lemma ControllerKeepsHead(c: Control, ms: seq<Message>, toolTokens: nat, error: ProviderError, summarize: Summarize,
                            carry: Carry)
    requires c.ratio >= 0.0 && ms != [] && ms[0].role == System
    ensures var out := Proactively(c, ms, toolTokens, summarize, carry).messages; out != [] && out[0] == ms[0]
    ensures var out := Reactively(c, ms, toolTokens, error, summarize, carry).messages; out != [] && out[0] == ms[0]
  {
    hide Pruned, Compact;
    PruningIsSafe(ms, c.preserveLast, 0);
    CompactKeepsHead(ms, c.preserveLast, summarize, carry);
    CompactKeepsHead(Pruned(ms, c.preserveLast), c.preserveLast, summarize, carry);
  }

  /** A retry happens only after a strict reduction, and at most once: the budget it spends is
      never given back by any later call of the controller. */
  lemma RecoversOnce(c: Control, ms: seq<Message>, toolTokens: nat, error: ProviderError, summarize: Summarize,
                     carry: Carry)
    requires c.ratio >= 0.0
    ensures var r := Reactively(c, ms, toolTokens, error, summarize, carry);
      && (r.retried ==> !c.reactiveAttempted && r.control.reactiveAttempted && error.contextLimit)
      && (r.retried && r.failure.None? ==> Estimate(r.messages) < Estimate(ms))
      && (!r.retried ==> r.messages == ms && r.control == c)
    ensures c.reactiveAttempted ==>
      && Reactively(c, ms, toolTokens, error, summarize, carry) == Reactive(ms, c, false, None)
      && Proactively(c, ms, toolTokens, summarize, carry).control.reactiveAttempted
      && forall raw: int, actual: int :: Calibrated(c, raw, actual).reactiveAttempted
  {
    hide Pruned, Compact;
  }

  /** A disabled controller touches neither the history nor itself, and no call changes the settings
      or, on the proactive path, the one-shot budget. */
  lemma SettingsStay(c: Control, ms: seq<Message>, toolTokens: nat, error: ProviderError, summarize: Summarize,
                     carry: Carry)
    requires c.ratio >= 0.0
    ensures var p := Proactively(c, ms, toolTokens, summarize, carry);
      && p.control == c.(lowWaterMark := p.control.lowWaterMark)
      && (!c.enabled ==> p.messages == ms)
    ensures var r := Reactively(c, ms, toolTokens, error, summarize, carry);
      && r.control.enabled == c.enabled
      && (!c.enabled ==> r == Reactive(ms, c, false, None))
  {
    hide Pruned, Compact;
  }
}
