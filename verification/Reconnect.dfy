/** Connecting to the provider with retries (internal/agent/reconnect.go). */
module Reconnect {
  import opened Text
  import opened Transcript
  import opened Summarizer

  const MAX_RECONNECTS := 4
  const BASE_MILLIS := 500
  const MAX_MILLIS := 8000

  /** A stream after it was read to its end or its error. */
  datatype Collected = Collected(
    text: string, toolCalls: seq<ToolCall>, droppedToolCalls: nat, hasReasoning: bool,
    forwardedText: bool, inputTokens: int, error: Option<ProviderError>)

  datatype Connection = Opened(stream: Collected) | Refused(error: ProviderError)

  /** The outside world: at each moment, what a connect returns and whether the run is cancelled. */
  datatype World = World(connect: nat -> Connection, cancelled: nat -> bool)

  /** A disconnect worth retrying: transport-shaped, and neither of the errors other handlers own. */
  predicate ShouldReconnect(cancelled: bool, e: ProviderError) {
    !cancelled && !e.contextLimit && !e.imageRejected && e.transient
  }

  function Doubled(attempt: nat): nat
    requires attempt >= 1
  {
    if attempt == 1 then BASE_MILLIS else 2 * Doubled(attempt - 1)
  }

  function Min(a: nat, b: nat): nat { if a < b then a else b }

  lemma {:induction false} DoubledGrows(attempt: nat, more: nat)
    requires 1 <= attempt <= more
    ensures Doubled(attempt) <= Doubled(more)
    decreases more
  {
    if attempt < more {
      DoubledGrows(attempt, more - 1);
    }
  }

  lemma FirstDelays(attempt: nat)
    requires attempt >= 1
    ensures Min(Doubled(attempt), MAX_MILLIS)
      == if attempt == 1 then 500 else if attempt == 2 then 1000 else if attempt == 3 then 2000
         else if attempt == 4 then 4000 else 8000
  {
    if attempt >= 5 {
      DoubledGrows(5, attempt);
    }
  }

  /** The backoff of an attempt: doubled each time, capped at eight seconds. */
  method BackoffFor(attempt: nat) returns (d: nat)
    requires attempt >= 1
    ensures d == Min(Doubled(attempt), MAX_MILLIS)
    ensures d == if attempt == 1 then 500 else if attempt == 2 then 1000 else if attempt == 3 then 2000
                 else if attempt == 4 then 4000 else 8000
  {
    FirstDelays(attempt);
    d := BASE_MILLIS;
    for i := 1 to attempt
      invariant d == Doubled(i) && d < 2 * MAX_MILLIS
    {
      if d >= MAX_MILLIS {
        DoubledGrows(i, attempt);
        return MAX_MILLIS;
      }
      d := d * 2;
    }
    if d > MAX_MILLIS {
      d := MAX_MILLIS;
    }
  }

  /** Up to half of the backoff is added as jitter; roll is the random number. */
  method JitteredBackoff(attempt: nat, roll: nat) returns (d: nat)
    requires attempt >= 1
    ensures var base := Min(Doubled(attempt), MAX_MILLIS); base <= d && 2 * d <= 3 * base
    ensures d <= 12000
    ensures 2 * roll <= Min(Doubled(attempt), MAX_MILLIS) ==> d == Min(Doubled(attempt), MAX_MILLIS) + roll
  {
    hide Doubled;
    var base := BackoffFor(attempt);
    Remainder(roll, base / 2 + 1);
    d := base + roll % (base / 2 + 1);
  }

  lemma Remainder(n: nat, m: nat)
    requires m > 0
    ensures 0 <= n % m < m && (n < m ==> n % m == n)
  {
  }

  /** The k-th connect of an attempt that began at a moment: after a refusal the run is asked twice
      whether it is cancelled, before and during the backoff. */
  function Moment(now: nat, k: nat): nat { now + 3 * k }

  predicate Retried(world: World, now: nat, k: nat) {
    var at := Moment(now, k);
    && world.connect(at).Refused?
    && ShouldReconnect(world.cancelled(at + 1), world.connect(at).error)
    && !world.cancelled(at + 2)
  }

  /** The number of the connect that ends an attempt: the first that is not retried, or the fifth. */
  function LastConnect(world: World, now: nat, k: nat): (last: nat)
    requires k <= 4
    ensures k <= last <= 4 && (forall j | k <= j < last :: Retried(world, now, j))
    ensures last < 4 ==> !Retried(world, now, last)
    decreases 4 - k
  {
    if k == 4 || !Retried(world, now, k) then k else LastConnect(world, now, k + 1)
  }

  /** What that connect returned. */
  function Connected(world: World, now: nat): Connection { world.connect(Moment(now, LastConnect(world, now, 0))) }

  /** The moment after the attempt. */
  function AfterConnect(world: World, now: nat): (later: nat)
    ensures later > now
  {
    var last := LastConnect(world, now, 0);
    var at := Moment(now, last);
    if last == 4 || world.connect(at).Opened? then at + 1
    else if !ShouldReconnect(world.cancelled(at + 1), world.connect(at).error) then at + 2
    else at + 3
  }

  /** Opens a stream, connecting at most five times. Every connect but the last was refused with an
      error worth a retry; and a refusal is returned early only when it is not worth one. */
  method StreamWithReconnect(world: World, now: nat) returns (reply: Connection, sent: nat, later: nat)
    ensures 1 <= sent <= 5
    ensures reply == world.connect(now + 3 * (sent - 1))
    ensures forall k | 0 <= k < sent - 1 :: Retried(world, now, k)
    ensures sent <= 4 ==> !Retried(world, now, sent - 1)
    ensures reply == Connected(world, now) && later == AfterConnect(world, now)
  {
    reply := world.connect(now);
    sent, later := 1, now + 1;
    if reply.Opened? {
      LastIs(world, now, 0, 0);
      return;
    }
    for attempt := 1 to MAX_RECONNECTS + 1
      invariant sent == attempt && later == Moment(now, sent - 1) + 1
      invariant reply == world.connect(Moment(now, sent - 1)) && reply.Refused?
      invariant forall k | 0 <= k < sent - 1 :: Retried(world, now, k)
    {
      var stop := world.cancelled(later);
      later := later + 1;
      if !ShouldReconnect(stop, reply.error) {
        LastIs(world, now, 0, sent - 1);
        return;
      }
      var cut := world.cancelled(later);
      later := later + 1;
      if cut {
        LastIs(world, now, 0, sent - 1);
        return;
      }
      assert Retried(world, now, sent - 1);
      reply := world.connect(later);
      sent, later := sent + 1, later + 1;
      if reply.Opened? {
        LastIs(world, now, 0, sent - 1);
        return;
      }
    }
    LastIs(world, now, 0, 4);
  }

  lemma {:induction false} LastIs(world: World, now: nat, k: nat, last: nat)
    requires k <= last <= 4 && (forall j | k <= j < last :: Retried(world, now, j))
    requires last == 4 || !Retried(world, now, last)
    ensures LastConnect(world, now, k) == last
    decreases 4 - k
  {
    if k < last {
      LastIs(world, now, k + 1, last);
    }
  }

  /** A refusal for a reason that may pass, of a run that is not cancelled. */
  predicate RefusedInPassing(world: World, at: nat) {
    match world.connect(at)
    case Opened(_) => false
    case Refused(e) =>
      && e.transient && !e.contextLimit && !e.imageRejected
      && !world.cancelled(at + 1) && !world.cancelled(at + 2)
  }

  /** A reply is that of the first connect that was not refused in passing, or of the fifth. */
  lemma ConnectedIsFirst(world: World, now: nat) returns (refused: nat)
    ensures refused <= 4 && (refused < 4 ==> !RefusedInPassing(world, Moment(now, refused)))
    ensures forall k | 0 <= k < refused :: RefusedInPassing(world, Moment(now, k))
    ensures Moment(now, refused) == now + 3 * refused && Connected(world, now) == world.connect(Moment(now, refused))
  {
    refused := LastConnect(world, now, 0);
  }
}
