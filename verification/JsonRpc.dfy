/** The outbound calls of the JSON-RPC peer (internal/acp/jsonrpc.go): callers, the read loop and the closing
    of the connection interleave; every section under the mutex and every channel operation is one step. */
module JsonRpc {
  import opened Text

  /** The id member of a frame: a number, null, or anything else. */
  datatype RawId = Numeric(n: int) | Null | Unreadable

  datatype Message = Response(id: RawId, payload: string) | CloseError

  /** What unmarshalling the id into an int64 gives: null leaves the zero value. */
  function DecodeId(raw: RawId): Option<int> {
    match raw
    case Numeric(n) => Some(n)
    case Null => Some(0)
    case Unreadable => None
  }

  datatype Outcome = Received(message: Message) | ContextDone | WriteFailed

  /** A Call: in its select, about to delete its pending entry, or returned. */
  datatype Phase = Waiting | Leaving(outcome: Outcome) | Returned(outcome: Outcome)

  /** A Call past its first section, with the id it drew. Its channel has the same number. */
  datatype Caller = Caller(id: int, phase: Phase)

  /** The read loop: between frames, about to send to a channel it took from the table, walking the table it
      took when the stream ended, or done. */
  datatype Reader = Idle | Sending(channel: nat, message: Message) | Failing(todo: set<nat>) | Done

  /** The guarded fields, the calls with their channels of capacity one, the read loop, and how many calls were
      refused and how many messages a full channel made the non-blocking send drop. */
  datatype State = State(nextId: int, pending: map<int, nat>, closed: bool, callers: seq<Caller>,
                         channels: seq<Option<Message>>, reader: Reader, refused: nat, dropped: nat)

  const NEW := State(0, map[], false, [], [], Idle, 0, 0)

  /* The steps. */

  /** The first section of Call. */
  function Begin(s: State): State {
    if s.closed then s.(refused := s.refused + 1)
    else
      var id := s.nextId + 1;
      s.(nextId := id, pending := s.pending[id := |s.callers|],
         callers := s.callers + [Caller(id, Waiting)], channels := s.channels + [None])
  }

  predicate CanReceive(s: State, k: nat) {
    k < |s.callers| && k < |s.channels| && s.callers[k].phase == Waiting && s.channels[k].Some?
  }

  function Receive(s: State, k: nat): State
    requires CanReceive(s, k)
  {
    s.(callers := s.callers[k := s.callers[k].(phase := Leaving(Received(s.channels[k].value)))],
       channels := s.channels[k := None])
  }

  predicate CanQuit(s: State, k: nat) { k < |s.callers| && s.callers[k].phase == Waiting }

  /** The context ended or the request could not be written. */
  function Quit(s: State, k: nat, outcome: Outcome): State
    requires CanQuit(s, k)
  {
    s.(callers := s.callers[k := s.callers[k].(phase := Leaving(outcome))])
  }

  predicate CanLeave(s: State, k: nat) { k < |s.callers| && s.callers[k].phase.Leaving? }

  /** The deferred section of Call. */
  function Leave(s: State, k: nat): State
    requires CanLeave(s, k)
  {
    s.(callers := s.callers[k := s.callers[k].(phase := Returned(s.callers[k].phase.outcome))],
       pending := s.pending - {s.callers[k].id})
  }

  /** deliver, up to its unlock. */
  function Arrive(s: State, id: RawId, payload: string): State {
    var n := DecodeId(id);
    if n.None? || n.value !in s.pending then s
    else s.(pending := s.pending - {n.value}, reader := Sending(s.pending[n.value], Response(id, payload)))
  }

  predicate Known(s: State, k: nat) { k < |s.channels| }

  /** A non-blocking send to a channel of capacity one. */
  function Send(s: State, k: nat, m: Message): State
    requires Known(s, k)
  {
    if s.channels[k] == None then s.(channels := s.channels[k := Some(m)]) else s.(dropped := s.dropped + 1)
  }

  function ChannelsOf(pending: map<int, nat>): set<nat> { set id | id in pending :: pending[id] }

  /** failAllPending, up to its unlock. */
  function Close(s: State): State {
    s.(closed := true, pending := map[], reader := Failing(ChannelsOf(s.pending)))
  }

  datatype Step =
    | Called
    | GotReply(k: nat)
    | GaveUp(k: nat, outcome: Outcome)
    | Left(k: nat)
    | FrameRead(id: RawId, payload: string)
    | Sent
    | StreamEnded
    | Failed(k: nat)
    | LoopEnded

  /** A step that is not possible where it stands changes nothing. */
  function Apply(s: State, step: Step): State {
    match step
    case Called => Begin(s)
    case GotReply(k) => if CanReceive(s, k) then Receive(s, k) else s
    case GaveUp(k, outcome) => if CanQuit(s, k) && !outcome.Received? then Quit(s, k, outcome) else s
    case Left(k) => if CanLeave(s, k) then Leave(s, k) else s
    case FrameRead(id, payload) => if s.reader == Idle then Arrive(s, id, payload) else s
    case Sent =>
      if s.reader.Sending? && Known(s, s.reader.channel)
      then Send(s, s.reader.channel, s.reader.message).(reader := Idle) else s
    case StreamEnded => if s.reader == Idle then Close(s) else s
    case Failed(k) =>
      if s.reader.Failing? && k in s.reader.todo && Known(s, k)
      then Send(s, k, CloseError).(reader := Failing(s.reader.todo - {k})) else s
    case LoopEnded => if s.reader == Failing({}) then s.(reader := Done) else s
  }

  function Run(steps: seq<Step>): State {
    if steps == [] then NEW else Apply(Run(steps[..|steps| - 1]), steps[|steps| - 1])
  }

  /* What every interleaving keeps. */

  /** The k-th call drew the id k + 1. */
  ghost predicate IdsOk(s: State) {
    |s.channels| == |s.callers| == s.nextId && forall k | 0 <= k < |s.callers| :: s.callers[k].id == k + 1
  }

  /** The table leads from an id to the channel of its call. */
  ghost predicate TableOk(s: State) {
    (forall id | id in s.pending :: 1 <= id <= |s.callers| && s.pending[id] == id - 1)
      && (s.closed ==> s.pending == map[])
  }

  /** The channel is still on its way to a message: in the table or in the hands of the read loop. */
  predicate Expected(s: State, k: nat) {
    || k + 1 in s.pending
    || (s.reader.Sending? && s.reader.channel == k)
    || (s.reader.Failing? && k in s.reader.todo)
  }

  /** A message a caller may get: the response to its own request, or the error of the closed connection. */
  predicate Fits(s: State, k: nat, m: Message) {
    match m
    case Response(id, _) => DecodeId(id) == Some(k + 1)
    case CloseError => s.closed
  }

  ghost predicate ReaderOk(s: State) {
    match s.reader
    case Idle => !s.closed
    case Sending(k, m) => !s.closed && k < |s.callers| && k + 1 !in s.pending && Fits(s, k, m)
    case Failing(todo) => s.closed && forall k | k in todo :: k < |s.callers|
    case Done => s.closed
  }

  /** No message is sent to a channel that had one: the channel is empty and nothing was received from it as
      long as it is expected to get one. */
  ghost predicate ChannelsOk(s: State)
    requires IdsOk(s)
  {
    && s.dropped == 0
    && (forall k | 0 <= k < |s.callers| && Expected(s, k) :: s.channels[k] == None && !HasReceived(s.callers[k]))
    && (forall k | 0 <= k < |s.callers| && s.channels[k].Some? ::
        Fits(s, k, s.channels[k].value) && !HasReceived(s.callers[k]))
    && (forall k | 0 <= k < |s.callers| && HasReceived(s.callers[k]) :: Fits(s, k, s.callers[k].phase.outcome.message))
  }

  predicate HasReceived(c: Caller) { c.phase != Waiting && c.phase.outcome.Received? }

  /** A waiting call has its message or will get one. */
  ghost predicate NoneStranded(s: State)
    requires IdsOk(s)
  {
    forall k | 0 <= k < |s.callers| && s.callers[k].phase == Waiting :: Expected(s, k) || s.channels[k].Some?
  }

  ghost predicate Inv(s: State) {
    IdsOk(s) && TableOk(s) && ReaderOk(s) && ChannelsOk(s) && NoneStranded(s)
  }

  lemma BeginKeeps(s: State)
    requires Inv(s)
    ensures Inv(Begin(s))
  {
    var r := Begin(s);
    if !s.closed {
      assert forall k | 0 <= k < |s.callers| :: r.callers[k] == s.callers[k] && r.channels[k] == s.channels[k];
      assert forall k | 0 <= k < |s.callers| :: Expected(r, k) <==> Expected(s, k);
    }
  }

  lemma ReceiveKeeps(s: State, k: nat)
    requires Inv(s) && CanReceive(s, k)
    ensures Inv(Receive(s, k))
  {
    var r := Receive(s, k);
    assert forall j :: Expected(r, j) <==> Expected(s, j);
  }

  lemma QuitKeeps(s: State, k: nat, outcome: Outcome)
    requires Inv(s) && CanQuit(s, k) && !outcome.Received?
    ensures Inv(Quit(s, k, outcome))
  {
    var r := Quit(s, k, outcome);
    assert forall j :: Expected(r, j) <==> Expected(s, j);
  }

  lemma LeaveKeeps(s: State, k: nat)
    requires Inv(s) && CanLeave(s, k)
    ensures Inv(Leave(s, k))
  {
    var r := Leave(s, k);
    assert forall j | j != k :: Expected(r, j) <==> Expected(s, j);
  }

  lemma ArriveKeeps(s: State, id: RawId, payload: string)
    requires Inv(s) && s.reader == Idle
    ensures Inv(Arrive(s, id, payload))
  {
    var r := Arrive(s, id, payload);
    assert forall j: nat | j < |s.callers| :: Expected(r, j) <==> Expected(s, j);
  }

  lemma SendKeeps(s: State, k: nat, m: Message, after: Reader)
    requires Inv(s) && k < |s.callers| && Expected(s, k) && k + 1 !in s.pending && Fits(s, k, m)
    requires var r := s.(reader := after);
      ReaderOk(r) && !Expected(r, k) && forall j: nat | j < |s.callers| && j != k :: Expected(r, j) <==> Expected(s, j)
    ensures Inv(Send(s, k, m).(reader := after))
  {
    var r := Send(s, k, m).(reader := after);
    assert s.channels[k] == None;
    assert forall j: nat :: Expected(r, j) <==> Expected(s.(reader := after), j);
  }

  lemma CloseKeeps(s: State)
    requires Inv(s) && s.reader == Idle
    ensures Inv(Close(s))
  {
    var r := Close(s);
    forall k: nat | k < |s.callers| ensures Expected(r, k) <==> Expected(s, k) {
      assert k + 1 in s.pending ==> s.pending[k + 1] == k;
    }
  }

  lemma SentKeeps(s: State)
    requires Inv(s) && s.reader.Sending?
    ensures Known(s, s.reader.channel) && Inv(Send(s, s.reader.channel, s.reader.message).(reader := Idle))
  {
    SendKeeps(s, s.reader.channel, s.reader.message, Idle);
  }

  lemma FailedKeeps(s: State, k: nat)
    requires Inv(s) && s.reader.Failing? && k in s.reader.todo
    ensures Known(s, k) && s.channels[k] == None
    ensures Inv(Send(s, k, CloseError).(reader := Failing(s.reader.todo - {k})))
  {
    SendKeeps(s, k, CloseError, Failing(s.reader.todo - {k}));
  }

  lemma EndKeeps(s: State)
    requires Inv(s) && s.reader == Failing({})
    ensures Inv(s.(reader := Done))
  {
    var r := s.(reader := Done);
    assert forall k :: Expected(r, k) <==> Expected(s, k);
  }

  lemma ApplyKeeps(s: State, step: Step)
    requires Inv(s)
    ensures Inv(Apply(s, step))
  {
    hide Inv, Begin, Receive, Quit, Leave, Arrive, Send, Close;
    match step
    case Called => BeginKeeps(s);
    case GotReply(k) => if CanReceive(s, k) { ReceiveKeeps(s, k); }
    case GaveUp(k, outcome) => if CanQuit(s, k) && !outcome.Received? { QuitKeeps(s, k, outcome); }
    case Left(k) => if CanLeave(s, k) { LeaveKeeps(s, k); }
    case FrameRead(id, payload) => if s.reader == Idle { ArriveKeeps(s, id, payload); }
    case Sent => if s.reader.Sending? { SentKeeps(s); }
    case StreamEnded => if s.reader == Idle { CloseKeeps(s); }
    case Failed(k) => if s.reader.Failing? && k in s.reader.todo && Known(s, k) { FailedKeeps(s, k); }
    case LoopEnded => if s.reader == Failing({}) { EndKeeps(s); }
  }

  lemma {:induction false} RunKeeps(steps: seq<Step>)
    ensures Inv(Run(steps))
  {
    hide Apply;
    if steps != [] {
      RunKeeps(steps[..|steps| - 1]);
      ApplyKeeps(Run(steps[..|steps| - 1]), steps[|steps| - 1]);
    }
  }

  /** In every interleaving the ids of the calls are 1, 2, 3, ...: none is used twice and none is null's zero. */
  lemma IdsAreNeverReused(steps: seq<Step>, i: nat, j: nat)
    requires i < |Run(steps).callers| && j < |Run(steps).callers|
    ensures Run(steps).callers[i].id >= 1 && (Run(steps).callers[i].id == Run(steps).callers[j].id <==> i == j)
  {
    RunKeeps(steps);
  }

  /** No send ever finds a channel full, and what a call received answers its own request, or is the error of
      a closed connection. */
  lemma RepliesMatch(steps: seq<Step>, k: nat)
    requires k < |Run(steps).callers|
    ensures var s := Run(steps);
      s.dropped == 0 && (HasReceived(s.callers[k]) ==>
        match s.callers[k].phase.outcome.message
        case Response(id, _) => DecodeId(id) == Some(s.callers[k].id)
        case CloseError => s.closed)
  {
    RunKeeps(steps);
  }

  /** Once the closing has finished, every call still waiting has a message to receive. */
  lemma ClosingReleasesAll(steps: seq<Step>, k: nat)
    requires Run(steps).reader == Done && k < |Run(steps).callers| && Run(steps).callers[k].phase == Waiting
    ensures CanReceive(Run(steps), k)
  {
    RunKeeps(steps);
  }

  lemma StaysClosed(s: State, step: Step)
    ensures s.closed ==> Apply(s, step).closed
    ensures s.closed ==> |Apply(s, step).callers| == |s.callers|
  {
  }

  /** Once the connection is closed, every later call is refused: none of them ever draws an id. */
  lemma {:induction false} LaterCallsAreRefused(steps: seq<Step>, later: seq<Step>)
    requires Run(steps).closed
    ensures var s := Run(steps + later);
      s.closed && |s.callers| == |Run(steps).callers| && s.refused == Run(steps).refused + Calls(later)
  {
    if later == [] {
      assert steps + later == steps;
    } else {
      var front, last := later[..|later| - 1], later[|later| - 1];
      LaterCallsAreRefused(steps, front);
      assert (steps + later)[..|steps + later| - 1] == steps + front;
      StaysClosed(Run(steps + front), last);
      OnlyCallsAreRefused(Run(steps + front), last);
    }
  }

  function Calls(steps: seq<Step>): nat {
    if steps == [] then 0 else Calls(steps[..|steps| - 1]) + if steps[|steps| - 1] == Called then 1 else 0
  }

  lemma OnlyCallsAreRefused(s: State, step: Step)
    requires s.closed
    ensures Apply(s, step).refused == s.refused + if step == Called then 1 else 0
  {
  }

  /* A response reaches its call. */

  /** The message is in the hands of the read loop or in the channel of the call; what the call received is it. */
  ghost predicate OnItsWay(s: State, k: nat, m: Message) {
    && k < |s.callers| && k < |s.channels| && k + 1 !in s.pending
    && match s.callers[k].phase
       case Waiting => s.channels[k] == Some(m) || s.reader == Sending(k, m)
       case Leaving(outcome) => outcome.Received? ==> outcome.message == m
       case Returned(outcome) => outcome.Received? ==> outcome.message == m
  }

  lemma StaysOnItsWay(s: State, step: Step, k: nat, m: Message)
    requires Inv(s) && OnItsWay(s, k, m) && m.Response?
    ensures OnItsWay(Apply(s, step), k, m)
  {
  }

  lemma {:induction false} KeptOnItsWay(steps: seq<Step>, later: seq<Step>, k: nat, m: Message)
    requires OnItsWay(Run(steps), k, m) && m.Response?
    ensures OnItsWay(Run(steps + later), k, m)
  {
    hide Apply, OnItsWay, Inv;
    if later == [] {
      assert steps + later == steps;
    } else {
      var front := later[..|later| - 1];
      KeptOnItsWay(steps, front, k, m);
      RunKeeps(steps + front);
      assert (steps + later)[..|steps + later| - 1] == steps + front;
      StaysOnItsWay(Run(steps + front), later[|later| - 1], k, m);
    }
  }

  /** The read loop reads the response to a call that waits for one. Whatever runs then, in whatever order: the
      call receives that payload or gave up before it, and as long as it waits it gets it once the loop has sent. */
  lemma ResponseReachesItsCall(steps: seq<Step>, k: nat, payload: string, later: seq<Step>)
    requires var s := Run(steps);
      s.reader == Idle && k < |s.callers| && s.callers[k].phase == Waiting && k < |s.channels| && s.channels[k] == None
    ensures var id := Run(steps).callers[k].id;
      var m, s := Response(Numeric(id), payload), Run(steps + [FrameRead(Numeric(id), payload)] + later);
      && k < |s.callers|
      && (HasReceived(s.callers[k]) ==> s.callers[k].phase.outcome.message == m)
      && (s.callers[k].phase == Waiting ==> Apply(Apply(s, Sent), GotReply(k)).callers[k].phase == Leaving(Received(m)))
  {
    hide Apply, OnItsWay, Inv;
    var id := Run(steps).callers[k].id;
    var m, now := Response(Numeric(id), payload), steps + [FrameRead(Numeric(id), payload)];
    assert now[..|now| - 1] == steps;
    RunKeeps(steps);
    TakenUp(Run(steps), k, payload);
    KeptOnItsWay(now, later, k, m);
    RunKeeps(now + later);
    Arrives(Run(now + later), k, m);
  }

  lemma TakenUp(s: State, k: nat, payload: string)
    requires Inv(s) && s.reader == Idle
    requires k < |s.callers| && s.callers[k].phase == Waiting && k < |s.channels| && s.channels[k] == None
    ensures var id := Numeric(s.callers[k].id); OnItsWay(Apply(s, FrameRead(id, payload)), k, Response(id, payload))
  {
    assert Expected(s, k);
  }

  lemma Arrives(s: State, k: nat, m: Message)
    requires Inv(s) && OnItsWay(s, k, m)
    ensures k < |s.callers| && (HasReceived(s.callers[k]) ==> s.callers[k].phase.outcome.message == m)
    ensures s.callers[k].phase == Waiting ==>
      Apply(Apply(s, Sent), GotReply(k)).callers[k].phase == Leaving(Received(m))
  {
  }

  lemma OutcomeStays(s: State, step: Step, k: nat)
    requires k < |s.callers| && s.callers[k].phase != Waiting
    ensures k < |Apply(s, step).callers| && Apply(s, step).callers[k].phase != Waiting
    ensures Apply(s, step).callers[k].phase.outcome == s.callers[k].phase.outcome
  {
  }

  /** A call gets one outcome and keeps it. */
  lemma {:induction false} OutcomeIsFinal(steps: seq<Step>, later: seq<Step>, k: nat)
    requires k < |Run(steps).callers| && Run(steps).callers[k].phase != Waiting
    ensures k < |Run(steps + later).callers| && Run(steps + later).callers[k].phase != Waiting
    ensures Run(steps + later).callers[k].phase.outcome == Run(steps).callers[k].phase.outcome
  {
    hide Apply;
    if later == [] {
      assert steps + later == steps;
    } else {
      var front := later[..|later| - 1];
      OutcomeIsFinal(steps, front, k);
      assert (steps + later)[..|steps + later| - 1] == steps + front;
      OutcomeStays(Run(steps + front), later[|later| - 1], k);
    }
  }

  /** A frame whose id is null, is no integer, or is no open call's reaches nobody. */
  lemma StrayFramesReachNobody(steps: seq<Step>, id: RawId, payload: string)
    requires var s := Run(steps);
      id.Numeric? ==> forall k | 0 <= k < |s.callers| && k + 1 in s.pending :: id.n != s.callers[k].id
    ensures Apply(Run(steps), FrameRead(id, payload)) == Run(steps)
  {
    RunKeeps(steps);
    var s := Run(steps);
    assert forall n | n in s.pending :: 1 <= n <= |s.callers| && s.callers[n - 1].id == n;
  }

  /* The connection. */

  class Conn {
    var nextId: int
    var pending: map<int, nat>
    var closed: bool
    var channels: seq<Option<Message>>
    ghost var callers: seq<Caller>
    ghost var reader: Reader
    ghost var refused: nat
    ghost var dropped: nat

    ghost function Abstract(): State
      reads this
    {
      State(nextId, pending, closed, callers, channels, reader, refused, dropped)
    }

    constructor ()
      ensures Abstract() == NEW
    {
      nextId, pending, closed, channels := 0, map[], false, [];
      callers, reader, refused, dropped := [], Idle, 0, 0;
    }

    /** None when the connection is closed, else the id and the channel of the call. */
    method BeginCall() returns (call: Option<(int, nat)>)
      requires IdsOk(Abstract())
      modifies this
      ensures Abstract() == Begin(old(Abstract()))
      ensures call == if old(closed) then None else Some((old(nextId) + 1, |old(channels)|))
    {
      if closed {
        refused := refused + 1;
        return None;
      }
      nextId := nextId + 1;
      var id, channel := nextId, |channels|;
      channels := channels + [None];
      pending := pending[id := channel];
      callers := callers + [Caller(id, Waiting)];
      return Some((id, channel));
    }

    method EndCall(k: nat, id: int)
      requires CanLeave(Abstract(), k) && callers[k].id == id
      modifies this
      ensures Abstract() == Leave(old(Abstract()), k)
    {
      pending := pending - {id};
      callers := callers[k := callers[k].(phase := Returned(callers[k].phase.outcome))];
    }

    method Deliver(id: RawId, payload: string)
      requires Inv(Abstract()) && reader == Idle
      modifies this
      ensures Abstract() == Apply(Apply(old(Abstract()), FrameRead(id, payload)), Sent)
    {
      ghost var before := Abstract();
      ArriveKeeps(before, id, payload);
      var n := DecodeId(id);
      if n.None? {
        return;
      }
      var channel := if n.value in pending then Some(pending[n.value]) else None;
      pending := pending - {n.value};
      if channel.None? {
        assert pending == before.pending;
        return;
      }
      TrySend(channel.value, Response(id, payload));
    }

    /** The select with a default. */
    method TrySend(channel: nat, m: Message)
      requires channel < |channels|
      modifies this`channels, this`dropped
      ensures Abstract() == Send(old(Abstract()), channel, m)
    {
      if channels[channel] == None {
        channels := channels[channel := Some(m)];
      } else {
        dropped := dropped + 1;
      }
    }

    method FailAllPending()
      requires Inv(Abstract()) && reader == Idle
      modifies this
      ensures Inv(Abstract()) && reader == Done && closed && pending == map[]
      ensures callers == old(callers) && nextId == old(nextId)
      ensures |channels| == |old(channels)|
      ensures forall k | 0 <= k < |channels| :: LeftIn(channels[k], old(channels)[k], k + 1 in old(pending))
    {
      hide Inv;
      CloseKeeps(Abstract());
      ghost var waiting := ChannelsOf(pending);
      assert forall k: nat | k < |channels| :: k in waiting <==> k + 1 in pending by { OpenChannels(Abstract()); }
      closed := true;
      var todo := set id | id in pending :: pending[id];
      reader := Failing(todo);
      pending := map[];
      while todo != {}
        invariant Inv(Abstract()) && reader == Failing(todo) && closed && pending == map[]
        invariant callers == old(callers) && nextId == old(nextId) && |channels| == |old(channels)|
        invariant todo <= waiting
        invariant forall k | 0 <= k < |channels| :: LeftIn(channels[k], old(channels)[k], k in waiting && k !in todo)
        decreases |todo|
      {
        var k :| k in todo;
        FailedKeeps(Abstract(), k);
        TrySend(k, CloseError);
        todo := todo - {k};
        reader := Failing(todo);
      }
      EndKeeps(Abstract());
      reader := Done;
    }
  }

  /** What the closing leaves in a channel. */
  predicate LeftIn(now: Option<Message>, before: Option<Message>, failed: bool) {
    now == if failed then Some(CloseError) else before
  }

  lemma OpenChannels(s: State)
    requires Inv(s)
    ensures forall k: nat | k < |s.channels| :: k in ChannelsOf(s.pending) <==> k + 1 in s.pending
  {
    forall k: nat | k < |s.channels| && k + 1 in s.pending ensures k in ChannelsOf(s.pending) {
      assert s.pending[k + 1] == k;
    }
  }
}
