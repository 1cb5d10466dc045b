/** Paying for a top-up over a connection that loses replies (internal/aimlapi/stream.go, topup.go): the
    server's checkout sessions, the client's run, and the token a caller keeps for its retries. */
module TopUp {
  import opened Text

  datatype Status = PendingAuth | PendingPayment | Paid | Exchanging | Exchanged | Cancelled | Expired | Failed

  predicate Dead(s: Status) { s == Cancelled || s == Expired || s == Failed }

  function Rank(s: Status): nat {
    match s
    case PendingAuth => 0
    case PendingPayment => 1
    case Paid => 2
    case Exchanging => 3
    case _ => 4
  }

  /** A status only moves forward; dead and exchanged sessions stay what they are. */
  predicate Forward(s: Status, next: Status) {
    s == next || (Rank(s) < 4 && Rank(s) < Rank(next))
  }

  type Token = nat

  /** What the client did and saw, oldest first. */
  datatype Event =
    | Started
    | Created(token: Token)
    | Observed(token: Token, status: Status)
    | Refused(token: Token)
    | Discarded(token: Token)
    | PaySent(token: Token)
    | ExchangeSent(token: Token)

  /** The server's sessions, the last token handed to OnSession ("" is None), the sessions a Pay request was
      sent for, and whether some session that a Pay was sent for and that is not dead was wronged: a request about
      it was answered with a 4xx, or its resume with a status the client does not know. */
  datatype World = World(now: nat, sessions: seq<Status>, retained: Option<Token>, pays: set<Token>,
                         log: seq<Event>, wronged: bool)

  /** A reply that was Misread is a 2xx whose status is none of the eight; the type of a status in the client is
      a string that nothing validates, so an empty object is such a reply too. */
  datatype Answer = Delivered | Misread | ClientError | Lost | Stopped

  /** Creating, paying and exchanging do not look at the status of the reply. */
  predicate Answered(a: Answer) { a.Delivered? || a.Misread? }

  /** What happens around one request: how the sessions move before it, whether it reaches the server, and
      what the client gets back. A run that is cancelled or killed is Stopped at its next request. */
  datatype Moment = Moment(drift: (Token, Status) -> Status, arrives: bool, answer: Answer)

  type Oracle = nat -> Moment

  /* The server. */

  /** Sessions move on their own, but none is paid for that nobody asked to pay. */
  function Drift(w: World, o: Oracle): (r: World)
    ensures |r.sessions| == |w.sessions|
    ensures r == w.(now := w.now + 1, sessions := r.sessions)
    ensures forall t | 0 <= t < |w.sessions| :: Forward(w.sessions[t], r.sessions[t])
    ensures forall t | 0 <= t < |w.sessions| && t !in w.pays && w.sessions[t] == PendingAuth ::
      r.sessions[t] == PendingAuth || Dead(r.sessions[t])
  {
    var move := o(w.now).drift;
    w.(now := w.now + 1, sessions := seq(|w.sessions|, t requires 0 <= t < |w.sessions| =>
      var s, next := w.sessions[t], move(t, w.sessions[t]);
      if Forward(s, next) && (s == PendingAuth ==> t in w.pays || Dead(next)) then next else s))
  }

  function Log(w: World, e: Event): World { w.(log := w.log + [e]) }

  function CreateSession(w: World, o: Oracle): (World, Option<Token>) {
    var m, d := o(w.now), Drift(w, o);
    if !m.arrives then (d, None)
    else
      var added := d.(sessions := d.sessions + [PendingAuth]);
      if Answered(m.answer) then (Log(added, Created(|d.sessions|)), Some(|d.sessions|)) else (added, None)
  }

  datatype Reply = Got(status: Status) | Unknown | ClientRefused | Transient | Gone

  /** A request about a session was answered as if the session were gone. */
  function Wrong(w: World, t: Token): World
    requires t < |w.sessions|
  {
    w.(wronged := w.wronged || (t in w.pays && !Dead(w.sessions[t])))
  }

  function GetSession(w: World, o: Oracle, t: Token): (World, Reply)
    requires t < |w.sessions|
  {
    var m, d := o(w.now), Drift(w, o);
    match m.answer
    case Stopped => (d, Gone)
    case Lost => (d, Transient)
    case Misread => (d, Unknown)
    case ClientError => (Wrong(Log(d, Refused(t)), t), ClientRefused)
    case Delivered => (Log(d, Observed(t, d.sessions[t])), Got(d.sessions[t]))
  }

  /** Pay, by session or by key: the request counts as sent whether or not it arrives. */
  function Pay(w: World, o: Oracle, t: Token): (World, bool)
    requires t < |w.sessions|
  {
    var m := o(w.now);
    var d := Drift(Log(w, PaySent(t)).(pays := w.pays + {t}), o);
    var opens := m.arrives && d.sessions[t] == PendingAuth;
    var after := if opens then d.(sessions := d.sessions[t := PendingPayment]) else d;
    (after, Answered(m.answer))
  }

  function Exchange(w: World, o: Oracle, t: Token): (World, bool)
    requires t < |w.sessions|
  {
    var m := o(w.now);
    var d := Drift(Log(w, ExchangeSent(t)), o);
    var after := if m.arrives && d.sessions[t] == Paid then d.(sessions := d.sessions[t := Exchanging]) else d;
    (after, Answered(m.answer))
  }

  function Report(w: World, token: Option<Token>): World { w.(retained := token) }

  /* One run. */

  const PHASE_PAY := 0
  const PHASE_POLL := 1
  const PHASE_EXCHANGE := 2
  const PHASE_WAIT_EXCHANGE := 3

  datatype Entry = Enter(token: Token, phase: nat) | Halt

  /** Where a run enters a session whose status it saw. */
  function Resumed(byKey: bool, t: Token, s: Status): Entry {
    match s
    case PendingAuth => Enter(t, PHASE_PAY)
    case PendingPayment => Enter(t, PHASE_POLL)
    case Paid => Enter(t, PHASE_EXCHANGE)
    case Exchanging => Enter(t, if byKey then PHASE_EXCHANGE else PHASE_WAIT_EXCHANGE)
    case Exchanged => if byKey then Enter(t, PHASE_EXCHANGE) else Halt
    case _ => Halt
  }

  predicate WellFormed(w: World) {
    w.retained.Some? ==> w.retained.value < |w.sessions|
  }

  function Resolve(w: World, o: Oracle, byKey: bool): (World, Entry)
    requires WellFormed(w)
  {
    if w.retained.None? then
      var (created, token) := CreateSession(w, o);
      (created, if token.Some? then Enter(token.value, PHASE_PAY) else Halt)
    else
      var t := w.retained.value;
      var (seen, reply) := GetSession(w, o, t);
      match reply
      case ClientRefused => (Report(seen, None), Halt)
      case Unknown => (Report(Wrong(Log(seen, Discarded(t)), t), None), Halt)
      case Transient => (seen, Halt)
      case Gone => (seen, Halt)
      case Got(s) => (if Dead(s) then Report(seen, None) else seen, Resumed(byKey, t, s))
  }

  /** pollUntilPaid, for as many polls as the deadline leaves. */
  function PollPaid(w: World, o: Oracle, t: Token, n: nat): (World, Option<Status>)
    requires t < |w.sessions|
    decreases n
  {
    if n == 0 then (w, None)
    else
      var (seen, reply) := GetSession(w, o, t);
      match reply
      case Gone => (seen, None)
      case ClientRefused => (Report(seen, None), None)
      case Unknown => PollPaid(seen, o, t, n - 1)
      case Transient => PollPaid(seen, o, t, n - 1)
      case Got(s) =>
        if s == Paid || s == Exchanging then (seen, Some(s))
        else if s == Exchanged then (seen, None)
        else if Dead(s) then (Report(seen, None), None)
        else PollPaid(seen, o, t, n - 1)
  }

  /** pollUntilExchangeSettled: it ends with an error whatever happens. */
  function PollSettled(w: World, o: Oracle, t: Token, n: nat): World
    requires t < |w.sessions|
    decreases n
  {
    if n == 0 then w
    else
      var (seen, reply) := GetSession(w, o, t);
      match reply
      case Gone => seen
      case ClientRefused => Report(seen, None)
      case Unknown => seen
      case Transient => PollSettled(seen, o, t, n - 1)
      case Got(s) =>
        if s == Exchanging then PollSettled(seen, o, t, n - 1)
        else if Dead(s) then Report(seen, None)
        else seen
  }

  /** What a run asks for: whether it funds an account by key, whether it exchanges the session for a new
      key, and how often each of its two polls looks before the deadline. */
  datatype Request = Request(byKey: bool, exchange: bool, patience: nat, followed: nat)

  /** The last part of a run, once the session is paid. */
  function Provision(w: World, o: Oracle, t: Token, phase: nat, req: Request): (World, bool)
    requires t < |w.sessions|
  {
    if req.byKey || !req.exchange then (w, true)
    else if phase == PHASE_WAIT_EXCHANGE then (PollSettled(w, o, t, req.followed), false)
    else Exchange(w, o, t)
  }

  function AwaitPayment(w: World, o: Oracle, t: Token, phase: nat, req: Request): (World, bool)
    requires t < |w.sessions|
  {
    if phase > PHASE_POLL then Provision(w, o, t, phase, req)
    else
      var (polled, paid) := PollPaid(w, o, t, req.patience);
      PollKeepsSessions(w, o, t, req.patience);
      if paid.None? then (polled, false)
      else Provision(polled, o, t, if paid.value == Exchanging then PHASE_WAIT_EXCHANGE else phase, req)
  }

  function Drive(w: World, o: Oracle, t: Token, phase: nat, req: Request): (World, bool)
    requires t < |w.sessions|
  {
    if phase > PHASE_PAY then AwaitPayment(w, o, t, phase, req)
    else
      var (asked, answered) := Pay(w, o, t);
      if answered then AwaitPayment(asked, o, t, phase, req) else (asked, false)
  }

  /** StreamTopUp and StreamTopUpByKey, resuming the token their caller retained. */
  function Run(w: World, o: Oracle, req: Request): (World, bool)
    requires WellFormed(w)
  {
    var (resolved, entry) := Resolve(Log(w, Started), o, req.byKey);
    ResolveIsSound(Log(w, Started), o, req.byKey);
    if entry.Halt? then (resolved, false)
    else Drive(Report(resolved, Some(entry.token)), o, entry.token, entry.phase, req)
  }

  lemma {:induction false} PollKeepsSessions(w: World, o: Oracle, t: Token, n: nat)
    requires t < |w.sessions|
    ensures |PollPaid(w, o, t, n).0.sessions| == |w.sessions|
    decreases n
  {
    if n > 0 {
      PollKeepsSessions(GetSession(w, o, t).0, o, t, n - 1);
    }
  }

  lemma ResolveIsSound(w: World, o: Oracle, byKey: bool)
    requires WellFormed(w)
    ensures var (r, entry) := Resolve(w, o, byKey);
      WellFormed(r) && (entry.Enter? ==> entry.token < |r.sessions|)
  {
  }

  /* What every run keeps. */

  /** The money: every session a Pay was sent for is dead or is the one the caller holds on to. */
  ghost predicate Safe(w: World) {
    && WellFormed(w)
    && (forall t | t in w.pays :: t < |w.sessions|)
    && (!w.wronged ==> forall t | t in w.pays && !Dead(w.sessions[t]) :: w.retained == Some(t))
    && (forall t | 0 <= t < |w.sessions| && t !in w.pays :: w.sessions[t] == PendingAuth || Dead(w.sessions[t]))
  }

  /** A session whose checkout was opened and which is not dead. */
  ghost predicate OpenCheckout(w: World, t: Token) {
    t < |w.sessions| && w.sessions[t] != PendingAuth && !Dead(w.sessions[t])
  }

  lemma AtMostOneCheckout(w: World, s: Token, t: Token)
    requires Safe(w) && !w.wronged && OpenCheckout(w, s) && OpenCheckout(w, t)
    ensures s == t && s in w.pays && w.retained == Some(s)
  {
  }

  /** The requests: a Pay directly follows the creation of its session or the sight of it pending
      authorization; an Exchange directly follows the sight of its session paid, is the last thing its run
      does, and nobody saw the session exchanging or exchanged before. A 4xx about a session, and a resume that
      discards it, are the last thing in their run too. */
  ghost predicate Orderly(log: seq<Event>) {
    && (forall i | 0 <= i < |log| && log[i].PaySent? :: i > 0 && MayPay(log[i - 1], log[i].token))
    && (forall i | 0 <= i < |log| && log[i].ExchangeSent? :: i > 0 && log[i - 1] == Observed(log[i].token, Paid))
    && (forall i | 0 <= i < |log| - 1 && EndsRun(log[i]) :: log[i + 1] == Started)
    && (forall i, j | 0 <= i < j < |log| && log[j].ExchangeSent? && log[i].Observed? && log[i].token == log[j].token ::
         Rank(log[i].status) < Rank(Exchanging))
  }

  /** The client drops the token without having seen its session dead. */
  predicate Drops(e: Event) { e.Refused? || e.Discarded? }

  predicate EndsRun(e: Event) { e.ExchangeSent? || Drops(e) }

  predicate MayPay(e: Event, t: Token) { e == Created(t) || e == Observed(t, PendingAuth) }

  /** What was seen of a session is behind what it is now. */
  ghost predicate Remembered(w: World) {
    forall i | 0 <= i < |w.log| && w.log[i].Observed? ::
      w.log[i].token < |w.sessions| && Forward(w.log[i].status, w.sessions[w.log[i].token])
  }

  ghost predicate Kept(w: World) { Safe(w) && Orderly(w.log) && Remembered(w) }

  /** The run goes on. */
  predicate Quiet(w: World) { w.log != [] && !EndsRun(w.log[|w.log| - 1]) }

  /** The token t was dropped: but for that, the world is one in which the caller still holds it and
      nobody was wronged. */
  ghost predicate Dropped(w: World, t: Token) {
    && w.retained == None && t < |w.sessions| && Kept(w.(wronged := false, retained := Some(t)))
    && (w.wronged <==> t in w.pays && !Dead(w.sessions[t]))
  }

  /** How a run leaves off that starts with nobody wronged: only a dropped token wrongs anybody. */
  ghost predicate LeavesOff(wronged: bool, r: World) {
    && r.log != []
    && var last := r.log[|r.log| - 1];
       !wronged ==> if Drops(last) then Dropped(r, last.token) else !r.wronged
  }

  lemma DriftKeeps(w: World, o: Oracle)
    requires Kept(w)
    ensures Kept(Drift(w, o))
  {
    hide Orderly;
    var d := Drift(w, o);
    assert Safe(d);
    forall i | 0 <= i < |d.log| && d.log[i].Observed?
      ensures d.log[i].token < |d.sessions| && Forward(d.log[i].status, d.sessions[d.log[i].token])
    {
      assert Forward(w.sessions[w.log[i].token], d.sessions[w.log[i].token]);
    }
  }

  lemma LogKeeps(w: World, e: Event)
    requires Kept(w) && (Quiet(w) || e == Started || w.log == []) && !e.PaySent? && !e.ExchangeSent?
    requires e.Observed? ==> e.token < |w.sessions| && e.status == w.sessions[e.token]
    ensures Kept(Log(w, e))
  {
    hide Rank, Dead;
    var l := Log(w, e);
    assert forall i | 0 <= i < |w.log| :: l.log[i] == w.log[i];
    assert Safe(l);
  }

  lemma CreateKeeps(w: World, o: Oracle)
    requires Kept(w) && Quiet(w)
    ensures var (r, token) := CreateSession(w, o);
      && Kept(r) && Quiet(r) && r.retained == w.retained && r.wronged == w.wronged
      && (token.Some? ==>
            && token.value < |r.sessions| && token.value !in r.pays
            && MayPay(r.log[|r.log| - 1], token.value))
  {
    hide Orderly, Rank;
    DriftKeeps(w, o);
    var d := Drift(w, o);
    if o(w.now).arrives {
      var added := d.(sessions := d.sessions + [PendingAuth]);
      assert Kept(added);
      LogKeeps(added, Created(|d.sessions|));
    }
  }

  lemma GetKeeps(w: World, o: Oracle, t: Token)
    requires Kept(w) && Quiet(w) && t < |w.sessions|
    ensures var (r, reply) := GetSession(w, o, t);
      && Kept(r) && r.retained == w.retained && |r.sessions| == |w.sessions|
      && (!reply.ClientRefused? ==> Quiet(r) && r.wronged == w.wronged)
      && (reply.Got? ==> r.log[|r.log| - 1] == Observed(t, reply.status) && reply.status == r.sessions[t])
      && (reply.ClientRefused? ==> t !in r.pays || Dead(r.sessions[t]) || r.wronged)
      && (reply.ClientRefused? && w.retained == Some(t) ==> LeavesOff(w.wronged, Report(r, None)))
  {
    hide Orderly, Rank, Safe, Remembered;
    DriftKeeps(w, o);
    var d := Drift(w, o);
    LogKeeps(d, Observed(t, d.sessions[t]));
    LogKeeps(d, Refused(t));
    WrongingKeeps(Log(d, Refused(t)), t);
    if o(w.now).answer.ClientError? && w.retained == Some(t) {
      assert !w.wronged ==> Log(d, Refused(t)).(wronged := false, retained := Some(t)) == Log(d, Refused(t));
    }
  }

  lemma WrongingKeeps(w: World, t: Token)
    requires Kept(w) && t < |w.sessions|
    ensures Kept(Wrong(w, t))
  {
    hide Orderly;
  }

  /** A resume that meets a status it does not know. */
  lemma DiscardKeeps(w: World, t: Token)
    requires Kept(w) && Quiet(w) && w.retained == Some(t)
    ensures var r := Report(Wrong(Log(w, Discarded(t)), t), None);
      Kept(r) && LeavesOff(w.wronged, r)
  {
    hide Orderly, Remembered;
    LogKeeps(w, Discarded(t));
    var l := Log(w, Discarded(t));
    WrongingKeeps(l, t);
    DropKeeps(Wrong(l, t), t);
    assert !w.wronged ==> l.(wronged := false, retained := Some(t)) == l;
  }

  lemma PaySentKeeps(w: World, t: Token)
    requires Kept(w) && Quiet(w) && t < |w.sessions| && w.retained == Some(t) && MayPay(w.log[|w.log| - 1], t)
    ensures Kept(Log(w, PaySent(t)).(pays := w.pays + {t}))
  {
    hide Rank, Dead;
    var sent := Log(w, PaySent(t)).(pays := w.pays + {t});
    assert forall i | 0 <= i < |w.log| :: sent.log[i] == w.log[i];
    assert Safe(sent) && Orderly(sent.log) && Remembered(sent);
  }

  lemma PayKeeps(w: World, o: Oracle, t: Token)
    requires Kept(w) && Quiet(w) && t < |w.sessions| && w.retained == Some(t) && MayPay(w.log[|w.log| - 1], t)
    ensures var r := Pay(w, o, t).0;
      Kept(r) && Quiet(r) && r.retained == Some(t) && |r.sessions| == |w.sessions| && r.wronged == w.wronged
  {
    var sent := Log(w, PaySent(t)).(pays := w.pays + {t});
    PaySentKeeps(w, t);
    hide Safe, Orderly, Remembered;
    DriftKeeps(sent, o);
    var d := Drift(sent, o);
    if o(w.now).arrives && d.sessions[t] == PendingAuth {
      PaidKeeps(d, t, PendingPayment);
    }
  }

  /** A session moves on because a request about it arrived. */
  lemma PaidKeeps(w: World, t: Token, next: Status)
    requires Kept(w) && t < |w.sessions| && t in w.pays && Forward(w.sessions[t], next) && !Dead(w.sessions[t])
    ensures Kept(w.(sessions := w.sessions[t := next]))
  {
    hide Orderly;
    assert Safe(w.(sessions := w.sessions[t := next]));
  }

  lemma ExchangeKeeps(w: World, o: Oracle, t: Token)
    requires Kept(w) && Quiet(w) && t < |w.sessions| && w.retained == Some(t)
    requires w.log[|w.log| - 1] == Observed(t, Paid) && w.sessions[t] == Paid
    ensures var r := Exchange(w, o, t).0;
      Kept(r) && |r.sessions| == |w.sessions| && LeavesOff(w.wronged, r)
  {
    var sent := Log(w, ExchangeSent(t));
    ExchangeIsOrderly(w, t);
    SentKeeps(w, ExchangeSent(t));
    DriftKeeps(sent, o);
    var d := Drift(sent, o);
    if o(w.now).arrives && d.sessions[t] == Paid {
      PaidKeeps(d, t, Exchanging);
    }
  }

  lemma SentKeeps(w: World, e: Event)
    requires Kept(w) && !e.Observed? && Orderly(w.log + [e])
    ensures Kept(Log(w, e))
  {
    hide Orderly, Forward;
    assert Safe(Log(w, e));
    assert forall i | 0 <= i < |w.log| :: Log(w, e).log[i] == w.log[i];
  }

  lemma ExchangeIsOrderly(w: World, t: Token)
    requires Kept(w) && Quiet(w) && t < |w.sessions|
    requires w.log[|w.log| - 1] == Observed(t, Paid) && w.sessions[t] == Paid
    ensures Orderly(w.log + [ExchangeSent(t)])
  {
    hide Safe;
    var log := w.log + [ExchangeSent(t)];
    forall i | 0 <= i < |w.log| && w.log[i].Observed? && w.log[i].token == t
      ensures Rank(w.log[i].status) < Rank(Exchanging)
    {
      assert Forward(w.log[i].status, Paid);
    }
    assert forall i | 0 <= i < |w.log| :: log[i] == w.log[i];
  }

  lemma ReportKeeps(w: World, token: Option<Token>)
    requires Kept(w)
    requires match token
      case Some(t) => t < |w.sessions| && forall p | p in w.pays && !Dead(w.sessions[p]) :: w.wronged || p == t
      case None => w.wronged || forall p | p in w.pays :: Dead(w.sessions[p])
    ensures Kept(Report(w, token))
  {
    hide Orderly, Forward;
    assert Safe(Report(w, token));
  }

  /** The token may be dropped when its session was never paid for or is dead. */
  lemma DropKeeps(w: World, t: Token)
    requires Kept(w) && w.retained == Some(t) && t < |w.sessions| && (t !in w.pays || Dead(w.sessions[t]) || w.wronged)
    ensures Kept(Report(w, None))
  {
    hide Orderly, Remembered;
    ReportKeeps(w, None);
  }

  lemma {:induction false} PollPaidKeeps(w: World, o: Oracle, t: Token, n: nat)
    requires Kept(w) && Quiet(w) && t < |w.sessions| && w.retained == Some(t)
    ensures var (r, paid) := PollPaid(w, o, t, n);
      && Kept(r) && |r.sessions| == |w.sessions| && LeavesOff(w.wronged, r)
      && (paid.Some? ==>
            && Quiet(r) && r.wronged == w.wronged && r.retained == Some(t)
            && r.log[|r.log| - 1] == Observed(t, paid.value) && r.sessions[t] == paid.value
            && (paid.value == Paid || paid.value == Exchanging))
    decreases n
  {
    hide Kept, GetSession;
    if n > 0 {
      var (seen, reply) := GetSession(w, o, t);
      GetKeeps(w, o, t);
      if reply.ClientRefused? || (reply.Got? && Dead(reply.status)) {
        DropKeeps(seen, t);
      } else if reply.Transient? || reply.Unknown? || (reply.Got? && reply.status in [PendingAuth, PendingPayment]) {
        PollPaidKeeps(seen, o, t, n - 1);
      }
    }
  }

  lemma {:induction false} PollSettledKeeps(w: World, o: Oracle, t: Token, n: nat)
    requires Kept(w) && Quiet(w) && t < |w.sessions| && w.retained == Some(t)
    ensures Kept(PollSettled(w, o, t, n)) && LeavesOff(w.wronged, PollSettled(w, o, t, n))
    decreases n
  {
    hide Kept, GetSession;
    if n > 0 {
      var (seen, reply) := GetSession(w, o, t);
      GetKeeps(w, o, t);
      if reply.ClientRefused? || (reply.Got? && Dead(reply.status)) {
        DropKeeps(seen, t);
      } else if reply.Transient? || (reply.Got? && reply.status == Exchanging) {
        PollSettledKeeps(seen, o, t, n - 1);
      }
    }
  }

  lemma ProvisionKeeps(w: World, o: Oracle, t: Token, phase: nat, req: Request)
    requires Kept(w) && Quiet(w) && t < |w.sessions| && w.retained == Some(t)
    requires !req.byKey && phase != PHASE_WAIT_EXCHANGE
      ==> w.log[|w.log| - 1] == Observed(t, Paid) && w.sessions[t] == Paid
    ensures Kept(Provision(w, o, t, phase, req).0) && LeavesOff(w.wronged, Provision(w, o, t, phase, req).0)
  {
    hide Kept, Exchange;
    if !req.byKey && phase == PHASE_WAIT_EXCHANGE {
      PollSettledKeeps(w, o, t, req.followed);
    } else if !req.byKey {
      ExchangeKeeps(w, o, t);
    }
  }

  lemma AwaitKeeps(w: World, o: Oracle, t: Token, phase: nat, req: Request)
    requires Kept(w) && Quiet(w) && t < |w.sessions| && w.retained == Some(t)
    requires !req.byKey && phase == PHASE_EXCHANGE ==> w.log[|w.log| - 1] == Observed(t, Paid) && w.sessions[t] == Paid
    requires phase <= PHASE_WAIT_EXCHANGE
    ensures Kept(AwaitPayment(w, o, t, phase, req).0) && LeavesOff(w.wronged, AwaitPayment(w, o, t, phase, req).0)
  {
    hide Kept, PollPaid, Provision;
    if phase > PHASE_POLL {
      ProvisionKeeps(w, o, t, phase, req);
    } else {
      var (polled, paid) := PollPaid(w, o, t, req.patience);
      PollPaidKeeps(w, o, t, req.patience);
      if paid.Some? {
        ProvisionKeeps(polled, o, t, if paid.value == Exchanging then PHASE_WAIT_EXCHANGE else phase, req);
      }
    }
  }

  lemma DriveKeeps(w: World, o: Oracle, t: Token, phase: nat, req: Request)
    requires Kept(w) && Quiet(w) && t < |w.sessions| && w.retained == Some(t)
    requires phase == PHASE_PAY ==> MayPay(w.log[|w.log| - 1], t)
    requires !req.byKey && phase == PHASE_EXCHANGE ==> w.log[|w.log| - 1] == Observed(t, Paid) && w.sessions[t] == Paid
    requires phase <= PHASE_WAIT_EXCHANGE
    ensures Kept(Drive(w, o, t, phase, req).0) && LeavesOff(w.wronged, Drive(w, o, t, phase, req).0)
  {
    hide Kept, Pay, AwaitPayment;
    if phase > PHASE_PAY {
      AwaitKeeps(w, o, t, phase, req);
    } else {
      PayKeeps(w, o, t);
      AwaitKeeps(Pay(w, o, t).0, o, t, phase, req);
    }
  }

  lemma ResolveKeeps(w: World, o: Oracle, byKey: bool)
    requires Kept(w) && Quiet(w)
    ensures var (r, entry) := Resolve(w, o, byKey);
      && Kept(r) && LeavesOff(w.wronged, r)
      && (entry.Enter? ==>
        && Quiet(r) && r.wronged == w.wronged
        && entry.token < |r.sessions| && entry.phase <= PHASE_WAIT_EXCHANGE
        && Kept(Report(r, Some(entry.token)))
        && (entry.phase == PHASE_PAY ==> MayPay(r.log[|r.log| - 1], entry.token))
        && (!byKey && entry.phase == PHASE_EXCHANGE ==>
             r.log[|r.log| - 1] == Observed(entry.token, Paid) && r.sessions[entry.token] == Paid))
  {
    hide Orderly, Remembered, GetSession, CreateSession;
    if w.retained.None? {
      CreateKeeps(w, o);
      var (r, token) := CreateSession(w, o);
      if token.Some? {
        ReportKeeps(r, token);
      }
    } else {
      var t := w.retained.value;
      GetKeeps(w, o, t);
      var (r, reply) := GetSession(w, o, t);
      assert Report(r, Some(t)) == r;
      if reply.ClientRefused? || (reply.Got? && Dead(reply.status)) {
        DropKeeps(r, t);
      } else if reply.Unknown? {
        DiscardKeeps(r, t);
      }
    }
  }

  /** A run keeps everything, wherever it is cut off and whatever replies it loses. */
  lemma RunKeeps(w: World, o: Oracle, req: Request)
    requires Kept(w)
    ensures Kept(Run(w, o, req).0) && LeavesOff(w.wronged, Run(w, o, req).0)
  {
    assert WellFormed(Log(w, Started));
    hide Kept, Resolve, Drive, LeavesOff;
    LogKeeps(w, Started);
    var (r, entry) := Resolve(Log(w, Started), o, req.byKey);
    ResolveKeeps(Log(w, Started), o, req.byKey);
    if entry.Enter? {
      DriveKeeps(Report(r, Some(entry.token)), o, entry.token, entry.phase, req);
    }
  }

  const FRESH := World(0, [], None, {}, [], false)

  /** A caller that retries, each time with the last token it was told. */
  ghost function Runs(o: Oracle, reqs: seq<Request>): (w: World)
    ensures Kept(w)
  {
    if reqs == [] then FRESH
    else
      RunKeeps(Runs(o, reqs[..|reqs| - 1]), o, reqs[|reqs| - 1]);
      Run(Runs(o, reqs[..|reqs| - 1]), o, reqs[|reqs| - 1]).0
  }

  /** Over any number of runs with lost replies, crashes and retries: as long as no 4xx, and no unknown status at
      a resume, was about a live session that a Pay was sent for, no two live sessions ever have a checkout
      opened. */
  lemma OneCheckoutAtATime(o: Oracle, reqs: seq<Request>, s: Token, t: Token)
    requires !Runs(o, reqs).wronged && OpenCheckout(Runs(o, reqs), s) && OpenCheckout(Runs(o, reqs), t)
    ensures s == t && Runs(o, reqs).retained == Some(s)
  {
    AtMostOneCheckout(Runs(o, reqs), s, t);
  }

  /** The requests of all runs are in order, whatever the replies. */
  lemma RequestsAreOrderly(o: Oracle, reqs: seq<Request>)
    ensures Orderly(Runs(o, reqs).log)
  {
    assert Kept(Runs(o, reqs));
  }

  /* When the token of a live session is dropped. */

  /** Later runs from any world. */
  ghost function RunsFrom(w: World, o: Oracle, reqs: seq<Request>): (r: World)
    requires WellFormed(w)
    ensures WellFormed(r)
  {
    if reqs == [] then w
    else
      var before := RunsFrom(w, o, reqs[..|reqs| - 1]);
      RunIsSound(before, o, reqs[|reqs| - 1]);
      Run(before, o, reqs[|reqs| - 1]).0
  }

  ghost predicate TwoOpen(w: World) {
    exists s, t :: s != t && OpenCheckout(w, s) && OpenCheckout(w, t)
  }

  /** Some later runs, in which no live session that was paid for is wronged, open two checkouts. */
  ghost predicate LeadsToTwo(w: World)
    requires WellFormed(w)
  {
    exists o, reqs :: !RunsFrom(w, o, reqs).wronged && TwoOpen(RunsFrom(w, o, reqs))
  }

  /** A run that ends with a 4xx, at whichever of its requests, or with an unknown status at its resume has dropped
      the token that was about. From then on a second checkout can be opened beside an open one, with nothing of
      that kind happening again, exactly when the dropped session had been paid for and is not dead. */
  lemma DropOpensSecondExactly(w: World, o: Oracle, req: Request, t: Token)
    requires Kept(w) && !w.wronged
    requires var log := Run(w, o, req).0.log;
      log != [] && Drops(log[|log| - 1]) && log[|log| - 1].token == t
    ensures var r := Run(w, o, req).0;
      && r.retained == None && t < |r.sessions|
      && (r.wronged <==> t in r.pays && !Dead(r.sessions[t]))
      && (LeadsToTwo(r.(wronged := false)) <==> r.wronged)
  {
    RunKeeps(w, o, req);
    hide Run;
    DroppedLeadsExactly(Run(w, o, req).0, t);
  }

  /** The same over all runs from the start, up to the first live session that was paid for and is wronged: the
      run that wrongs it ends by dropping its token. */
  lemma FirstDropOpensSecondExactly(o: Oracle, reqs: seq<Request>, req: Request)
    requires !Runs(o, reqs).wronged
    ensures var r := Runs(o, reqs + [req]);
      && r.log != []
      && var last := r.log[|r.log| - 1];
         if !Drops(last) then !r.wronged
         else
           && r.retained == None && last.token < |r.sessions|
           && (r.wronged <==> last.token in r.pays && !Dead(r.sessions[last.token]))
           && (LeadsToTwo(r.(wronged := false)) <==> r.wronged)
  {
    hide Run, LeadsToTwo;
    assert (reqs + [req])[..|reqs|] == reqs;
    var w, r := Runs(o, reqs), Runs(o, reqs + [req]);
    RunKeeps(w, o, req);
    if Drops(r.log[|r.log| - 1]) {
      DropOpensSecondExactly(w, o, req, r.log[|r.log| - 1].token);
    }
  }

  lemma DroppedLeadsExactly(r: World, t: Token)
    requires Dropped(r, t)
    ensures LeadsToTwo(r.(wronged := false)) <==> t in r.pays && !Dead(r.sessions[t])
  {
    if t in r.pays && !Dead(r.sessions[t]) {
      SecondIsOpened(r.(wronged := false), t);
    } else {
      hide RunsFrom, LeadsToTwo;
      ReportKeeps(r.(wronged := false, retained := Some(t)), None);
      assert Report(r.(wronged := false, retained := Some(t)), None) == r.(wronged := false);
      KeptLeadsToOne(r.(wronged := false));
    }
  }

  lemma KeptLeadsToOne(w: World)
    requires Kept(w)
    ensures !LeadsToTwo(w)
  {
    forall o, reqs ensures Kept(RunsFrom(w, o, reqs)) {
      RunsFromKeep(w, o, reqs);
    }
  }

  lemma {:induction false} RunsFromKeep(w: World, o: Oracle, reqs: seq<Request>)
    requires Kept(w)
    ensures Kept(RunsFrom(w, o, reqs))
  {
    assert WellFormed(w);
    hide Kept, Run;
    if reqs != [] {
      RunsFromKeep(w, o, reqs[..|reqs| - 1]);
      RunKeeps(RunsFrom(w, o, reqs[..|reqs| - 1]), o, reqs[|reqs| - 1]);
    }
  }

  /** The Pay for t arrives at last, one request is answered, and the rest lose their replies. */
  function Late(now: nat, t: Token): Oracle {
    k => Moment((u, s) => if u == t && s == PendingAuth then PendingPayment else s,
                true, if k == now then Delivered else Lost)
  }

  function Arrived(s: Status): Status { if s == PendingAuth then PendingPayment else s }

  lemma DriftLate(w: World, now: nat, t: Token)
    requires t < |w.sessions| && t in w.pays
    ensures Drift(w, Late(now, t)) == w.(now := w.now + 1, sessions := w.sessions[t := Arrived(w.sessions[t])])
  {
    var d := Drift(w, Late(now, t));
    forall u | 0 <= u < |w.sessions| ensures d.sessions[u] == w.sessions[t := Arrived(w.sessions[t])][u] {
      var move := Late(now, t)(w.now).drift;
      assert move(u, w.sessions[u]) == if u == t then Arrived(w.sessions[u]) else w.sessions[u];
    }
    assert d.sessions == w.sessions[t := Arrived(w.sessions[t])];
  }

  /** One run then opens a second checkout. */
  lemma SecondIsOpened(w: World, t: Token)
    requires WellFormed(w) && w.retained == None && !w.wronged && t < |w.sessions| && t in w.pays
      && !Dead(w.sessions[t])
    ensures LeadsToTwo(w)
  {
    var o, req := Late(w.now, t), Request(false, false, 0, 0);
    LateRun(w, t, req);
    hide Run;
    var r := RunsFrom(w, o, [req]);
    assert r == Run(w, o, req).0 by { RunsOne(w, o, req); }
    assert OpenCheckout(r, t) && OpenCheckout(r, |w.sessions|);
  }

  lemma RunsOne(w: World, o: Oracle, req: Request)
    requires WellFormed(w)
    ensures RunsFrom(w, o, [req]) == Run(w, o, req).0
  {
    hide Run;
    assert [req][..0] == [];
    assert RunsFrom(w, o, []) == w;
  }

  lemma LateRun(w: World, t: Token, req: Request)
    requires WellFormed(w) && w.retained == None && t < |w.sessions| && t in w.pays
    ensures var r := Run(w, Late(w.now, t), req).0;
      r.wronged == w.wronged && r.sessions == w.sessions[t := Arrived(w.sessions[t])] + [PendingPayment]
  {
    hide Drift, AwaitPayment;
    var o, n := Late(w.now, t), |w.sessions|;
    var begun := Log(w, Started);
    DriftLate(begun, w.now, t);
    var (resolved, entry) := Resolve(begun, o, req.byKey);
    assert entry == Enter(n, PHASE_PAY);
    var held := Report(resolved, Some(n));
    var moved := w.sessions[t := Arrived(w.sessions[t])];
    assert held.sessions == moved + [PendingAuth];
    var sent := Log(held, PaySent(n)).(pays := held.pays + {n});
    DriftLate(sent, w.now, t);
    assert sent.sessions[t := Arrived(sent.sessions[t])] == moved + [PendingAuth];
    assert (moved + [PendingAuth])[n := PendingPayment] == moved + [PendingPayment];
  }

  /* Runs stay well formed from any world. */

  lemma {:induction false} PollPaidIsSound(w: World, o: Oracle, t: Token, n: nat)
    requires t < |w.sessions|
    ensures var r := PollPaid(w, o, t, n).0; |r.sessions| == |w.sessions| && r.retained in {w.retained, None}
    decreases n
  {
    if n > 0 {
      PollPaidIsSound(GetSession(w, o, t).0, o, t, n - 1);
    }
  }

  lemma {:induction false} PollSettledIsSound(w: World, o: Oracle, t: Token, n: nat)
    requires t < |w.sessions|
    ensures var r := PollSettled(w, o, t, n); |r.sessions| == |w.sessions| && r.retained in {w.retained, None}
    decreases n
  {
    if n > 0 {
      PollSettledIsSound(GetSession(w, o, t).0, o, t, n - 1);
    }
  }

  lemma AwaitIsSound(w: World, o: Oracle, t: Token, phase: nat, req: Request)
    requires t < |w.sessions|
    ensures var r := AwaitPayment(w, o, t, phase, req).0;
      |r.sessions| == |w.sessions| && r.retained in {w.retained, None}
  {
    hide PollPaid, PollSettled;
    PollPaidIsSound(w, o, t, req.patience);
    PollSettledIsSound(w, o, t, req.followed);
    PollSettledIsSound(PollPaid(w, o, t, req.patience).0, o, t, req.followed);
  }

  lemma RunIsSound(w: World, o: Oracle, req: Request)
    requires WellFormed(w)
    ensures WellFormed(Run(w, o, req).0)
  {
    hide Resolve, AwaitPayment;
    var (r, entry) := Resolve(Log(w, Started), o, req.byKey);
    ResolveIsSound(Log(w, Started), o, req.byKey);
    if entry.Enter? {
      var held := Report(r, Some(entry.token));
      AwaitIsSound(held, o, entry.token, entry.phase, req);
      AwaitIsSound(Pay(held, o, entry.token).0, o, entry.token, entry.phase, req);
    }
  }

  /* Inputs that get there. */

  lemma StandsStill(w: World, o: Oracle)
    requires forall t, s :: o(w.now).drift(t, s) == s
    ensures Drift(w, o) == w.(now := w.now + 1)
  {
  }

  /** A run without a token opens a checkout, although the reply to its Pay is lost. */
  lemma RunOpens(w: World, o: Oracle, req: Request)
    requires WellFormed(w) && w.retained == None
    requires forall k, t, s | w.now <= k < w.now + 2 :: o(k).drift(t, s) == s
    requires o(w.now).arrives && o(w.now).answer == Delivered && o(w.now + 1).arrives && o(w.now + 1).answer == Lost
    ensures Run(w, o, req).0.sessions == w.sessions + [PendingPayment] && Run(w, o, req).0.wronged == w.wronged
  {
    hide Drift, AwaitPayment;
    var n := |w.sessions|;
    StandsStill(Log(w, Started), o);
    var (resolved, entry) := Resolve(Log(w, Started), o, req.byKey);
    assert entry == Enter(n, PHASE_PAY);
    var held := Report(resolved, Some(n));
    assert held.sessions == w.sessions + [PendingAuth];
    StandsStill(Log(held, PaySent(n)).(pays := held.pays + {n}), o);
    assert (w.sessions + [PendingAuth])[n := PendingPayment] == w.sessions + [PendingPayment];
  }

  /** A run that resumes the token of an open checkout and gets a 4xx at once, such as a rate limit, or a status it
      does not know, drops the token; the next run then opens a second checkout beside it. */
  lemma ResumeOpensSecond(w: World, o: Oracle, req: Request)
    requires Kept(w) && w.retained.Some? && OpenCheckout(w, w.retained.value)
    requires forall k, t, s | w.now <= k < w.now + 3 :: o(k).drift(t, s) == s
    requires o(w.now).answer == ClientError || o(w.now).answer == Misread
    requires o(w.now + 1).arrives && o(w.now + 1).answer == Delivered
    requires o(w.now + 2).arrives && o(w.now + 2).answer == Lost
    ensures var first := Run(w, o, req).0;
      && WellFormed(first) && first.wronged && first.retained == None && first.sessions == w.sessions
      && Run(first, o, req).0.sessions == w.sessions + [PendingPayment]
      && OpenCheckout(Run(first, o, req).0, w.retained.value) && OpenCheckout(Run(first, o, req).0, |w.sessions|)
  {
    var t := w.retained.value;
    StandsStill(Log(w, Started), o);
    var first := Run(w, o, req).0;
    var e := if o(w.now).answer == ClientError then Refused(t) else Discarded(t);
    assert first == Report(Log(Log(w, Started), e).(now := w.now + 1, wronged := true), None);
    hide Run;
    RunOpens(first, o, req);
  }

  /** What a first run does until its Pay is answered. */
  function Asked(): World {
    World(2, [PendingPayment], Some(0), {0}, [Started, Created(0), PaySent(0)], false)
  }

  lemma FirstRunAsks(o: Oracle, req: Request)
    requires forall k, t, s | 0 <= k < 2 :: o(k).drift(t, s) == s
    requires o(0).arrives && o(0).answer == Delivered && o(1).arrives && o(1).answer == Delivered
    ensures Run(FRESH, o, req) == AwaitPayment(Asked(), o, 0, PHASE_PAY, req)
  {
    hide AwaitPayment, Drift;
    StandsStill(Log(FRESH, Started), o);
    var held := World(1, [PendingAuth], Some(0), {}, [Started, Created(0)], false);
    var created := World(1, [] + [PendingAuth], None, {}, [Started] + [Created(0)], false);
    assert Log(FRESH, Started).log == [Started];
    assert CreateSession(Log(FRESH, Started), o) == (created, Some(0));
    assert Report(created, Some(0)) == held;
    var sent := World(1, [PendingAuth], Some(0), {0}, [Started, Created(0), PaySent(0)], false);
    assert Log(held, PaySent(0)).(pays := held.pays + {0}) == sent;
    StandsStill(sent, o);
    assert [PendingAuth][0 := PendingPayment] == [PendingPayment];
    assert Pay(held, o, 0) == (Asked(), true);
  }

  /** A first run that stops once its Pay is answered leaves the caller with the token of an open checkout. */
  lemma FirstRunHolds(o: Oracle, req: Request)
    requires req.patience == 0
    requires forall k, t, s | 0 <= k < 2 :: o(k).drift(t, s) == s
    requires o(0).arrives && o(0).answer == Delivered && o(1).arrives && o(1).answer == Delivered
    ensures Runs(o, [req]) == Asked() && Kept(Asked()) && OpenCheckout(Asked(), 0)
  {
    RunsFirst(o, req);
    FirstRunAsks(o, req);
    assert Kept(Runs(o, [req]));
  }

  /** So three runs from the start open two checkouts when the second meets a status it does not know, or a 4xx,
      at its resume. */
  lemma ThreeRunsOpenTwo(o: Oracle, first: Request, req: Request)
    requires first.patience == 0
    requires forall k, t, s | 0 <= k < 5 :: o(k).drift(t, s) == s
    requires forall k | 0 <= k < 5 && k != 2 :: o(k).arrives
    requires o(0).answer == o(1).answer == o(3).answer == Delivered && o(4).answer == Lost
    requires o(2).answer == Misread || o(2).answer == ClientError
    ensures Runs(o, [first, req]).wronged && Runs(o, [first, req]).retained == None
    ensures Runs(o, [first, req, req]).sessions == [PendingPayment, PendingPayment]
  {
    FirstRunHolds(o, first);
    var w := Runs(o, [first]);
    assert w.now == 2 && w.retained == Some(0) && w.sessions == [PendingPayment];
    assert [first] + [req] == [first, req] && [first, req] + [req] == [first, req, req];
    hide *;
    ResumeOpensSecond(w, o, req);
    RunsSnoc(o, [first], req);
    RunsSnoc(o, [first, req], req);
  }

  /** And two runs do when the first look at the payment gets a 4xx. */
  lemma PollRefusalOpensSecond(o: Oracle, first: Request, second: Request)
    requires first.patience > 0
    requires forall k, t, s | 0 <= k < 5 :: o(k).drift(t, s) == s
    requires forall k | 0 <= k < 5 && k != 2 :: o(k).arrives
    requires o(0).answer == o(1).answer == o(3).answer == Delivered && o(2).answer == ClientError && o(4).answer == Lost
    ensures Runs(o, [first]).wronged && Runs(o, [first]).retained == None
    ensures Runs(o, [first, second]).sessions == [PendingPayment, PendingPayment]
  {
    RunsFirst(o, first);
    PollIsRefused(o, first);
    hide Run, Runs;
    RunOpens(Runs(o, [first]), o, second);
    RunsSnoc(o, [first], second);
    assert [first] + [second] == [first, second];
  }

  lemma PollIsRefused(o: Oracle, req: Request)
    requires req.patience > 0
    requires forall k, t, s | 0 <= k < 3 :: o(k).drift(t, s) == s
    requires o(0).arrives && o(0).answer == Delivered && o(1).arrives && o(1).answer == Delivered
      && o(2).answer == ClientError
    ensures Run(FRESH, o, req).0
      == World(3, [PendingPayment], None, {0}, [Started, Created(0), PaySent(0), Refused(0)], true)
  {
    FirstRunAsks(o, req);
    hide Run, Drift;
    StandsStill(Asked(), o);
    assert Log(Asked(), Refused(0)).log == [Started, Created(0), PaySent(0), Refused(0)];
  }

  lemma RunsFirst(o: Oracle, req: Request)
    ensures WellFormed(FRESH) && Runs(o, [req]) == Run(FRESH, o, req).0
  {
    hide Run;
    assert [req][..0] == [];
    assert Runs(o, []) == FRESH;
  }

  lemma RunsSnoc(o: Oracle, reqs: seq<Request>, req: Request)
    ensures WellFormed(Runs(o, reqs)) && Runs(o, reqs + [req]) == Run(Runs(o, reqs), o, req).0
  {
    hide Run;
    assert (reqs + [req])[..|reqs|] == reqs;
  }

  /* The client. */

  class Client {
    var world: World
    const oracle: Oracle

    constructor (oracle: Oracle)
      ensures world == FRESH && this.oracle == oracle
    {
      world := FRESH;
      this.oracle := oracle;
    }

    method Fetch(t: Token) returns (reply: Reply)
      requires t < |world.sessions|
      modifies this
      ensures (world, reply) == GetSession(old(world), oracle, t)
    {
      var (w, r) := GetSession(world, oracle, t);
      world, reply := w, r;
    }

    method OnSession(token: Option<Token>)
      modifies this
      ensures world == Report(old(world), token)
    {
      world := Report(world, token);
    }

    method ResolveTopupSession() returns (entry: Entry)
      requires WellFormed(world)
      modifies this
      ensures (world, entry) == Resolve(old(world), oracle, false)
    {
      if world.retained.None? {
        var (w, token) := CreateSession(world, oracle);
        world := w;
        return if token.Some? then Enter(token.value, PHASE_PAY) else Halt;
      }
      var resume := world.retained.value;
      var reply := Fetch(resume);
      match reply
      case ClientRefused =>
        OnSession(None);
        return Halt;
      case Unknown =>
        world := Wrong(Log(world, Discarded(resume)), resume);
        OnSession(None);
        return Halt;
      case Transient => return Halt;
      case Gone => return Halt;
      case Got(s) =>
        match s {
          case PendingAuth => return Enter(resume, PHASE_PAY);
          case PendingPayment => return Enter(resume, PHASE_POLL);
          case Paid => return Enter(resume, PHASE_EXCHANGE);
          case Exchanging => return Enter(resume, PHASE_WAIT_EXCHANGE);
          case Exchanged => return Halt;
          case _ =>
            OnSession(None);
            return Halt;
        }
    }

    method ResolveByKeySession() returns (entry: Entry)
      requires WellFormed(world)
      modifies this
      ensures (world, entry) == Resolve(old(world), oracle, true)
    {
      if world.retained.None? {
        var (w, token) := CreateSession(world, oracle);
        world := w;
        return if token.Some? then Enter(token.value, PHASE_PAY) else Halt;
      }
      var resume := world.retained.value;
      var reply := Fetch(resume);
      match reply
      case ClientRefused =>
        OnSession(None);
        return Halt;
      case Unknown =>
        world := Wrong(Log(world, Discarded(resume)), resume);
        OnSession(None);
        return Halt;
      case Transient => return Halt;
      case Gone => return Halt;
      case Got(s) =>
        match s {
          case PendingAuth => return Enter(resume, PHASE_PAY);
          case PendingPayment => return Enter(resume, PHASE_POLL);
          case Paid => return Enter(resume, PHASE_EXCHANGE);
          case Exchanging => return Enter(resume, PHASE_EXCHANGE);
          case Exchanged => return Enter(resume, PHASE_EXCHANGE);
          case _ =>
            OnSession(None);
            return Halt;
        }
    }

    method PollUntilPaid(t: Token, patience: nat) returns (paid: Option<Status>)
      requires t < |world.sessions|
      modifies this
      ensures (world, paid) == PollPaid(old(world), oracle, t, patience)
    {
      hide GetSession;
      var left := patience;
      while left > 0
        invariant t < |world.sessions|
        invariant PollPaid(old(world), oracle, t, patience) == PollPaid(world, oracle, t, left)
      {
        assert |GetSession(world, oracle, t).0.sessions| == |world.sessions| by { GetKeepsSessions(world, oracle, t); }
        var reply := Fetch(t);
        left := left - 1;
        if reply.Gone? {
          return None;
        }
        if reply.ClientRefused? {
          OnSession(None);
          return None;
        }
        if reply.Got? {
          match reply.status {
            case Paid => return Some(Paid);
            case Exchanging => return Some(Exchanging);
            case Exchanged => return None;
            case PendingAuth => {}
            case PendingPayment => {}
            case _ =>
              OnSession(None);
              return None;
          }
        }
      }
      return None;
    }

    method PollUntilExchangeSettled(t: Token, patience: nat)
      requires t < |world.sessions|
      modifies this
      ensures world == PollSettled(old(world), oracle, t, patience)
    {
      hide GetSession;
      var left := patience;
      while left > 0
        invariant t < |world.sessions|
        invariant PollSettled(old(world), oracle, t, patience) == PollSettled(world, oracle, t, left)
      {
        assert |GetSession(world, oracle, t).0.sessions| == |world.sessions| by { GetKeepsSessions(world, oracle, t); }
        var reply := Fetch(t);
        left := left - 1;
        if reply.Gone? {
          return;
        }
        if reply.ClientRefused? {
          OnSession(None);
          return;
        }
        if reply.Unknown? {
          return;
        }
        if reply.Got? {
          match reply.status {
            case Exchanging => {}
            case Cancelled => OnSession(None); return;
            case Expired => OnSession(None); return;
            case Failed => OnSession(None); return;
            case _ => return;
          }
        }
      }
    }

    method StreamTopUp(req: Request) returns (ok: bool)
      requires WellFormed(world) && !req.byKey
      modifies this
      ensures (world, ok) == Run(old(world), oracle, req)
    {
      hide Resolve, PollPaid, PollSettled, Pay, Exchange;
      world := Log(world, Started);
      ResolveIsSound(world, oracle, false);
      var entry := ResolveTopupSession();
      if entry.Halt? {
        return false;
      }
      var t, phase := entry.token, entry.phase;
      OnSession(Some(t));
      if phase <= PHASE_PAY {
        PayKeepsSessions(world, oracle, t);
        var (w, answered) := Pay(world, oracle, t);
        world := w;
        if !answered {
          return false;
        }
      }
      if phase <= PHASE_POLL {
        PollKeepsSessions(world, oracle, t, req.patience);
        var paid := PollUntilPaid(t, req.patience);
        if paid.None? {
          return false;
        }
        if paid.value == Exchanging {
          phase := PHASE_WAIT_EXCHANGE;
        }
      }
      if req.exchange {
        if phase == PHASE_WAIT_EXCHANGE {
          PollUntilExchangeSettled(t, req.followed);
          return false;
        }
        var (w, answered) := Exchange(world, oracle, t);
        world := w;
        return answered;
      }
      return true;
    }

    method StreamTopUpByKey(req: Request) returns (ok: bool)
      requires WellFormed(world) && req.byKey
      modifies this
      ensures (world, ok) == Run(old(world), oracle, req)
    {
      hide Resolve, PollPaid, PollSettled, Pay, Exchange;
      world := Log(world, Started);
      ResolveIsSound(world, oracle, true);
      var entry := ResolveByKeySession();
      if entry.Halt? {
        return false;
      }
      var t := entry.token;
      OnSession(Some(t));
      if entry.phase <= PHASE_PAY {
        PayKeepsSessions(world, oracle, t);
        var (w, answered) := Pay(world, oracle, t);
        world := w;
        if !answered {
          return false;
        }
      }
      if entry.phase <= PHASE_POLL {
        PollKeepsSessions(world, oracle, t, req.patience);
        var paid := PollUntilPaid(t, req.patience);
        if paid.None? {
          return false;
        }
      }
      return true;
    }
  }

  lemma GetKeepsSessions(w: World, o: Oracle, t: Token)
    requires t < |w.sessions|
    ensures |GetSession(w, o, t).0.sessions| == |w.sessions|
  {
  }

  lemma PayKeepsSessions(w: World, o: Oracle, t: Token)
    requires t < |w.sessions|
    ensures |Pay(w, o, t).0.sessions| == |w.sessions|
  {
  }
}
