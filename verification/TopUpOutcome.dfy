/** What one top-up run does and how it ends (internal/aimlapi/stream.go, topup.go): which requests follow which
    sights, when the run succeeds, and which token its caller holds afterwards. */
module TopUpOutcome {
  import opened Text
  import opened TopUp

  predicate PaidSight(e: Event) { e.Observed? && (e.status == Paid || e.status == Exchanging) }

  predicate Pending(e: Event) { e.Observed? && (e.status == PendingAuth || e.status == PendingPayment) }

  /** A look at a session: a status, or a 4xx. */
  predicate Looks(e: Event, t: Token) { (e.Observed? || e.Refused?) && e.token == t }

  /** The last look shows the session dead, or got a 4xx: the token is dropped. */
  predicate ShowsDead(e: Event) { e.Refused? || (e.Observed? && Dead(e.status)) }

  /* The polls. */

  /** The payment poll only looks. It goes on as long as it sees the session pending or nothing at all, until its
      patience is over; it finds the session paid when its last look shows that. */
  ghost predicate PollsForPayment(w: World, o: Oracle, t: Token, n: nat, r: World, paid: Option<Status>,
                                  news: seq<Event>)
  {
    && w.now <= r.now <= w.now + n && r.log == w.log + news && |r.sessions| == |w.sessions|
    && (forall e | e in news :: Looks(e, t))
    && (forall i | 0 <= i < |news| - 1 :: Pending(news[i]))
    && (forall m | w.now <= m < r.now - 1 :: o(m).answer in {Lost, Misread, Delivered})
    && (r.now < w.now + n ==> r.now > w.now && PollDecided(o(r.now - 1).answer, news))
    && (if paid.None? then forall e | e in news :: !PaidSight(e)
        else
          && news != [] && news[|news| - 1] == Observed(t, paid.value) && PaidSight(news[|news| - 1])
          && t < |r.sessions| && r.sessions[t] == paid.value)
    && r.retained == if news != [] && ShowsDead(news[|news| - 1]) then None else w.retained
  }

  predicate PollDecided(last: Answer, news: seq<Event>) {
    last == Stopped || last == ClientError || (last == Delivered && news != [] && !Pending(news[|news| - 1]))
  }

  lemma {:induction false} PollPaidPolls(w: World, o: Oracle, t: Token, n: nat) returns (news: seq<Event>)
    requires t < |w.sessions|
    ensures var (r, paid) := PollPaid(w, o, t, n); PollsForPayment(w, o, t, n, r, paid, news)
    decreases n
  {
    if n == 0 || PollEnds(GetSession(w, o, t).1) {
      news := PollPaidEnds(w, o, t, n);
    } else {
      var (seen, reply) := GetSession(w, o, t);
      LookIs(w, o, t);
      news := if reply.Got? then [Observed(t, reply.status)] else [];
      var more := PollPaidPolls(seen, o, t, n - 1);
      var (r, paid) := PollPaid(seen, o, t, n - 1);
      hide *;
      PollStep(w, o, t, n, seen, r, paid, news, more);
      news := news + more;
    }
  }

  predicate PollEnds(reply: Reply) {
    reply.Gone? || reply.ClientRefused? || (reply.Got? && reply.status !in {PendingAuth, PendingPayment})
  }

  lemma PollPaidEnds(w: World, o: Oracle, t: Token, n: nat) returns (news: seq<Event>)
    requires t < |w.sessions| && (n == 0 || PollEnds(GetSession(w, o, t).1))
    ensures var (r, paid) := PollPaid(w, o, t, n); PollsForPayment(w, o, t, n, r, paid, news)
  {
    news := [];
    if n > 0 {
      var (seen, reply) := GetSession(w, o, t);
      LookIs(w, o, t);
      news := if reply.ClientRefused? then [Refused(t)] else if reply.Got? then [Observed(t, reply.status)] else [];
      hide GetSession;
    }
  }

  lemma PollStep(w: World, o: Oracle, t: Token, n: nat, seen: World, r: World, paid: Option<Status>,
                 first: seq<Event>, more: seq<Event>)
    requires n > 0 && seen.now == w.now + 1 && seen.log == w.log + first && seen.retained == w.retained
    requires |seen.sessions| == |w.sessions| && o(w.now).answer in {Lost, Misread, Delivered}
    requires |first| <= 1 && forall e | e in first :: Looks(e, t) && Pending(e)
    requires PollsForPayment(seen, o, t, n - 1, r, paid, more)
    ensures PollsForPayment(w, o, t, n, r, paid, first + more)
  {
    assert w.log + first + more == w.log + (first + more);
    assert first != [] ==> first[0] in first;
    LastOf(first, more);
  }

  lemma LastOf(first: seq<Event>, more: seq<Event>)
    requires |first| <= 1
    ensures more != [] ==> (first + more)[|first + more| - 1] == more[|more| - 1]
    ensures forall i | 0 <= i < |first + more| - 1 ::
      (first + more)[i] in first || (i - |first| < |more| - 1 && i >= |first| && (first + more)[i] == more[i - |first|])
  {
  }

  /** One look at a session. */
  lemma LookIs(w: World, o: Oracle, t: Token)
    requires t < |w.sessions|
    ensures var (r, reply) := GetSession(w, o, t);
      && r.now == w.now + 1 && r.retained == w.retained && |r.sessions| == |w.sessions| && r.pays == w.pays
      && Forward(w.sessions[t], r.sessions[t])
      && match o(w.now).answer
         case Delivered => reply == Got(r.sessions[t]) && r.log == w.log + [Observed(t, r.sessions[t])]
         case ClientError => reply == ClientRefused && r.log == w.log + [Refused(t)]
         case Misread => reply == Unknown && r.log == w.log
         case Lost => reply == Transient && r.log == w.log
         case Stopped => reply == Gone && r.log == w.log
  {
  }

  /** The poll that follows a claimed exchange goes on while it sees the session exchanging or gets no reply. */
  ghost predicate PollsForExchange(w: World, o: Oracle, t: Token, n: nat, r: World, news: seq<Event>) {
    && w.now <= r.now <= w.now + n && r.log == w.log + news && |r.sessions| == |w.sessions|
    && (forall e | e in news :: Looks(e, t) && (e.Observed? ==> Rank(e.status) >= Rank(Exchanging)))
    && (forall i | 0 <= i < |news| - 1 :: news[i] == Observed(t, Exchanging))
    && (forall m | w.now <= m < r.now - 1 :: o(m).answer in {Lost, Delivered})
    && (r.now < w.now + n ==> r.now > w.now && FollowDecided(o(r.now - 1).answer, t, news))
    && r.retained == if news != [] && ShowsDead(news[|news| - 1]) then None else w.retained
  }

  predicate FollowDecided(last: Answer, t: Token, news: seq<Event>) {
    || last in {Stopped, ClientError, Misread}
    || (last == Delivered && news != [] && news[|news| - 1] != Observed(t, Exchanging))
  }

  lemma {:induction false} PollSettledPolls(w: World, o: Oracle, t: Token, n: nat) returns (news: seq<Event>)
    requires t < |w.sessions| && Rank(w.sessions[t]) >= Rank(Exchanging)
    ensures PollsForExchange(w, o, t, n, PollSettled(w, o, t, n), news)
    decreases n
  {
    news := [];
    if n > 0 {
      var (seen, reply) := GetSession(w, o, t);
      LookIs(w, o, t);
      news := if reply.ClientRefused? then [Refused(t)] else if reply.Got? then [Observed(t, reply.status)] else [];
      if reply.Transient? || (reply.Got? && reply.status == Exchanging) {
        var more := PollSettledPolls(seen, o, t, n - 1);
        var r := PollSettled(seen, o, t, n - 1);
        hide *;
        FollowStep(w, o, t, n, seen, r, news, more);
        news := news + more;
      }
    }
  }

  lemma FollowStep(w: World, o: Oracle, t: Token, n: nat, seen: World, r: World, first: seq<Event>, more: seq<Event>)
    requires n > 0 && seen.now == w.now + 1 && seen.log == w.log + first && seen.retained == w.retained
    requires |seen.sessions| == |w.sessions| && o(w.now).answer in {Lost, Delivered}
    requires |first| <= 1 && forall e | e in first :: e == Observed(t, Exchanging)
    requires PollsForExchange(seen, o, t, n - 1, r, more)
    ensures PollsForExchange(w, o, t, n, r, first + more)
  {
    assert w.log + first + more == w.log + (first + more);
    assert first != [] ==> first[0] in first;
    LastOf(first, more);
  }

  /* A run. */

  /** The session a run is about: the one its caller holds, or the one it creates. */
  function Subject(w: World): Token { if w.retained.Some? then w.retained.value else |w.sessions| }

  /** What a run does first: it creates a session, or looks at the one its caller holds. */
  ghost predicate Begins(w: World, a: Moment, first: seq<Event>) {
    var t := Subject(w);
    if w.retained.None? then first == if a.arrives && a.answer in {Delivered, Misread} then [Created(t)] else []
    else match a.answer
      case Delivered => |first| == 1 && first[0].Observed? && first[0].token == t
      case Misread => first == [Discarded(t)]
      case ClientError => first == [Refused(t)]
      case _ => first == []
  }

  /** The first sight lets the run go on: a new session, or one that is neither dead nor, unless the run funds an
      account by key, exchanged. */
  predicate Proceeds(byKey: bool, e: Event) {
    e.Created? || (e.Observed? && !Dead(e.status) && (e.status == Exchanged ==> byKey))
  }

  predicate Drops(e: Event) { e.Discarded? || ShowsDead(e) }

  lemma ResolveBegins(w: World, o: Oracle, byKey: bool) returns (first: seq<Event>)
    requires WellFormed(w)
    ensures var (r, entry) := Resolve(w, o, byKey);
      && Begins(w, o(w.now), first) && r.log == w.log + first && r.now == w.now + 1
      && (entry.Enter? <==> first != [] && Proceeds(byKey, first[0]))
      && (entry.Enter? ==> EntersAt(byKey, first[0], entry, r) && entry.token == Subject(w))
      && (entry.Halt? ==> r.retained == if first != [] && Drops(first[0]) then None else w.retained)
  {
    if w.retained.None? {
      first := if o(w.now).arrives && Answered(o(w.now).answer) then [Created(|w.sessions|)] else [];
    } else {
      var t := w.retained.value;
      LookIs(w, o, t);
      var (seen, reply) := GetSession(w, o, t);
      first := match o(w.now).answer
        case Delivered => [Observed(t, seen.sessions[t])]
        case Misread => [Discarded(t)]
        case ClientError => [Refused(t)]
        case _ => [];
    }
  }

  /** The phase a run enters by its first sight. */
  predicate EntersAt(byKey: bool, e: Event, entry: Entry, r: World)
    requires entry.Enter?
  {
    && entry.token < |r.sessions|
    && (entry.phase <= PHASE_PAY <==> e.Created? || (e.Observed? && e.status == PendingAuth))
    && (entry.phase <= PHASE_POLL <==> e.Created? || Pending(e))
    && (e.Observed? ==> e.status == r.sessions[entry.token])
    && (!byKey && entry.phase > PHASE_POLL ==>
          (entry.phase == PHASE_WAIT_EXCHANGE <==> e.Observed? && e.status == Exchanging))
    && (!byKey && entry.phase > PHASE_POLL && entry.phase != PHASE_WAIT_EXCHANGE ==> e.Observed? && e.status == Paid)
  }

  /** What follows the sight of the session paid. */
  ghost predicate AfterPaid(o: Oracle, t: Token, req: Request, saw: Event, end: seq<Event>, r: World, ok: bool)
    requires saw.Observed?
  {
    if req.byKey || !req.exchange then end == [] && ok && r.retained == Some(t)
    else if saw.status == Exchanging then
      && !ok && (forall x | x in end :: Looks(x, t) && x != Observed(t, Paid))
      && r.retained == if end != [] && ShowsDead(end[|end| - 1]) then None else Some(t)
    else
      && end == [ExchangeSent(t)] && r.retained == Some(t) && r.now > 0
      && (ok <==> Answered(o(r.now - 1).answer))
  }

  lemma ProvisionEnds(w: World, o: Oracle, t: Token, phase: nat, req: Request, saw: Event) returns (end: seq<Event>)
    requires t < |w.sessions| && w.retained == Some(t) && saw == Observed(t, w.sessions[t])
    requires !req.byKey ==> (phase == PHASE_WAIT_EXCHANGE <==> saw.status == Exchanging)
    ensures var (r, ok) := Provision(w, o, t, phase, req);
      r.log == w.log + end && AfterPaid(o, t, req, saw, end, r, ok)
  {
    end := [];
    if !req.byKey && req.exchange {
      if phase == PHASE_WAIT_EXCHANGE {
        end := PollSettledPolls(w, o, t, req.followed);
      } else {
        end := [ExchangeSent(t)];
      }
    }
  }

  predicate Funded(seen: seq<Event>, t: Token) { Observed(t, Paid) in seen || Observed(t, Exchanging) in seen }

  /** Its requests are one Pay, sent at once exactly for a new session or one seen pending authorization, and looks
      at the session. */
  ghost predicate Pays(t: Token, first: Event, rest: seq<Event>) {
    && (forall x | x in rest :: x == PaySent(t) || x == ExchangeSent(t) || Looks(x, t))
    && (PaySent(t) in rest <==> MayPay(first, t))
    && (MayPay(first, t) ==> rest[0] == PaySent(t) && PaySent(t) !in rest[1..])
  }

  /** It sends one Exchange, as its last request, exactly when it is to exchange the session and sees it paid. */
  ghost predicate Exchanges(t: Token, req: Request, first: Event, rest: seq<Event>) {
    && (ExchangeSent(t) in rest <==> !req.byKey && req.exchange && Observed(t, Paid) in [first] + rest)
    && (ExchangeSent(t) in rest ==> rest[|rest| - 1] == ExchangeSent(t) && ExchangeSent(t) !in rest[..|rest| - 1])
  }

  /** It succeeds exactly when it sees the session funded and, if it is to exchange it, its Exchange is answered. */
  ghost predicate Succeeds(o: Oracle, t: Token, req: Request, first: Event, rest: seq<Event>, r: World, ok: bool) {
    ok <==>
      && (Funded([first] + rest, t) || (req.byKey && first == Observed(t, Exchanged)))
      && (!req.byKey && req.exchange ==> ExchangeSent(t) in rest && r.now > 0 && Answered(o(r.now - 1).answer))
  }

  /** Its caller holds the token afterwards, unless the last sight shows the session dead. */
  ghost predicate Holds(t: Token, first: Event, rest: seq<Event>, r: World) {
    var last := if rest == [] then first else rest[|rest| - 1];
    r.retained == if ShowsDead(last) then None else Some(t)
  }

  /** A run behind its first sight, when that lets it go on. */
  ghost predicate Continues(o: Oracle, t: Token, req: Request, first: Event, rest: seq<Event>, r: World, ok: bool) {
    && Pays(t, first, rest) && Exchanges(t, req, first, rest)
    && Succeeds(o, t, req, first, rest, r, ok) && Holds(t, first, rest, r)
  }

  /** No payment is asked for and the session is seen paid at once. */
  lemma PaidContinues(o: Oracle, t: Token, req: Request, first: Event, end: seq<Event>, r: World, ok: bool)
    requires first.Observed? && first.token == t && (PaidSight(first) || (req.byKey && first.status == Exchanged))
    requires AfterPaid(o, t, req, first, end, r, ok)
    ensures Continues(o, t, req, first, end, r, ok)
  {
    assert first in [first] + end;
  }

  /** The poll sees it paid, behind a payment that was asked for now or earlier. */
  lemma PolledContinues(o: Oracle, t: Token, req: Request, first: Event, asked: seq<Event>, polls: seq<Event>,
                        end: seq<Event>, r: World, ok: bool)
    requires (first.Created? || Pending(first)) && (first.Observed? ==> first.token == t)
    requires asked == if MayPay(first, t) then [PaySent(t)] else []
    requires forall x | x in polls :: Looks(x, t)
    requires forall i | 0 <= i < |polls| - 1 :: Pending(polls[i])
    requires polls != [] && PaidSight(polls[|polls| - 1]) && AfterPaid(o, t, req, polls[|polls| - 1], end, r, ok)
    ensures Continues(o, t, req, first, asked + polls + end, r, ok)
  {
    var saw, rest := polls[|polls| - 1], asked + polls + end;
    assert saw in polls && saw == Observed(t, saw.status);
    assert end == [ExchangeSent(t)] || ExchangeSent(t) !in end;
    PolledSights(t, first, asked, polls, end);
    PolledRequests(t, asked, polls, end);
    assert Pays(t, first, rest);
    assert Exchanges(t, req, first, rest);
    hide Pays, Exchanges, Funded, Looks;
    assert Holds(t, first, rest, r);
  }

  lemma PolledRequests(t: Token, asked: seq<Event>, polls: seq<Event>, end: seq<Event>)
    requires asked == [] || asked == [PaySent(t)]
    requires forall x | x in polls :: Looks(x, t)
    requires end == [ExchangeSent(t)] || forall x | x in end :: Looks(x, t)
    ensures var rest := asked + polls + end;
      && (forall x | x in rest :: x == PaySent(t) || x == ExchangeSent(t) || Looks(x, t))
      && (PaySent(t) in rest <==> asked != [])
      && (asked != [] ==> rest[0] == PaySent(t) && PaySent(t) !in rest[1..])
      && (ExchangeSent(t) in rest <==> end == [ExchangeSent(t)])
      && (end == [ExchangeSent(t)] ==> rest[|rest| - 1] == ExchangeSent(t) && ExchangeSent(t) !in rest[..|rest| - 1])
  {
    var rest := asked + polls + end;
    if asked != [] {
      assert rest[1..] == polls + end;
    }
    if end == [ExchangeSent(t)] {
      assert rest[..|rest| - 1] == asked + polls;
    }
  }

  lemma PolledSights(t: Token, first: Event, asked: seq<Event>, polls: seq<Event>, end: seq<Event>)
    requires (first.Created? || Pending(first)) && Observed(t, Paid) !in asked && Observed(t, Paid) !in end
    requires forall i | 0 <= i < |polls| - 1 :: Pending(polls[i])
    requires polls != [] && PaidSight(polls[|polls| - 1]) && polls[|polls| - 1].token == t
    ensures var all := [first] + (asked + polls + end);
      Funded(all, t) && (Observed(t, Paid) in all <==> polls[|polls| - 1].status == Paid)
  {
    var all, saw := [first] + (asked + polls + end), polls[|polls| - 1];
    assert saw in polls;
    assert forall x :: x in all <==> x == first || x in asked || x in polls || x in end;
  }

  /** The poll never sees it paid. */
  lemma UnpaidContinues(o: Oracle, t: Token, req: Request, first: Event, asked: seq<Event>, polls: seq<Event>, r: World)
    requires (first.Created? || Pending(first)) && (first.Observed? ==> first.token == t)
    requires asked == if MayPay(first, t) then [PaySent(t)] else []
    requires forall x | x in polls :: Looks(x, t) && !PaidSight(x)
    requires r.retained == if polls != [] && ShowsDead(polls[|polls| - 1]) then None else Some(t)
    ensures Continues(o, t, req, first, asked + polls, r, false)
  {
    PolledRequests(t, asked, polls, []);
    assert asked + polls + [] == asked + polls;
    assert forall x :: x in [first] + (asked + polls) <==> x == first || x in asked || x in polls;
    assert !Funded([first] + (asked + polls), t);
    assert Exchanges(t, req, first, asked + polls);
    hide Pays, Exchanges, Funded, Looks;
  }

  lemma AwaitContinues(w: World, o: Oracle, t: Token, phase: nat, req: Request, first: Event, asked: seq<Event>)
    returns (rest: seq<Event>)
    requires t < |w.sessions| && w.retained == Some(t) && Proceeds(req.byKey, first)
    requires asked == if MayPay(first, t) then [PaySent(t)] else []
    requires first.Created? ==> first.token == t
    requires first.Observed? ==> first.token == t && (!Pending(first) ==> first.status == w.sessions[t])
    requires phase <= PHASE_POLL <==> first.Created? || Pending(first)
    requires !req.byKey && phase > PHASE_POLL ==> (phase == PHASE_WAIT_EXCHANGE <==> first.status == Exchanging)
    ensures var (r, ok) := AwaitPayment(w, o, t, phase, req);
      r.log == w.log + rest && Continues(o, t, req, first, asked + rest, r, ok)
  {
    var (r, ok) := AwaitPayment(w, o, t, phase, req);
    if phase > PHASE_POLL {
      hide Continues, AfterPaid;
      rest := ProvisionEnds(w, o, t, phase, req, first);
      assert asked + rest == rest;
      PaidContinues(o, t, req, first, rest, r, ok);
    } else {
      var (polled, paid) := PollPaid(w, o, t, req.patience);
      PollKeepsSessions(w, o, t, req.patience);
      var polls := PollPaidPolls(w, o, t, req.patience);
      rest := polls;
      if paid.None? {
        hide Continues, AfterPaid;
        UnpaidContinues(o, t, req, first, asked, polls, r);
      } else {
        rest := FoundPaid(w, o, t, phase, req, first, asked, polled, paid, polls);
      }
    }
  }

  lemma FoundPaid(w: World, o: Oracle, t: Token, phase: nat, req: Request, first: Event, asked: seq<Event>,
                  polled: World, paid: Option<Status>, polls: seq<Event>)
    returns (rest: seq<Event>)
    requires t < |polled.sessions| && w.retained == Some(t) && phase <= PHASE_POLL
    requires (first.Created? || Pending(first)) && (first.Observed? ==> first.token == t)
    requires asked == if MayPay(first, t) then [PaySent(t)] else []
    requires PollsForPayment(w, o, t, req.patience, polled, paid, polls) && paid.Some?
    ensures var next := if paid.value == Exchanging then PHASE_WAIT_EXCHANGE else phase;
      var (r, ok) := Provision(polled, o, t, next, req);
      r.log == w.log + rest && Continues(o, t, req, first, asked + rest, r, ok)
  {
    var next := if paid.value == Exchanging then PHASE_WAIT_EXCHANGE else phase;
    var (r, ok) := Provision(polled, o, t, next, req);
    var end := ProvisionEnds(polled, o, t, next, req, Observed(t, paid.value));
    rest := polls + end;
    hide Continues, AfterPaid, Provision;
    assert asked + polls + end == asked + rest;
    PolledContinues(o, t, req, first, asked, polls, end, r, ok);
  }

  /** What a run does, from whatever world and with whatever replies. */
  lemma RunIsExact(w: World, o: Oracle, req: Request) returns (first: seq<Event>, rest: seq<Event>)
    requires WellFormed(w)
    ensures var (r, ok) := Run(w, o, req);
      && r.log == w.log + [Started] + first + rest && Begins(w, o(w.now), first)
      && if first != [] && Proceeds(req.byKey, first[0]) then Continues(o, Subject(w), req, first[0], rest, r, ok)
         else rest == [] && !ok && r.retained == if first != [] && Drops(first[0]) then None else w.retained
  {
    var begun, t := Log(w, Started), Subject(w);
    first := ResolveBegins(begun, o, req.byKey);
    rest := [];
    var (resolved, entry) := Resolve(begun, o, req.byKey);
    ResolveIsSound(begun, o, req.byKey);
    if entry.Enter? {
      var held := Report(resolved, Some(t));
      hide Resolve, Continues;
      if entry.phase > PHASE_PAY {
        rest := AwaitContinues(held, o, t, entry.phase, req, first[0], []);
        assert [] + rest == rest;
      } else {
        rest := PayContinues(held, o, t, entry.phase, req, first[0]);
      }
    }
  }

  lemma PayContinues(w: World, o: Oracle, t: Token, phase: nat, req: Request, first: Event) returns (rest: seq<Event>)
    requires t < |w.sessions| && w.retained == Some(t) && Proceeds(req.byKey, first) && MayPay(first, t)
    requires phase <= PHASE_PAY
    ensures var (r, ok) := Drive(w, o, t, phase, req);
      r.log == w.log + rest && Continues(o, t, req, first, rest, r, ok)
  {
    var (asked, answered) := Pay(w, o, t);
    PayKeepsSessions(w, o, t);
    if answered {
      hide Continues;
      var more := AwaitContinues(asked, o, t, phase, req, first, [PaySent(t)]);
      rest := [PaySent(t)] + more;
      assert w.log + [PaySent(t)] + more == w.log + rest;
    } else {
      rest := [PaySent(t)];
      assert [PaySent(t)] + [] == rest;
      UnpaidContinues(o, t, req, first, rest, [], asked);
    }
  }

  /** The run saw its session funded, and sent an Exchange last that was answered if it was to exchange it. */
  predicate Funds(o: Oracle, t: Token, req: Request, own: seq<Event>, r: World)
    requires own != []
  {
    && (|| Observed(t, Paid) in own || Observed(t, Exchanging) in own
        || (req.byKey && |own| > 1 && own[1] == Observed(t, Exchanged)))
    && (!req.byKey && req.exchange ==>
          own[|own| - 1] == ExchangeSent(t) && r.now > 0 && o(r.now - 1).answer in {Delivered, Misread})
  }

  /** A run succeeds exactly when it saw its session paid, exchanging or, if it funds an account by key, exchanged
      at its start, and, if it is to exchange the session, sent an Exchange last that was answered. */
  lemma RunSucceedsExactly(w: World, o: Oracle, req: Request)
    requires WellFormed(w)
    ensures var (r, ok) := Run(w, o, req);
      && w.log < r.log
      && (ok <==> Funds(o, Subject(w), req, r.log[|w.log|..], r))
  {
    var first, rest := RunIsExact(w, o, req);
    var (r, ok) := Run(w, o, req);
    hide *;
    OwnIs(w.log, first, rest);
    if first != [] && Proceeds(req.byKey, first[0]) {
      SuccessOf(o, Subject(w), req, first[0], rest, r, ok);
      assert first == [first[0]];
    } else {
      FailureOf(w, o, req, first, r);
    }
  }

  lemma OwnIs(log: seq<Event>, first: seq<Event>, rest: seq<Event>)
    ensures var all := log + [Started] + first + rest;
      log < all && all[|log|..] == [Started] + first + rest
  {
  }

  lemma SuccessOf(o: Oracle, t: Token, req: Request, first: Event, rest: seq<Event>, r: World, ok: bool)
    requires Continues(o, t, req, first, rest, r, ok) && Proceeds(req.byKey, first)
    ensures ok <==> Funds(o, t, req, [Started] + [first] + rest, r)
  {
    StartedAside(Observed(t, Paid), [first], rest);
    StartedAside(Observed(t, Exchanging), [first], rest);
    LastIsExchange(t, first, rest);
  }

  lemma FailureOf(w: World, o: Oracle, req: Request, first: seq<Event>, r: World)
    requires Begins(w, o(w.now), first) && !(first != [] && Proceeds(req.byKey, first[0]))
    ensures !Funds(o, Subject(w), req, [Started] + first + [], r)
  {
    assert [Started] + first + [] == [Started] + first;
  }

  lemma StartedAside(e: Event, first: seq<Event>, rest: seq<Event>)
    requires e != Started
    ensures e in [Started] + first + rest <==> e in first + rest
  {
    assert [Started] + first + rest == [Started] + (first + rest);
  }

  lemma LastIsExchange(t: Token, first: Event, rest: seq<Event>)
    requires !first.ExchangeSent?
    requires ExchangeSent(t) in rest ==> rest[|rest| - 1] == ExchangeSent(t)
    ensures var own := [Started] + [first] + rest;
      own[|own| - 1] == ExchangeSent(t) <==> ExchangeSent(t) in rest
  {
  }

  /** The polls of a session that is to be paid for, when none of them sees it paid. */
  lemma AwaitLasts(w: World, o: Oracle, t: Token, phase: nat, req: Request)
    requires t < |w.sessions| && phase <= PHASE_POLL
    ensures var (r, ok) := AwaitPayment(w, o, t, phase, req);
      w.log <= r.log && (Funded(r.log[|w.log|..], t) || Waits(w.now, o, r, req.patience))
  {
    var (polled, paid) := PollPaid(w, o, t, req.patience);
    PollKeepsSessions(w, o, t, req.patience);
    var news := PollPaidPolls(w, o, t, req.patience);
    if paid.Some? {
      var next := if paid.value == Exchanging then PHASE_WAIT_EXCHANGE else phase;
      var more := ProvisionLogs(polled, o, t, next, req);
      var r := Provision(polled, o, t, next, req).0;
      assert AwaitPayment(w, o, t, phase, req).0 == r;
      SightIn(w, o, t, req.patience, polled, paid, news);
      hide *;
      SeenInTail(w.log, news, more, paid.value, t, r.log);
    } else {
      assert AwaitPayment(w, o, t, phase, req).0 == polled;
      hide AwaitPayment, PollPaid;
      UnpaidWaits(w, o, t, req.patience, polled, news);
    }
  }

  lemma SightIn(w: World, o: Oracle, t: Token, n: nat, r: World, paid: Option<Status>, news: seq<Event>)
    requires PollsForPayment(w, o, t, n, r, paid, news) && paid.Some?
    ensures Observed(t, paid.value) in news && paid.value in {Paid, Exchanging} && r.log == w.log + news
  {
  }

  lemma UnpaidWaits(w: World, o: Oracle, t: Token, n: nat, r: World, news: seq<Event>)
    requires PollsForPayment(w, o, t, n, r, None, news)
    ensures w.log <= r.log && Waits(w.now, o, r, n)
  {
    assert news != [] ==> r.log[|r.log| - 1] == news[|news| - 1];
  }

  lemma SeenInTail(log: seq<Event>, news: seq<Event>, more: seq<Event>, seen: Status, t: Token, all: seq<Event>)
    requires all == log + news + more && Observed(t, seen) in news && seen in {Paid, Exchanging}
    ensures log <= all && Funded(all[|log|..], t)
  {
    assert all[|log|..] == news + more;
  }

  lemma ProvisionLogs(w: World, o: Oracle, t: Token, phase: nat, req: Request) returns (more: seq<Event>)
    requires t < |w.sessions|
    ensures Provision(w, o, t, phase, req).0.log == w.log + more
  {
    more := [];
    if !req.byKey && req.exchange {
      if phase == PHASE_WAIT_EXCHANGE {
        more := SettledLogs(w, o, t, req.followed);
      } else {
        more := [ExchangeSent(t)];
      }
    }
  }

  lemma {:induction false} SettledLogs(w: World, o: Oracle, t: Token, n: nat) returns (more: seq<Event>)
    requires t < |w.sessions|
    ensures PollSettled(w, o, t, n).log == w.log + more
    decreases n
  {
    more := [];
    if n > 0 {
      var (seen, reply) := GetSession(w, o, t);
      LookIs(w, o, t);
      more := if reply.ClientRefused? then [Refused(t)] else if reply.Got? then [Observed(t, reply.status)] else [];
      if reply.Transient? || (reply.Got? && reply.status == Exchanging) {
        var rest := SettledLogs(seen, o, t, n - 1);
        more := more + rest;
      }
    }
  }

  /** All polls from a moment on were used up, or the last one was stopped or refused, or saw the session neither
      pending nor paid. */
  predicate Waits(start: nat, o: Oracle, r: World, patience: nat) {
    || r.now == start + patience
    || (start < r.now < start + patience
        && (|| o(r.now - 1).answer in {Stopped, ClientError}
            || (o(r.now - 1).answer == Delivered && r.log != [] && !Pending(r.log[|r.log| - 1]))))
  }

  /** From the moment behind its first sight on, a run gave up no earlier than it had to: its Pay, if it sends one, was
      not answered, or it polled as often as its patience allows, or its last poll decided otherwise. */
  predicate GivesUp(start: nat, o: Oracle, pays: bool, r: World, patience: nat) {
    if !pays then Waits(start, o, r, patience)
    else if o(start).answer in {Delivered, Misread} then Waits(start + 1, o, r, patience)
    else r.now == start + 1
  }

  lemma DriveLasts(w: World, o: Oracle, t: Token, phase: nat, req: Request)
    requires t < |w.sessions| && phase <= PHASE_POLL
    ensures var r := Drive(w, o, t, phase, req).0;
      w.log <= r.log && (Funded(r.log[|w.log|..], t) || GivesUp(w.now, o, phase <= PHASE_PAY, r, req.patience))
  {
    hide AwaitPayment, Funded;
    if phase <= PHASE_PAY {
      var (asked, answered) := Pay(w, o, t);
      PayKeepsSessions(w, o, t);
      if answered {
        AwaitLasts(asked, o, t, phase, req);
        TailHolds(w.log, [PaySent(t)], asked.log, Drive(w, o, t, phase, req).0.log, t);
      }
    } else {
      AwaitLasts(w, o, t, phase, req);
    }
  }

  lemma TailHolds(before: seq<Event>, own: seq<Event>, log: seq<Event>, all: seq<Event>, t: Token)
    requires log == before + own && log <= all
    ensures before <= all && (Funded(all[|log|..], t) ==> Funded(all[|before|..], t))
    ensures forall i | 0 <= i < |own| :: all[|before|..][i] == own[i]
  {
    assert all[|before|..] == own + all[|log|..];
  }

  /** What a run does behind its first sight. */
  lemma RunEnters(w: World, o: Oracle, req: Request) returns (first: seq<Event>, held: World, phase: Option<nat>)
    requires WellFormed(w)
    ensures |first| <= 1 && held.now == w.now + 1 && held.log == w.log + ([Started] + first)
    ensures phase.None? ==> Run(w, o, req).0 == held && (first == [] || !(first[0].Created? || Pending(first[0])))
    ensures phase.Some? ==> first != []
    ensures phase.Some? ==>
      && Subject(w) < |held.sessions| && Run(w, o, req).0 == Drive(held, o, Subject(w), phase.value, req).0
      && (phase.value <= PHASE_PAY <==> MayPay(first[0], Subject(w)))
      && (phase.value <= PHASE_POLL <==> first[0].Created? || Pending(first[0]))
  {
    var begun := Log(w, Started);
    first := ResolveBegins(begun, o, req.byKey);
    ResolveIsSound(begun, o, req.byKey);
    var (resolved, entry) := Resolve(begun, o, req.byKey);
    hide Resolve, Drive;
    held := if entry.Enter? then Report(resolved, Some(entry.token)) else resolved;
    phase := if entry.Enter? then Some(entry.phase) else None;
  }

  /** A run that has to be paid for and never sees it paid gave up no earlier than it had to. */
  lemma UnpaidRunWaits(w: World, o: Oracle, req: Request)
    requires WellFormed(w)
    ensures var r, t := Run(w, o, req).0, Subject(w);
      && |w.log| < |r.log|
      && var own := r.log[|w.log|..];
      |own| > 1 && (own[1].Created? || Pending(own[1])) && !Funded(own, t) ==>
        GivesUp(w.now + 1, o, MayPay(own[1], t), r, req.patience)
  {
    var first, held, phase := RunEnters(w, o, req);
    var r, t := Run(w, o, req).0, Subject(w);
    hide *;
    if phase.Some? {
      if phase.value <= PHASE_POLL {
        DriveLasts(held, o, t, phase.value, req);
      } else {
        DriveExtends(held, o, t, phase.value, req);
      }
    }
    TailHolds(w.log, [Started] + first, held.log, r.log, t);
    assert first != [] ==> ([Started] + first)[1] == first[0];
  }

  lemma DriveExtends(w: World, o: Oracle, t: Token, phase: nat, req: Request)
    requires t < |w.sessions| && phase > PHASE_POLL
    ensures w.log <= Drive(w, o, t, phase, req).0.log
  {
    var more := ProvisionLogs(w, o, t, phase, req);
  }
}
