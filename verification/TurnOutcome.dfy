/** What a tool batch leaves, said of the whole turn (internal/agent/loop.go): where it ends and why, and what every
    consumed result contributed. */
module TurnOutcome {
  import opened Text
  import opened Transcript
  import opened Guardrails
  import opened Posture
  import opened ParallelTools
  import opened TurnBatch

  /** A turn about to run: what was observed before it, and where it starts. */
  datatype Begin<!W> = Begin(
    policy: Option<Escalation>, execute: Tools<W>, cancelled: nat -> bool, calls: seq<ToolCall>,
    observed: seq<Observation>, history: seq<Message>, workspace: W, trips: Trips, loaded: set<string>)
  {
    function Start(): Turn<W> {
      Turn(history, workspace, FailuresAfter(observed), trips, loaded, "", None, [], Proceed)
    }

    /** What the turn leaves. */
    function End(): Turn<W> { Sequential(policy, execute, cancelled, Start(), calls, 0) }

    /** The workspace in which call n runs, one call after the other. */
    function Before(n: nat): W
      requires n <= |calls|
    {
      if n == 0 then workspace else execute(Before(n - 1), calls[n - 1]).workspace
    }

    function Execution(i: nat): Executed<ToolResult, W>
      requires i < |calls|
    {
      execute(Before(i), calls[i])
    }

    function Result(i: nat): ToolResult
      requires i < |calls|
    {
      Execution(i).result
    }

    /** Everything observed up to call n, that of earlier turns included. */
    function Seen(n: nat): seq<Observation>
      requires n <= |calls|
    {
      if n == 0 then observed
      else Seen(n - 1) + [Observation(calls[n - 1].name, Result(n - 1).retriableFailure, Result(n - 1).signature)]
    }

    /** How often the tool of call i has now failed the same way in a row. */
    function StreakAt(i: nat): nat
      requires i < |calls|
    {
      Streak(Own(Seen(i + 1), calls[i].name))
    }

    /** How call i ends the turn: an abort or the cancellation of the run first, then the stop a result asks for, then
        the sixth failure in a row. */
    function Ending(i: nat): Stop
      requires i < |calls|
    {
      if Execution(i).abort || cancelled(i) then Abort
      else if Result(i).stopReason != "" then StopRequested(Result(i).stopReason, Result(i).output)
      else if StreakAt(i) >= 6 then FailureStop(calls[i].name, StreakAt(i))
      else Proceed
    }

    function Results(n: nat): seq<Message>
      requires n <= |calls|
    {
      seq(n, i requires 0 <= i < n => ToolMessage(Result(i).output, Result(i).toolCallId))
    }

    /** The files the first n calls changed, those that succeeded. */
    function Changed(n: nat): seq<string>
      requires n <= |calls|
    {
      if n == 0 then [] else Changed(n - 1) + if Result(n - 1).ok then Result(n - 1).changedFiles else []
    }

    /** The escalation triggers after the first n calls were reported. */
    function Reported(n: nat): Trips
      requires n <= |calls|
    {
      if n == 0 then trips
      else Next(policy, Reported(n - 1), ToolRan(StreakAt(n - 1), Result(n - 1).executed, Result(n - 1).risk))
    }
  }

  /** What the first n results asked to load was loaded, and nothing else. */
  ghost predicate Loads<W(!new)>(b: Begin<W>, n: nat, loaded: set<string>)
    requires n <= |b.calls|
  {
    forall name :: name in loaded <==> name in b.loaded || exists i :: 0 <= i < n && name in b.Result(i).loadedTools
  }

  /** The model is the first one that any of the first n results asked for. */
  ghost predicate Requests<W(!new)>(b: Begin<W>, n: nat, model: string)
    requires n <= |b.calls|
  {
    || (model == "" && forall i | 0 <= i < n :: b.Result(i).requestedModel == "")
    || (model != "" && exists i :: 0 <= i < n && b.Result(i).requestedModel == model
                                   && forall j | 0 <= j < i :: b.Result(j).requestedModel == "")
  }

  /** The hint is about the tool of the first of n calls that failed the same way twice in a row. */
  ghost predicate Hints<W(!new)>(b: Begin<W>, n: nat, hint: Option<string>)
    requires n <= |b.calls|
  {
    || (hint == None && forall i | 0 <= i < n :: b.StreakAt(i) != 2)
    || (hint.Some? && exists i :: 0 <= i < n && b.StreakAt(i) == 2 && hint.value == b.calls[i].name
                                  && forall j | 0 <= j < i :: b.StreakAt(j) != 2)
  }

  /** The turn after n calls that did not end it. */
  ghost predicate Underway<W(!new)>(b: Begin<W>, n: nat, t: Turn<W>)
    requires n <= |b.calls|
  {
    && t.stop == Proceed && t.workspace == b.Before(n) && t.messages == b.history + b.Results(n)
    && t.failures == FailuresAfter(b.Seen(n)) && t.trips == b.Reported(n) && t.changed == b.Changed(n)
    && Loads(b, n, t.loaded) && Requests(b, n, t.requestedModel) && Hints(b, n, t.failureHint)
  }

  /** The turn that call n ended. */
  ghost predicate EndedAt<W(!new)>(b: Begin<W>, n: nat, t: Turn<W>)
    requires n < |b.calls|
  {
    && b.Ending(n) != Proceed && t.stop == b.Ending(n)
    && t.workspace == b.Before(n + 1)
    && t.messages == b.history + b.Results(n + 1) + TurnBatch.Aborted(b.calls[n + 1..])
    && t.changed == b.Changed(n) && Loads(b, n + 1, t.loaded) && Requests(b, n + 1, t.requestedModel)
    && Hints(b, n, t.failureHint)
    && (if b.Ending(n).FailureStop? then
          t.failures == FailuresAfter(b.Seen(n + 1)) && t.trips == b.Reported(n + 1)
        else
          t.failures == FailuresAfter(b.Seen(n)) && t.trips == b.Reported(n))
  }

  lemma ResultsSnoc<W(!new)>(b: Begin<W>, n: nat)
    requires n < |b.calls|
    ensures b.Results(n + 1) == b.Results(n) + [ToolMessage(b.Result(n).output, b.Result(n).toolCallId)]
  {
  }

  /** What call n makes of the turn so far. */
  function After<W>(b: Begin<W>, n: nat, t: Turn<W>): Turn<W>
    requires n < |b.calls|
  {
    Consume(b.policy, t, b.calls[n], b.execute(t.workspace, b.calls[n]), b.cancelled(n), b.calls[n + 1..])
  }

  lemma LoadsMore<W(!new)>(b: Begin<W>, n: nat, loaded: set<string>)
    requires n < |b.calls| && Loads(b, n, loaded)
    ensures Loads(b, n + 1, loaded + Members(b.Result(n).loadedTools))
  {
  }

  lemma RequestsMore<W(!new)>(b: Begin<W>, n: nat, model: string)
    requires n < |b.calls| && Requests(b, n, model)
    ensures Requests(b, n + 1, if model == "" then b.Result(n).requestedModel else model)
  {
  }

  lemma HintsMore<W(!new)>(b: Begin<W>, n: nat, hint: Option<string>)
    requires n < |b.calls| && Hints(b, n, hint)
    ensures Hints(b, n + 1, if hint == None && b.StreakAt(n) == 2 then Some(b.calls[n].name) else hint)
  {
  }

  lemma Watched<W(!new)>(b: Begin<W>, n: nat)
    requires n < |b.calls|
    ensures var o := Observation(b.calls[n].name, b.Result(n).retriableFailure, b.Result(n).signature);
      Observed(FailuresAfter(b.Seen(n)), o)
      == (FailuresAfter(b.Seen(n + 1)), ToolOutcome(b.StreakAt(n) == 2, b.StreakAt(n) >= 6, b.StreakAt(n)))
  {
    var o := Observation(b.calls[n].name, b.Result(n).retriableFailure, b.Result(n).signature);
    OutcomeIsStreak(b.Seen(n), o);
    assert b.Seen(n + 1) == b.Seen(n) + [o];
    assert (b.Seen(n) + [o])[..|b.Seen(n)|] == b.Seen(n);
  }

  lemma AfterAnswers<W(!new)>(b: Begin<W>, n: nat, t: Turn<W>)
    requires n < |b.calls| && t.stop == Proceed && t.workspace == b.Before(n) && t.failures == FailuresAfter(b.Seen(n))
    ensures var a, r := After(b, n, t), b.Result(n);
      && a.stop == b.Ending(n) && a.workspace == b.Before(n + 1)
      && a.messages == t.messages + [ToolMessage(r.output, r.toolCallId)]
           + (if a.stop == Proceed then [] else TurnBatch.Aborted(b.calls[n + 1..]))
      && a.loaded == t.loaded + Members(r.loadedTools)
      && a.requestedModel == (if t.requestedModel == "" then r.requestedModel else t.requestedModel)
      && a.changed == t.changed + (if a.stop == Proceed && r.ok then r.changedFiles else [])
  {
    Watched(b, n);
    hide Observed, FailuresAfter, TurnBatch.Aborted, Members, Next, Streak, Own, Sequential, Begin.Seen, Begin.StreakAt;
    assert b.execute(t.workspace, b.calls[n]) == b.Execution(n);
  }

  lemma ConsumeWatches<W>(policy: Option<Escalation>, t: Turn<W>, call: ToolCall, e: Executed<ToolResult, W>,
                          cancelled: bool, rest: seq<ToolCall>, failures: Failures, streak: nat)
    requires t.stop == Proceed
    requires Observed(t.failures, Observation(call.name, e.result.retriableFailure, e.result.signature))
          == (failures, ToolOutcome(streak == 2, streak >= 6, streak))
    ensures var a := Consume(policy, t, call, e, cancelled, rest);
      var watched := !e.abort && !cancelled && e.result.stopReason == "";
      && a.failureHint == (if watched && t.failureHint == None && streak == 2 then Some(call.name) else t.failureHint)
      && a.failures == (if watched then failures else t.failures)
      && a.trips
         == if watched then Next(policy, t.trips, ToolRan(streak, e.result.executed, e.result.risk)) else t.trips
  {
    hide Observed, TurnBatch.Aborted, Members, Next;
  }

  lemma AfterWatches<W(!new)>(b: Begin<W>, n: nat, t: Turn<W>)
    requires n < |b.calls| && t.stop == Proceed && t.workspace == b.Before(n) && t.failures == FailuresAfter(b.Seen(n))
    ensures var a, r := After(b, n, t), b.Result(n);
      var watched := b.Ending(n) == Proceed || b.Ending(n).FailureStop?;
      && a.failureHint == (if b.Ending(n) == Proceed && t.failureHint == None && b.StreakAt(n) == 2
                           then Some(b.calls[n].name) else t.failureHint)
      && a.failures == FailuresAfter(b.Seen(if watched then n + 1 else n))
      && a.trips == if watched then Next(b.policy, t.trips, ToolRan(b.StreakAt(n), r.executed, r.risk)) else t.trips
  {
    Watched(b, n);
    hide Consume, Observed, FailuresAfter, TurnBatch.Aborted, Members, Next, Begin.Seen, Begin.StreakAt;
    ConsumeWatches(b.policy, t, b.calls[n], b.Execution(n), b.cancelled(n), b.calls[n + 1..],
                   FailuresAfter(b.Seen(n + 1)), b.StreakAt(n));
  }

  lemma GoesOn<W(!new)>(b: Begin<W>, n: nat, t: Turn<W>, a: Turn<W>)
    requires n < |b.calls| && Underway(b, n, t) && a.stop == Proceed && a.workspace == b.Before(n + 1)
    requires a.messages == t.messages + [ToolMessage(b.Result(n).output, b.Result(n).toolCallId)]
    requires a.changed == t.changed + (if b.Result(n).ok then b.Result(n).changedFiles else [])
    requires a.failures == FailuresAfter(b.Seen(n + 1))
    requires a.trips == Next(b.policy, t.trips, ToolRan(b.StreakAt(n), b.Result(n).executed, b.Result(n).risk))
    requires Loads(b, n + 1, a.loaded) && Requests(b, n + 1, a.requestedModel) && Hints(b, n + 1, a.failureHint)
    ensures Underway(b, n + 1, a)
  {
    hide Loads, Requests, Hints, FailuresAfter, Next, Streak, Own;
    ResultsSnoc(b, n);
    assert b.history + b.Results(n + 1) == a.messages;
  }

  lemma EndsHere<W(!new)>(b: Begin<W>, n: nat, t: Turn<W>, a: Turn<W>)
    requires n < |b.calls| && Underway(b, n, t) && a.stop == b.Ending(n) != Proceed && a.workspace == b.Before(n + 1)
    requires a.messages == t.messages + [ToolMessage(b.Result(n).output, b.Result(n).toolCallId)]
      + TurnBatch.Aborted(b.calls[n + 1..])
    requires a.changed == t.changed && a.failureHint == t.failureHint
    requires a.failures == FailuresAfter(b.Seen(if a.stop.FailureStop? then n + 1 else n))
    requires a.trips == if a.stop.FailureStop?
                        then Next(b.policy, t.trips, ToolRan(b.StreakAt(n), b.Result(n).executed, b.Result(n).risk))
                        else t.trips
    requires Loads(b, n + 1, a.loaded) && Requests(b, n + 1, a.requestedModel)
    ensures EndedAt(b, n, a)
  {
    hide Loads, Requests, Hints, FailuresAfter, Next, Streak, Own, TurnBatch.Aborted, Begin.Ending;
    ResultsSnoc(b, n);
    assert b.history + b.Results(n + 1) == t.messages + [ToolMessage(b.Result(n).output, b.Result(n).toolCallId)];
  }

  lemma OneMore<W(!new)>(b: Begin<W>, n: nat, t: Turn<W>)
    requires n < |b.calls| && Underway(b, n, t)
    ensures if b.Ending(n) == Proceed then Underway(b, n + 1, After(b, n, t)) else EndedAt(b, n, After(b, n, t))
  {
    LoadsMore(b, n, t.loaded);
    RequestsMore(b, n, t.requestedModel);
    HintsMore(b, n, t.failureHint);
    AfterAnswers(b, n, t);
    AfterWatches(b, n, t);
    hide *;
    var a := After(b, n, t);
    if a.stop == Proceed {
      GoesOn(b, n, t, a);
    } else {
      EndsHere(b, n, t, a);
    }
  }

  lemma {:induction false} UnderwayTo<W(!new)>(b: Begin<W>, n: nat) returns (t: Turn<W>)
    requires n <= |b.calls| && forall i | 0 <= i < n :: b.Ending(i) == Proceed
    ensures Underway(b, n, t) && b.End() == Sequential(b.policy, b.execute, b.cancelled, t, b.calls, n)
  {
    if n == 0 {
      t := b.Start();
      assert b.Results(0) == [];
    } else {
      var before := UnderwayTo(b, n - 1);
      OneMore(b, n - 1, before);
      SequentialStep(b.policy, b.execute, b.cancelled, before, b.calls, n - 1);
      t := After(b, n - 1, before);
    }
  }

  lemma {:induction false} FirstEnding<W(!new)>(b: Begin<W>, m: nat) returns (n: nat)
    requires m <= |b.calls|
    ensures n <= m && (forall i | 0 <= i < n :: b.Ending(i) == Proceed) && (n < m ==> b.Ending(n) != Proceed)
  {
    n := 0;
    if m > 0 {
      n := FirstEnding(b, m - 1);
      if n == m - 1 && b.Ending(n) == Proceed {
        n := m;
      }
    }
  }

  /** A turn runs its calls up to the first one that ends it, and that call is n; or it runs them all. */
  lemma TurnIsExact<W(!new)>(b: Begin<W>) returns (n: nat)
    ensures n <= |b.calls| && forall i | 0 <= i < n :: b.Ending(i) == Proceed
    ensures if n < |b.calls| then EndedAt(b, n, b.End()) else Underway(b, n, b.End())
  {
    n := FirstEnding(b, |b.calls|);
    var t := UnderwayTo(b, n);
    if n < |b.calls| {
      OneMore(b, n, t);
      SequentialStep(b.policy, b.execute, b.cancelled, t, b.calls, n);
      SequentialEnd(b.policy, b.execute, b.cancelled, After(b, n, t), b.calls, n + 1);
    } else {
      SequentialEnd(b.policy, b.execute, b.cancelled, t, b.calls, n);
    }
  }
}
