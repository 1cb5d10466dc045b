/** The turn loop of the agent (internal/agent/loop.go, Run): one history grows over many
    turns of provider replies, tool batches, notices and compactions. */
module AgentLoop {
  import opened Text
  import opened Transcript
  import opened Tokens
  import opened Summarizer
  import opened Compaction
  import opened Compactor
  import opened Guardrails
  import opened Posture
  import opened Reconnect
  import opened ParallelTools
  import opened TurnBatch

  const DEFAULT_MAX_TURNS := 12
  const STALL_RETRIES := 1
  const CONNECTS := 5
  const DROPPED_CALL_NOTICE :=
    "Your previous tool call was malformed (it was missing a tool name) and was not executed."
  const EMPTY_TURN_NOTICE := "Your previous response had no visible output and no tool calls."
  const FINAL_ANSWER_PROMPT := "You have reached the tool-turn limit. Do not call tools."

  datatype Evaluation = Complete | Incomplete(reason: string) | ContinueNudge(text: string)
    | SemanticCheck(text: string)

  /** Everything a run gets from outside, by moment: provider, tools, summarizer, diagnostics,
      verification, model switcher, and the texts of its notices. */
  datatype Surroundings<!W> = Surroundings(
    world: World, registry: Registry, execute: Tools<W>, scheduler: Scheduler,
    summarize: nat -> Summarize, carry: Carry, toolTokens: nat -> nat,
    diagnostics: nat -> string, evaluate: nat -> Evaluation,
    selfCorrect: nat -> Option<(string, VerificationOutcome)>, switchNotice: nat -> string,
    reminder: nat -> string, hint: string -> string, safeArguments: string -> string)

  ghost predicate Lawful<W(!new)>(env: Surroundings<W>) {
    ReadsOnly(env.registry, env.execute) && AnswersOwnCall(env.execute) && Schedules(env.scheduler)
  }

  datatype RunStop =
    | Settled
    | Unfinished(reason: string)
    | NoOutput
    | Stalled(verdict: Convergence)
    | ToolStop(reason: string)
    | ToolFailures(tool: string, count: nat)
    | TurnLimit(answered: bool)
    | ProviderStop(error: ProviderError)
    | Cancelled

  datatype RunResult = RunResult(messages: seq<Message>, turns: nat, finalAnswer: string, stop: RunStop)

  /** How a finished run leaves its history: after an answer of the model that answer, without tool
      calls, is the last message; after a provider error the history is the last one that was sent. */
  ghost predicate EndsWell(r: RunResult, sent: seq<seq<Message>>) {
    && (r.stop.Settled? || r.stop.Unfinished? || r.stop.NoOutput? || r.stop == TurnLimit(true) ==>
        && r.messages != []
        && var last := r.messages[|r.messages| - 1];
        last.role == Assistant && last.toolCalls == [] && (!r.stop.NoOutput? ==> last.content == r.finalAnswer))
    && (r.stop.ProviderStop? ==> sent != [] && r.messages == sent[|sent| - 1])
  }

  datatype ReplyOutcome = Replied(stream: Collected) | Ended(stop: RunStop)

  /** The turn ceiling a run starts with. */
  function InitialCeiling(maxTurns: int, sddBudget: int, sddPhase: bool): (ceiling: nat)
    ensures ceiling >= 1
  {
    var base := if maxTurns <= 0 then DEFAULT_MAX_TURNS else maxTurns;
    if sddBudget > base && sddPhase then sddBudget else base
  }

  /** The most turns a run may take: its ceiling, or the one escalation target when that is higher. */
  function TurnBound(ceiling: nat, policy: Option<Escalation>): nat {
    if policy.Some? && policy.value.maxTurns > ceiling then policy.value.maxTurns else ceiling
  }

  /** Whether the run is cancelled, counted from a moment on. */
  function CancelledFrom(world: World, moment: nat): nat -> bool {
    (i: nat) => world.cancelled(moment + i)
  }

  function Notice(text: string): seq<Message> { if text == "" then [] else [UserMessage(text)] }

  /** What a posture decision leaves: triggers, turn ceiling, and whether the run needs a completion signal. */
  datatype Stance = Stance(trips: Trips, ceiling: nat, gated: bool)

  function DecidedOn(policy: Option<Escalation>, s: Stance): Stance {
    var fired := Fires(policy, s.trips);
    Stance(Next(policy, s.trips, Decide), if fired then TurnBound(s.ceiling, policy) else s.ceiling,
           s.gated || (fired && policy.value.restoreGate))
  }

  /** A decision that escalates raises the ceiling to that of the policy, never lowers it, and may gate the end of the
      run; any other decision leaves both. */
  lemma DecisionRaises(policy: Option<Escalation>, s: Stance)
    ensures var d := DecidedOn(policy, s);
      if Fires(policy, s.trips) then
        && policy.Some? && s.ceiling <= d.ceiling && policy.value.maxTurns <= d.ceiling
        && (d.ceiling == s.ceiling || d.ceiling == policy.value.maxTurns)
        && (d.gated <==> s.gated || policy.value.restoreGate)
      else d.ceiling == s.ceiling && d.gated == s.gated
  {
  }

  /** The triggers after a verification, if there was one. */
  function Corrected(policy: Option<Escalation>, trips: Trips,
                     verification: Option<(string, VerificationOutcome)>): Trips
  {
    if verification.None? then trips else Next(policy, trips, SelfCorrected(verification.value.1))
  }

  function SafeCalls(calls: seq<ToolCall>, safeArguments: string -> string): (safe: seq<ToolCall>)
    ensures |safe| == |calls|
    ensures forall i | 0 <= i < |calls| :: safe[i] == calls[i].(arguments := safeArguments(calls[i].arguments))
  {
    seq(|calls|, i requires 0 <= i < |calls| => calls[i].(arguments := safeArguments(calls[i].arguments)))
  }

  /** What the loop does with a reply that calls no tool. */
  datatype Disposition = Say(text: string) | Finish(stop: RunStop)

  /** The gate doubts that a visible reply is the end. */
  predicate Doubts(reply: Collected, emptyTurns: nat, gated: bool, evaluation: Evaluation) {
    && reply.droppedToolCalls == 0 && emptyTurns < 3 && TrimSpace(reply.text) != ""
    && gated && (evaluation.ContinueNudge? || evaluation.SemanticCheck?)
  }

  function Disposal(reply: Collected, emptyTurns: nat, gated: bool, evaluation: Evaluation,
                    nudge: string): Disposition
  {
    if reply.droppedToolCalls > 0 then Say(DROPPED_CALL_NOTICE)
    else if emptyTurns >= MAX_EMPTY_TURNS then Finish(NoOutput)
    else if TrimSpace(reply.text) == "" then Say(EMPTY_TURN_NOTICE)
    else if gated && evaluation.Incomplete? then Finish(Unfinished(evaluation.reason))
    else if gated && evaluation.ContinueNudge? then Say(evaluation.text)
    else if gated && evaluation.SemanticCheck? then Say(evaluation.text)
    else if nudge != "" then Say(nudge)
    else Finish(Settled)
  }

  /** When a reply without calls ends the run, and how; every other one is answered by one notice, by the first of
      these reasons that holds: a malformed call, nothing visible, a hint of the gate, fresh diagnostics. */
  lemma DisposalIsExact(reply: Collected, emptyTurns: nat, gated: bool, evaluation: Evaluation, nudge: string)
    ensures var d := Disposal(reply, emptyTurns, gated, evaluation, nudge);
      var visible := reply.droppedToolCalls == 0 && emptyTurns < 3 && TrimSpace(reply.text) != "";
      && (d == Finish(NoOutput) <==> reply.droppedToolCalls == 0 && emptyTurns >= 3)
      && (d == Finish(Settled) <==> visible && (gated ==> evaluation.Complete?) && nudge == "")
      && (forall reason :: d == Finish(Unfinished(reason)) <==> visible && gated && evaluation == Incomplete(reason))
      && (d.Say? ==>
            d.text == if reply.droppedToolCalls > 0 then DROPPED_CALL_NOTICE
                      else if !visible then EMPTY_TURN_NOTICE
                      else if gated && evaluation.ContinueNudge? then evaluation.text
                      else if gated && evaluation.SemanticCheck? then evaluation.text
                      else nudge)
      && (d.Finish? ==> d.stop in {Settled, NoOutput} || d.stop.Unfinished?)
      && (Doubts(reply, emptyTurns, gated, evaluation)
          <==> visible && gated && evaluation != Complete && !evaluation.Incomplete?)
  {
    hide TrimSpace;
  }

  lemma DisposalEnds(reply: Collected, emptyTurns: nat, gated: bool, evaluation: Evaluation, nudge: string)
    ensures var d := Disposal(reply, emptyTurns, gated, evaluation, nudge);
      d.Finish? ==> d.stop.Settled? || d.stop.Unfinished? || d.stop.NoOutput?
  {
    hide TrimSpace;
  }

  /** A stream that timed out before it forwarded or collected any text. */
  predicate StalledSilently(stream: Collected, forwarded: bool) {
    stream.error.Some? && stream.error.value.timeout && !forwarded && stream.text == ""
  }

  /* Getting one reply. */

  /** What a request depends on and changes. */
  datatype Talk = Talk(control: Control, messages: seq<Message>, now: nat, sent: seq<seq<Message>>)

  function Connecting<W>(env: Surroundings<W>, t: Talk): (Talk, Connection) {
    (t.(now := AfterConnect(env.world, t.now), sent := t.sent + [t.messages]), Connected(env.world, t.now))
  }

  function Recovering<W>(env: Surroundings<W>, t: Talk, error: ProviderError): (Talk, Reactive)
    requires t.control.ratio >= 0.0
  {
    var r := Reactively(t.control, t.messages, env.toolTokens(t.now), error, env.summarize(t.now), env.carry);
    (t.(control := r.control, messages := r.messages, now := t.now + 1), r)
  }

  /** A stream that ended with an error: an image rejection is final, a context limit is recovered and reissued. */
  function StreamRecovered<W>(env: Surroundings<W>, t: Talk, stream: Collected): (Talk, ReplyOutcome)
    requires t.control.ratio >= 0.0 && stream.error.Some?
  {
    var error := stream.error.value;
    if error.imageRejected then (t, Ended(ProviderStop(error)))
    else
      var (recovered, r) := Recovering(env, t, error);
      if !r.retried then (recovered, Replied(stream))
      else if r.failure.Some? then (recovered, Ended(ProviderStop(r.failure.value)))
      else
        var (again, reply) := Connecting(env, recovered);
        (again, match reply
                case Refused(e) => Ended(ProviderStop(e))
                case Opened(second) => Replied(second.(forwardedText := false)))
  }

  /** A stream that stalled before it showed anything is opened once more. */
  function Reissued<W>(env: Surroundings<W>, t: Talk, stream: Collected, forwarded: bool): (Talk, ReplyOutcome) {
    if !StalledSilently(stream, forwarded) then (t, Replied(stream))
    else if env.world.cancelled(t.now) then (t.(now := t.now + 1), Ended(RunStop.Cancelled))
    else
      var (again, reply) := Connecting(env, t.(now := t.now + 1));
      (again, match reply
              case Refused(e) => Ended(ProviderStop(e))
              case Opened(second) => Replied(second))
  }

  /** A stream that was recovered, if it had to be, and of a run that goes on: asked for once more when it stalled, its
      error recovered again or final. */
  function Awaiting<W>(env: Surroundings<W>, t: Talk, stream: Collected, forwarded: bool): (Talk, ReplyOutcome)
    requires t.control.ratio >= 0.0
  {
    if env.world.cancelled(t.now) then (t.(now := t.now + 1), Ended(RunStop.Cancelled))
    else
      var (second, reissued) := Reissued(env, t.(now := t.now + 1), stream, forwarded);
      if reissued.Ended? || reissued.stream.error.None? then (second, reissued)
      else
        var (third, last) := StreamRecovered(env, second, reissued.stream);
        (third, if last.Replied? && last.stream.error.Some? then Ended(ProviderStop(last.stream.error.value)) else last)
  }

  /** From an opened stream to the reply or the end of the run. */
  function Collecting<W>(env: Surroundings<W>, t: Talk, stream: Collected): (Talk, ReplyOutcome)
    requires t.control.ratio >= 0.0
  {
    if stream.error.None? then Awaiting(env, t, stream, stream.forwardedText)
    else
      var (first, outcome) := StreamRecovered(env, t, stream);
      if outcome.Ended? then (first, outcome)
      else
        RecoveringKeepsRatio(env, t, stream);
        Awaiting(env, first, outcome.stream, stream.forwardedText)
  }

  /** The stream of a request; a refused one is recovered from and asked once more, or ends the run. */
  function Opening<W>(env: Surroundings<W>, t: Talk): (Talk, ReplyOutcome)
    requires t.control.ratio >= 0.0
  {
    var (asked, reply) := Connecting(env, t);
    match reply
    case Opened(stream) => (asked, Replied(stream))
    case Refused(error) =>
      if error.imageRejected then (asked, Ended(ProviderStop(error)))
      else
        var (recovered, r) := Recovering(env, asked, error);
        if !r.retried then (recovered, Ended(ProviderStop(error)))
        else if r.failure.Some? then (recovered, Ended(ProviderStop(r.failure.value)))
        else
          var (again, second) := Connecting(env, recovered);
          (again, if second.Refused? then Ended(ProviderStop(second.error)) else Replied(second.stream))
  }

  lemma OpeningKeepsRatio<W>(env: Surroundings<W>, t: Talk)
    requires t.control.ratio >= 0.0
    ensures Opening(env, t).0.control.ratio == t.control.ratio
  {
    hide Reactively, Connected, AfterConnect;
    var (asked, reply) := Connecting(env, t);
    if reply.Refused? {
      RatioStays(asked.control, asked.messages, env.toolTokens(asked.now), reply.error, env.summarize(asked.now),
                 env.carry);
    }
  }

  /** From the current history to the reply or the end of the run. */
  function Replying<W>(env: Surroundings<W>, t: Talk): (Talk, ReplyOutcome)
    requires t.control.ratio >= 0.0
  {
    var (asked, outcome) := Opening(env, t);
    if outcome.Ended? then (asked, outcome)
    else
      OpeningKeepsRatio(env, t);
      Collecting(env, asked, outcome.stream)
  }

  /** One turn up to its reply: deliver diagnostics, compact, ask. */
  function Turning<W>(env: Surroundings<W>, t: Talk): (Talk, ReplyOutcome)
    requires t.control.ratio >= 0.0
  {
    var told, moment := t.messages + Notice(env.diagnostics(t.now)), t.now + 1;
    var p := Proactively(t.control, told, env.toolTokens(moment), env.summarize(moment), env.carry);
    ProactiveKeepsRatio(t.control, told, env.toolTokens(moment), env.summarize(moment), env.carry);
    Replying(env, Talk(p.control, p.messages, moment + 1, t.sent))
  }

  lemma ProactiveKeepsRatio(c: Control, ms: seq<Message>, toolTokens: nat, summarize: Summarize, carry: Carry)
    requires c.ratio >= 0.0
    ensures Proactively(c, ms, toolTokens, summarize, carry).control.ratio == c.ratio
  {
    hide Compaction.Compact, Estimate, Size;
  }

  lemma RatioStays(c: Control, ms: seq<Message>, toolTokens: nat, error: ProviderError, summarize: Summarize,
                   carry: Carry)
    requires c.ratio >= 0.0
    ensures Reactively(c, ms, toolTokens, error, summarize, carry).control.ratio == c.ratio
  {
    hide Compaction.Compact;
  }

  lemma RecoveringKeepsRatio<W>(env: Surroundings<W>, t: Talk, stream: Collected)
    requires t.control.ratio >= 0.0
    ensures stream.error.Some? ==> StreamRecovered(env, t, stream).0.control.ratio == t.control.ratio
  {
    hide Reactively;
    if stream.error.Some? {
      RatioStays(t.control, t.messages, env.toolTokens(t.now), stream.error.value, env.summarize(t.now), env.carry);
    }
  }

  /** A first reply that ends cleanly is the reply: one request, with the history as it is. If the run was cancelled
      meanwhile it ends instead. */
  lemma CleanReply<W>(env: Surroundings<W>, t: Talk)
    requires t.control.ratio >= 0.0
    requires Connected(env.world, t.now).Opened? && Connected(env.world, t.now).stream.error.None?
    ensures var (after, outcome) := Replying(env, t);
      && after.control == t.control && after.messages == t.messages && after.sent == t.sent + [t.messages]
      && outcome == if env.world.cancelled(AfterConnect(env.world, t.now)) then Ended(RunStop.Cancelled)
                    else Replied(Connected(env.world, t.now).stream)
  {
    hide Connected, AfterConnect;
  }

  /** An image rejection, before a stream opens or in it, ends the run with that error after one request. */
  lemma ImageRejectionEnds<W>(env: Surroundings<W>, t: Talk, error: ProviderError)
    requires t.control.ratio >= 0.0 && error.imageRejected
    requires match Connected(env.world, t.now)
      case Refused(e) => e == error
      case Opened(stream) => stream.error == Some(error)
    ensures var (after, outcome) := Replying(env, t);
      && outcome == Ended(ProviderStop(error)) && after.messages == t.messages && after.sent == t.sent + [t.messages]
  {
    hide Connected, AfterConnect;
  }

  /** Any other error of the first connect ends the run with it, unless the controller recovers: then the second
      request carries the compacted history. */
  lemma RefusalRecovers<W>(env: Surroundings<W>, t: Talk)
    requires t.control.ratio >= 0.0 && Connected(env.world, t.now).Refused?
    requires !Connected(env.world, t.now).error.imageRejected
    ensures var error, later := Connected(env.world, t.now).error, AfterConnect(env.world, t.now);
      var r := Reactively(t.control, t.messages, env.toolTokens(later), error, env.summarize(later), env.carry);
      var (after, outcome) := Replying(env, t);
      if !r.retried then outcome == Ended(ProviderStop(error)) && after.sent == t.sent + [t.messages]
      else if r.failure.Some? then
        outcome == Ended(ProviderStop(r.failure.value)) && after.sent == t.sent + [t.messages]
      else |after.sent| > |t.sent| + 1 && after.sent[..|t.sent| + 2] == t.sent + [t.messages] + [r.messages]
  {
    hide Connected, AfterConnect, Reactively, Collecting;
    var error, later := Connected(env.world, t.now).error, AfterConnect(env.world, t.now);
    var (asked, _) := Connecting(env, t);
    var (recovered, r) := Recovering(env, asked, error);
    if r.retried && r.failure.None? {
      RatioStays(t.control, t.messages, env.toolTokens(later), error, env.summarize(later), env.carry);
      var (again, second) := Connecting(env, recovered);
      if second.Opened? {
        CollectingOnlySends(env, again, second.stream);
      }
    }
  }

  lemma CollectingOnlySends<W>(env: Surroundings<W>, t: Talk, stream: Collected)
    requires t.control.ratio >= 0.0
    ensures t.sent <= Collecting(env, t, stream).0.sent
  {
    hide Connected, AfterConnect, Reactively;
    RecoveringKeepsRatio(env, t, stream);
  }

  /** A stream that stalled before it showed anything is asked for once more, with the same history; its error is
      final when it stalls again. */
  lemma SilentStallIsReissued<W>(env: Surroundings<W>, t: Talk)
    requires t.control.ratio >= 0.0 && Connected(env.world, t.now).Opened?
    requires var stream := Connected(env.world, t.now).stream;
      && stream.error.Some? && stream.error.value.timeout && !stream.forwardedText && stream.text == ""
      && !stream.error.value.contextLimit && !stream.error.value.imageRejected
    requires var later := AfterConnect(env.world, t.now);
      !env.world.cancelled(later + 1) && !env.world.cancelled(later + 2)
    ensures var second := Connected(env.world, AfterConnect(env.world, t.now) + 3);
      var (after, outcome) := Replying(env, t);
      var twice := t.sent + [t.messages] + [t.messages];
      match second
      case Refused(e) => outcome == Ended(ProviderStop(e)) && after.sent == twice
      case Opened(stream) =>
        if stream.error.None? then outcome == Replied(stream) && after.sent == twice
        else if stream.error.value.contextLimit then twice <= after.sent
        else outcome == Ended(ProviderStop(stream.error.value)) && after.sent == twice
  {
    hide Connected, AfterConnect, Reactively;
    var (asked, first) := Connecting(env, t);
    NothingToRecover(env, asked, first.stream);
    var again := asked.(now := asked.now + 3);
    assert Reissued(env, asked.(now := asked.now + 2), first.stream, first.stream.forwardedText)
        == (again.(now := AfterConnect(env.world, again.now), sent := again.sent + [again.messages]),
            match Connected(env.world, again.now)
            case Refused(e) => Ended(ProviderStop(e))
            case Opened(stream) => Replied(stream));
    var second := Connected(env.world, again.now);
    if second.Opened? && second.stream.error.Some? {
      if second.stream.error.value.contextLimit {
        StreamOnlySends(env, Connecting(env, again).0, second.stream);
      } else {
        NothingToRecover(env, Connecting(env, again).0, second.stream);
      }
    }
  }

  /** Any other error inside a stream, if it is neither a context limit nor an image rejection, ends the run after one
      request: one that is no timeout, or that came after some text had been forwarded or collected. */
  lemma ShownErrorIsFinal<W>(env: Surroundings<W>, t: Talk)
    requires t.control.ratio >= 0.0 && Connected(env.world, t.now).Opened?
    requires var stream := Connected(env.world, t.now).stream;
      && stream.error.Some? && (!stream.error.value.timeout || stream.forwardedText || stream.text != "")
      && !stream.error.value.contextLimit && !stream.error.value.imageRejected
    requires !env.world.cancelled(AfterConnect(env.world, t.now) + 1)
    ensures var (after, outcome) := Replying(env, t);
      && after.sent == t.sent + [t.messages] && after.messages == t.messages && after.control == t.control
      && outcome == Ended(ProviderStop(Connected(env.world, t.now).stream.error.value))
  {
    hide Connected, AfterConnect, Reactively;
    var (asked, first) := Connecting(env, t);
    NothingToRecover(env, asked, first.stream);
    NothingToRecover(env, asked.(now := asked.now + 2), first.stream);
  }

  lemma StreamOnlySends<W>(env: Surroundings<W>, t: Talk, stream: Collected)
    requires t.control.ratio >= 0.0 && stream.error.Some?
    ensures t.sent <= StreamRecovered(env, t, stream).0.sent
  {
    hide Connected, AfterConnect, Reactively;
  }

  lemma NothingToRecover<W>(env: Surroundings<W>, t: Talk, stream: Collected)
    requires t.control.ratio >= 0.0 && stream.error.Some? && !stream.error.value.contextLimit
    ensures StreamRecovered(env, t, stream)
      == if stream.error.value.imageRejected then (t, Ended(ProviderStop(stream.error.value)))
         else (t.(now := t.now + 1), Replied(stream))
  {
  }

  function DroppedNotice(dropped: nat): seq<Message> {
    if dropped > 0 then [UserMessage(DROPPED_CALL_NOTICE)] else []
  }

  /** A history after a tool batch that ran to its end, with the notices of the turn. */
  function Noticed(ms: seq<Message>, feedback: string, switchNotice: string, dropped: nat,
                   reminder: string): (out: seq<Message>)
    ensures ms <= out
  {
    ms + Notice(feedback) + Notice(switchNotice) + DroppedNotice(dropped) + Notice(reminder)
  }

  /** The notices behind a batch, in their order: the feedback of the verification, the model switch, the dropped
      calls, and the hint or the reminder; what is empty is left out. */
  lemma NoticesInOrder(ms: seq<Message>, feedback: string, switchNotice: string, dropped: nat, reminder: string)
    requires feedback != "" && switchNotice != "" && dropped > 0 && reminder != ""
    ensures Noticed(ms, feedback, switchNotice, dropped, reminder)
      == ms + [UserMessage(feedback), UserMessage(switchNotice)]
            + [UserMessage(DROPPED_CALL_NOTICE), UserMessage(reminder)]
    ensures Noticed(ms, feedback, "", 0, "") == ms + [UserMessage(feedback)]
    ensures Noticed(ms, "", switchNotice, 0, "") == ms + [UserMessage(switchNotice)]
    ensures Noticed(ms, "", "", dropped, "") == ms + [UserMessage(DROPPED_CALL_NOTICE)]
    ensures Noticed(ms, "", "", 0, reminder) == ms + [UserMessage(reminder)]
  {
  }

  method HistorySafeToolCalls(calls: seq<ToolCall>, safeArguments: string -> string) returns (safe: seq<ToolCall>)
    ensures safe == SafeCalls(calls, safeArguments)
  {
    safe := calls;
    for i := 0 to |calls|
      invariant |safe| == |calls|
      invariant forall j | 0 <= j < i :: safe[j] == calls[j].(arguments := safeArguments(calls[j].arguments))
      invariant forall j | i <= j < |calls| :: safe[j] == calls[j]
    {
      safe := safe[i := safe[i].(arguments := safeArguments(safe[i].arguments))];
    }
  }

  class AgentRun<W(!new)> {
    const env: Surroundings<W>
    const compactor: CompactionState
    const guards: GuardState
    const posture: ProfileController
    const system: string
    var messages: seq<Message>
    var workspace: W
    var loaded: set<string>
    var maxTurns: nat
    var requireSignal: bool
    var now: nat
    /** Stream requests sent for turns, every connect counted; the summarizer's are not among them. */
    var requests: nat
    /** The histories those requests carried. */
    ghost var sent: seq<seq<Message>>

    /** The history opens with the system message of the run. */
    ghost predicate Opens(history: seq<Message>) { history != [] && history[0] == SystemMessage(system) }

    /** The invariant apart from the history under construction. */
    ghost predicate Sound() reads this`sent, compactor {
      && Lawful(env) && compactor.Valid()
      && forall i | 0 <= i < |sent| :: Transcript.Valid(sent[i]) && Opens(sent[i])
    }

    /** The invariant of a run: its history and every history it sent can be replayed and open with the system
        message. */
    ghost predicate Ok() reads this`messages, this`sent, compactor {
      Sound() && Transcript.Valid(messages) && Opens(messages)
    }

    ghost function Standing(): Stance reads this, posture { Stance(posture.Value(), maxTurns, requireSignal) }

    ghost function Talking(): Talk reads this, compactor { Talk(compactor.Value(), messages, now, sent) }

    /** The requests, less the one reissue that reactive compaction pays for. */
    ghost function Spent(): int reads this, compactor {
      requests - if compactor.reactiveAttempted then CONNECTS else 0
    }

    constructor (surroundings: Surroundings<W>, system: string, prompt: string, images: nat, start: W,
                 requested: int, sddBudget: int, sddPhase: bool, gated: bool, contextWindow: int,
                 preserveLast: int, profile: Option<Escalation>)
      requires Lawful(surroundings)
      ensures Ok() && fresh(compactor) && fresh(guards) && fresh(posture)
      ensures env == surroundings && posture.policy == profile && this.system == system
      ensures messages == [SystemMessage(system), UserMessage(prompt).(images := images)]
      ensures requested > 0 && (!sddPhase || sddBudget <= requested) ==> maxTurns == requested
      ensures requested <= 0 && (!sddPhase || sddBudget <= 12) ==> maxTurns == 12
      ensures sddPhase && sddBudget > requested && (requested <= 0 ==> sddBudget > 12) ==> maxTurns == sddBudget
      ensures workspace == start && loaded == {} && requireSignal == gated && requests == 0 && sent == []
      ensures compactor.enabled == (contextWindow > 0) && !compactor.reactiveAttempted
    {
      env := surroundings;
      compactor := new CompactionState(contextWindow, preserveLast);
      guards := new GuardState();
      posture := new ProfileController(profile);
      this.system := system;
      messages := [SystemMessage(system), UserMessage(prompt).(images := images)];
      workspace, loaded, requireSignal := start, {}, gated;
      maxTurns := InitialCeiling(requested, sddBudget, sddPhase);
      now, requests, sent := 0, 0, [];
      new;
      SeedIsValid(messages);
    }

    /** One request for a history, through the reconnect helper. */
    method Send(history: seq<Message>) returns (reply: Connection)
      requires Sound() && Transcript.Valid(history) && Opens(history)
      modifies this`now, this`requests, this`sent
      ensures Sound() && reply == Connected(env.world, old(now)) && now == AfterConnect(env.world, old(now))
      ensures old(requests) < requests <= old(requests) + CONNECTS
      ensures sent == old(sent) + [history]
    {
      var n;
      reply, n, now := StreamWithReconnect(env.world, now);
      requests := requests + n;
      sent := sent + [history];
    }

    /** Reactive compaction, and the history it leaves. */
    method Recover(error: ProviderError) returns (retried: bool, failure: Option<ProviderError>)
      requires Ok()
      modifies this`messages, this`now, compactor
      ensures Ok() && compactor.enabled == old(compactor.enabled)
      ensures (Talking(), Reactive(messages, compactor.Value(), retried, failure))
        == Recovering(env, old(Talking()), error)
      ensures retried ==> !old(compactor.reactiveAttempted) && compactor.reactiveAttempted && error.contextLimit
      ensures !retried ==> messages == old(messages) && compactor.reactiveAttempted == old(compactor.reactiveAttempted)
      ensures retried && failure.None? ==> Estimate(messages) < Estimate(old(messages))
      ensures failure.Some? ==> retried && messages == old(messages)
      ensures !compactor.enabled ==> !retried
    {
      hide Reactively, Transcript.Valid;
      ghost var c := compactor.Value();
      ghost var summarize := env.summarize(now);
      var tokens := env.toolTokens(now);
      var out;
      out, retried, failure := compactor.Recover(messages, tokens, error, env.summarize(now), env.carry);
      ControllerKeepsValid(c, messages, tokens, error, summarize, env.carry);
      RecoversOnce(c, messages, tokens, error, summarize, env.carry);
      SettingsStay(c, messages, tokens, error, summarize, env.carry);
      FailureKeepsHistory(c, messages, tokens, error, summarize, env.carry);
      ControllerKeepsHead(c, messages, tokens, error, summarize, env.carry);
      messages := out;
      now := now + 1;
    }

    /** The recovery of an error inside a stream: an image rejection ends the run, a context limit
        gets one compaction and one reissued request. */
    method RecoverStreamError(collected: Collected) returns (outcome: ReplyOutcome)
      requires Ok() && collected.error.Some?
      requires sent != [] && sent[|sent| - 1] == messages
      modifies this`messages, this`now, this`requests, this`sent, compactor
      ensures Ok() && compactor.enabled == old(compactor.enabled)
      ensures Spent() <= old(Spent()) && sent != [] && sent[|sent| - 1] == messages && old(sent) <= sent
      ensures old(compactor.reactiveAttempted) ==> compactor.reactiveAttempted
      ensures !compactor.enabled ==> messages == old(messages) && sent == old(sent)
      ensures outcome.Ended? ==> outcome.stop.ProviderStop?
      ensures (Talking(), outcome) == StreamRecovered(env, old(Talking()), collected)
    {
      hide Reactively, Connected, AfterConnect;
      var error := collected.error.value;
      if error.imageRejected {
        return Ended(ProviderStop(error));
      }
      var retried, failure := Recover(error);
      if retried {
        if failure.Some? {
          return Ended(ProviderStop(failure.value));
        }
        var reply := Send(messages);
        if reply.Refused? {
          return Ended(ProviderStop(reply.error));
        }
        return Replied(reply.stream.(forwardedText := false));
      }
      return Replied(collected);
    }

    method Cancelled() returns (yes: bool)
      modifies this`now
      ensures yes == env.world.cancelled(old(now)) && now == old(now) + 1
    {
      yes := env.world.cancelled(now);
      now := now + 1;
    }

    /** The reply to the current history: connect, recover from a context limit at most once a run,
        re-issue a stalled stream at most once a turn. Nothing is appended, whatever happens. */
    method NextReply() returns (outcome: ReplyOutcome)
      requires Ok()
      modifies this`messages, this`now, this`requests, this`sent, compactor
      ensures Ok() && compactor.enabled == old(compactor.enabled)
      ensures Spent() <= old(Spent()) + 2 * CONNECTS
      ensures old(compactor.reactiveAttempted) ==> compactor.reactiveAttempted
      ensures old(sent) < sent && sent[|sent| - 1] == messages
      ensures !compactor.enabled ==> messages == old(messages) && OnlySent(old(sent), sent, messages)
      ensures outcome.Replied? ==> outcome.stream.error.None?
      ensures (Talking(), outcome) == Replying(env, old(Talking()))
      ensures outcome.Ended? ==> outcome.stop.ProviderStop? || outcome.stop == RunStop.Cancelled
    {
      hide Transcript.Valid, Sound, Opens, Opening, Collecting, OnlySent;
      outcome := Open();
      ghost var asked := sent;
      if outcome.Replied? {
        outcome := Collect(outcome.stream);
      } else {
        SentNothing(sent, messages);
      }
      if !compactor.enabled {
        SentOn(old(sent), asked, sent, messages);
      }
    }

    /** The first request of a turn, asked once more after a recovery. */
    method Open() returns (outcome: ReplyOutcome)
      requires Ok()
      modifies this`messages, this`now, this`requests, this`sent, compactor
      ensures Ok() && compactor.enabled == old(compactor.enabled)
      ensures Spent() <= old(Spent()) + CONNECTS
      ensures old(compactor.reactiveAttempted) ==> compactor.reactiveAttempted
      ensures old(sent) < sent && sent[|sent| - 1] == messages
      ensures !compactor.enabled ==> messages == old(messages) && OnlySent(old(sent), sent, messages)
      ensures (Talking(), outcome) == Opening(env, old(Talking()))
      ensures outcome.Ended? ==> outcome.stop.ProviderStop?
    {
      hide Transcript.Valid, Sound, Reactively, Connected, AfterConnect, OnlySent;
      SentOnce(sent, messages);
      var reply := Send(messages);
      if reply.Opened? {
        return Replied(reply.stream);
      }
      if reply.error.imageRejected {
        return Ended(ProviderStop(reply.error));
      }
      var retried, failure := Recover(reply.error);
      if !retried {
        return Ended(ProviderStop(reply.error));
      }
      if failure.Some? {
        return Ended(ProviderStop(failure.value));
      }
      reply := Send(messages);
      outcome := if reply.Refused? then Ended(ProviderStop(reply.error)) else Replied(reply.stream);
    }

    /** The same from an opened stream on. */
    method Collect(stream: Collected) returns (outcome: ReplyOutcome)
      requires Ok() && sent != [] && sent[|sent| - 1] == messages
      modifies this`messages, this`now, this`requests, this`sent, compactor
      ensures Ok() && compactor.enabled == old(compactor.enabled)
      ensures Spent() <= old(Spent()) + CONNECTS
      ensures old(compactor.reactiveAttempted) ==> compactor.reactiveAttempted
      ensures old(sent) <= sent && sent[|sent| - 1] == messages
      ensures !compactor.enabled ==> messages == old(messages) && OnlySent(old(sent), sent, messages)
      ensures outcome.Replied? ==> outcome.stream.error.None?
      ensures (Talking(), outcome) == Collecting(env, old(Talking()), stream)
      ensures outcome.Ended? ==> outcome.stop.ProviderStop? || outcome.stop == RunStop.Cancelled
    {
      hide Transcript.Valid, Sound, OnlySent, Opens, StreamRecovered, Awaiting;
      SentNothing(sent, messages);
      var collected := stream;
      if collected.error.Some? {
        outcome := RecoverStreamError(collected);
        if outcome.Ended? {
          return;
        }
        collected := outcome.stream;
      }
      outcome := Await(collected, stream.forwardedText);
    }

    method Await(stream: Collected, forwardedText: bool) returns (outcome: ReplyOutcome)
      requires Ok() && sent != [] && sent[|sent| - 1] == messages
      modifies this`messages, this`now, this`requests, this`sent, compactor
      ensures Ok() && compactor.enabled == old(compactor.enabled)
      ensures Spent() <= old(Spent()) + CONNECTS
      ensures old(compactor.reactiveAttempted) ==> compactor.reactiveAttempted
      ensures old(sent) <= sent && sent[|sent| - 1] == messages
      ensures !compactor.enabled ==> messages == old(messages) && OnlySent(old(sent), sent, messages)
      ensures outcome.Replied? ==> outcome.stream.error.None?
      ensures (Talking(), outcome) == Awaiting(env, old(Talking()), stream, forwardedText)
      ensures outcome.Ended? ==> outcome.stop.ProviderStop? || outcome.stop == RunStop.Cancelled
    {
      hide Transcript.Valid, Sound, OnlySent, Opens, StreamRecovered, Reissued;
      SentNothing(sent, messages);
      var cancelled := Cancelled();
      if cancelled {
        return Ended(RunStop.Cancelled);
      }
      outcome := RetryStalled(stream, forwardedText);
      if outcome.Replied? && outcome.stream.error.Some? {
        outcome := RecoverStreamError(outcome.stream);
        if outcome.Replied? && outcome.stream.error.Some? {
          return Ended(ProviderStop(outcome.stream.error.value));
        }
      }
    }

    /** A stream that timed out before it showed anything is opened once more. */
    method RetryStalled(stream: Collected, forwardedText: bool) returns (outcome: ReplyOutcome)
      requires Ok() && sent != [] && sent[|sent| - 1] == messages
      modifies this`now, this`requests, this`sent
      ensures Ok()
      ensures requests <= old(requests) + CONNECTS
      ensures old(sent) <= sent && sent[|sent| - 1] == messages && OnlySent(old(sent), sent, messages)
      ensures (Talking(), outcome) == Reissued(env, old(Talking()), stream, forwardedText)
      ensures outcome.Ended? ==> outcome.stop.ProviderStop? || outcome.stop == RunStop.Cancelled
    {
      hide Transcript.Valid, Sound, OnlySent, Opens, Connected, AfterConnect;
      SentNothing(sent, messages);
      var collected := stream;
      var forwarded := forwardedText;
      var attempt := 1;
      while attempt <= STALL_RETRIES && collected.error.Some? && collected.error.value.timeout
            && !forwarded && collected.text == ""
        invariant Ok() && 1 <= attempt <= STALL_RETRIES + 1
        invariant requests <= old(requests) + (attempt - 1) * CONNECTS
        invariant old(sent) <= sent && sent[|sent| - 1] == messages && OnlySent(old(sent), sent, messages)
        invariant attempt == 1
          ==> collected == stream && forwarded == forwardedText && sent == old(sent) && now == old(now)
        invariant attempt > 1 ==>
            (Talking(), ReplyOutcome.Replied(collected)) == Reissued(env, old(Talking()), stream, forwardedText)
      {
        var cancelled := Cancelled();
        if cancelled {
          return Ended(RunStop.Cancelled);
        }
        SentMore(old(sent), sent, messages);
        var reply := Send(messages);
        if reply.Refused? {
          return Ended(ProviderStop(reply.error));
        }
        collected := reply.stream;
        forwarded := forwarded || collected.forwardedText;
        attempt := attempt + 1;
      }
      return Replied(collected);
    }

    method ApplyPosture()
      modifies this`maxTurns, this`requireSignal, posture
      ensures Standing() == DecidedOn(posture.policy, old(Standing()))
      ensures maxTurns == old(maxTurns) || maxTurns == TurnBound(old(maxTurns), posture.policy)
    {
      var fired := posture.MaybeEscalate();
      if fired {
        if posture.policy.value.maxTurns > maxTurns {
          maxTurns := posture.policy.value.maxTurns;
        }
        if posture.policy.value.restoreGate {
          requireSignal := true;
        }
      }
    }

    /** The gate doubts that the run is done: the uncertainty is reported and the model told. */
    method Doubt(text: string)
      requires Ok()
      modifies this`messages, this`maxTurns, this`requireSignal, posture
      ensures Ok() && messages == old(messages) + [UserMessage(text)]
      ensures Standing() == DecidedOn(posture.policy, old(Standing()).(trips := old(Heard())))
      ensures maxTurns == old(maxTurns) || maxTurns == TurnBound(old(maxTurns), posture.policy)
    {
      hide Next;
      posture.ObserveUncertain();
      ApplyPosture();
      AppendNotice(text);
    }

    /** The triggers with one more uncertain reply. */
    ghost function Heard(): Trips reads posture { Next(posture.policy, posture.Value(), Signal.Uncertain) }

    /** The end of a run, if a reply without tool calls is one. */
    ghost function Conclusion(reply: Collected, moment: nat, emptyTurns: nat, gated: bool, history: seq<Message>,
                              turns: nat): Option<RunResult>
    {
      var empties := if TrimSpace(reply.text) != "" || reply.hasReasoning then 0 else emptyTurns + 1;
      if reply.toolCalls != [] then None
      else match Disposal(reply, empties, gated, env.evaluate(moment), env.diagnostics(moment + 1))
        case Say(_) => None
        case Finish(stop) => Some(RunResult(history, turns, if stop == NoOutput then "" else reply.text, stop))
    }

    /** How a reply without tool calls leaves the run, in terms of the empty turns so far. */
    ghost predicate Concluded(reply: Collected, moment: nat, emptyTurns: nat, before: Stance, history: seq<Message>,
                              turns: nat, done: Option<RunResult>)
      reads this, guards, posture
    {
      var evaluation := env.evaluate(moment);
      var empties := if TrimSpace(reply.text) != "" || reply.hasReasoning then 0 else emptyTurns + 1;
      var heard := before.(trips := Next(posture.policy, before.trips, Signal.Uncertain));
      && guards.emptyTurns == (if reply.droppedToolCalls > 0 then emptyTurns else empties)
      && Standing() == (if Doubts(reply, guards.emptyTurns, before.gated, evaluation)
                        then DecidedOn(posture.policy, heard) else before)
      && done == Conclusion(reply, moment, emptyTurns, before.gated, history, turns)
      && messages == history + match Disposal(reply, empties, before.gated, evaluation, env.diagnostics(moment + 1))
                               case Say(text) => [UserMessage(text)]
                               case Finish(_) => []
    }

    /** A reply without tool calls, already appended: it is answered by one notice and the run goes
        on, or it ends the run. */
    method FinishOrContinue(reply: Collected, turns: nat) returns (done: Option<RunResult>)
      requires Ok() && reply.toolCalls == []
      modifies this`messages, this`now, this`maxTurns, this`requireSignal, guards`emptyTurns, posture
      ensures Ok()
      ensures maxTurns == old(maxTurns) || maxTurns == TurnBound(old(maxTurns), posture.policy)
      ensures Concluded(reply, old(now), old(guards.emptyTurns), old(Standing()), old(messages), turns, done)
    {
      hide TrimSpace, Transcript.Valid, Next, Fires, Sound, DecidedOn;
      done := None;
      var evaluation := env.evaluate(now);
      var nudge := env.diagnostics(now + 1);
      now := now + 2;
      if reply.droppedToolCalls > 0 {
        AppendNotice(DROPPED_CALL_NOTICE);
        return;
      }
      var stop := guards.ObserveTurn(false, TrimSpace(reply.text) != "", reply.hasReasoning);
      if stop {
        return Some(RunResult(messages, turns, "", NoOutput));
      }
      if TrimSpace(reply.text) == "" {
        AppendNotice(EMPTY_TURN_NOTICE);
        return;
      }
      if requireSignal {
        match evaluation
        case Incomplete(reason) => return Some(RunResult(messages, turns, reply.text, Unfinished(reason)));
        case ContinueNudge(text) => Doubt(text); return;
        case SemanticCheck(text) => Doubt(text); return;
        case Complete =>
      }
      if nudge != "" {
        AppendNotice(nudge);
        return;
      }
      return Some(RunResult(messages, turns, reply.text, Settled));
    }

    /** What a run of the calls one at a time would leave, from the state of the run. */
    ghost function OneAtATime(history: seq<Message>, moment: nat, calls: seq<ToolCall>): Turn<W>
      reads this, guards, posture
    {
      Sequential(posture.policy, env.execute, CancelledFrom(env.world, moment),
        Turn(history, workspace, guards.toolFailures, posture.Value(), loaded, "", None, [], Proceed), calls, 0)
    }

    /** The calls of a reply, already appended to the history, are executed and answered. */
    method RunTools(reply: Collected, ghost history: seq<Message>, ghost recorded: seq<ToolCall>)
      returns (requestedModel: string, failureHint: Option<string>, changed: seq<string>, stop: Stop)
      requires Sound() && Transcript.Valid(history) && Opens(history)
      requires messages == history + [AssistantMessage(reply.text, recorded)]
      requires Ids(recorded) == Ids(reply.toolCalls)
      modifies this`messages, this`workspace, this`loaded, this`now, guards`toolFailures, guards`emptyTurns, posture
      ensures Ok() && old(messages) <= messages && now == old(now) + |reply.toolCalls| && guards.emptyTurns == 0
      ensures old(OneAtATime(messages, now, reply.toolCalls))
        == Turn(messages, workspace, guards.toolFailures, posture.Value(), loaded, requestedModel, failureHint, changed,
                stop)
    {
      hide Transcript.Valid, Sequential, Next, ReadsOnly, AnswersOwnCall, Schedules;
      var _ := guards.ObserveTurn(true, reply.text != "", false);
      ghost var start := Turn(messages, workspace, guards.toolFailures, posture.Value(), loaded, "", None, [], Proceed);
      var moment := now;
      messages, workspace, loaded, requestedModel, failureHint, changed, stop := ExecuteToolCalls(
        env.registry, env.execute, CancelledFrom(env.world, moment), env.scheduler, guards, posture,
        messages, workspace, loaded, reply.toolCalls);
      TurnKeepsValid(posture.policy, env.execute, CancelledFrom(env.world, moment), history, reply.text, recorded,
                     start, reply.toolCalls);
      now := now + |reply.toolCalls|;
    }

    /** How a turn of tool calls leaves the run: halted by its batch, stalled by the convergence guard, or going on
        with its notices behind the last result. */
    ghost predicate Handled(turn: Turn<W>, moment: nat, before: Stance, rework: Tally, dropped: nat, turns: nat,
                            done: Option<RunResult>)
      reads this, posture
    {
      match turn.stop
      case Abort => Halted(turn, before, turns, done, "", RunStop.Cancelled)
      case StopRequested(reason, answer) => Halted(turn, before, turns, done, answer, ToolStop(reason))
      case FailureStop(tool, count) => Halted(turn, before, turns, done, "", ToolFailures(tool, count))
      case Proceed =>
        var verdict := if turn.changed == [] then Converging
                       else Verdict(rework, FirstSeen(turn.changed, |turn.changed|));
        && Standing() == Settling(before.(trips := turn.trips), moment, turn.changed, done)
        && if verdict == Converging then
             && done.None?
             && messages
                == NoticedAt(turn.messages, moment, turn.changed, turn.requestedModel, turn.failureHint, dropped)
           else
             && messages == turn.messages + Notice(FeedbackAt(moment, turn.changed))
             && done == Some(RunResult(messages, turns, "", Stalled(verdict)))
    }

    ghost predicate Halted(turn: Turn<W>, before: Stance, turns: nat, done: Option<RunResult>, answer: string,
                           stop: RunStop)
      reads this, posture
    {
      && messages == turn.messages && Standing() == before.(trips := turn.trips)
      && done == Some(RunResult(messages, turns, answer, stop))
    }

    /** A reply with tool calls, already appended to the history: the calls are answered and either
        the run ends or the notices of the turn follow, after the last result. */
    method ToolTurn(reply: Collected, turns: nat, ghost history: seq<Message>, ghost recorded: seq<ToolCall>)
      returns (done: Option<RunResult>)
      requires Sound() && Transcript.Valid(history) && Opens(history)
      requires messages == history + [AssistantMessage(reply.text, recorded)]
      requires Ids(recorded) == Ids(reply.toolCalls)
      modifies this`messages, this`workspace, this`loaded, this`now, this`maxTurns, this`requireSignal, guards, posture
      ensures Ok()
      ensures maxTurns == old(maxTurns) || maxTurns == TurnBound(old(maxTurns), posture.policy)
      ensures var turn := old(OneAtATime(messages, now, reply.toolCalls));
        && workspace == turn.workspace && loaded == turn.loaded && guards.toolFailures == turn.failures
        && Handled(turn, old(now) + |reply.toolCalls|, old(Standing()), old(guards.Rework()), reply.droppedToolCalls,
                   turns, done)
      ensures done.Some? ==> done.value.messages == messages && done.value.turns == turns
      ensures done.Some? ==>
        || done.value.stop.Cancelled? || done.value.stop.ToolStop? || done.value.stop.ToolFailures?
        || done.value.stop.Stalled?
      ensures old(messages) <= messages
    {
      hide Transcript.Valid, Sound, Sequential, Verdict, FirstSeen, DecidedOn, Corrected, TurnBound, TouchedBy;
      done := None;
      var requestedModel, failureHint, changed, stop := RunTools(reply, history, recorded);
      match stop
      case Abort => done := Some(RunResult(messages, turns, "", RunStop.Cancelled));
      case StopRequested(reason, answer) => done := Some(RunResult(messages, turns, answer, ToolStop(reason)));
      case FailureStop(tool, count) => done := Some(RunResult(messages, turns, "", ToolFailures(tool, count)));
      case Proceed =>
        done := AfterBatch(requestedModel, failureHint, changed, reply.droppedToolCalls, turns);
    }

    /** The feedback of the verification, if files changed. */
    ghost function FeedbackAt(moment: nat, changed: seq<string>): string {
      if changed != [] && env.selfCorrect(moment).Some? then env.selfCorrect(moment).value.0 else ""
    }

    ghost function SwitchNoticeAt(moment: nat, changed: seq<string>, requestedModel: string): string {
      if requestedModel == "" then "" else env.switchNotice(if changed == [] then moment else moment + 1)
    }

    /** The hint of the failure guard, or else the reminder. */
    ghost function ReminderAt(moment: nat, changed: seq<string>, requestedModel: string,
                              failureHint: Option<string>): string
    {
      var verified := if changed == [] then moment else moment + 1;
      if failureHint.Some? then env.hint(failureHint.value)
      else env.reminder(if requestedModel == "" then verified else verified + 1)
    }

    /** A history behind a batch that ran to its end, with the notices of the turn. */
    ghost function NoticedAt(ms: seq<Message>, moment: nat, changed: seq<string>, requestedModel: string,
                             failureHint: Option<string>, dropped: nat): seq<Message>
    {
      Noticed(ms, FeedbackAt(moment, changed), SwitchNoticeAt(moment, changed, requestedModel), dropped,
              ReminderAt(moment, changed, requestedModel, failureHint))
    }

    /** The stance after the verification of a turn and, when the turn goes on, its posture decision. */
    ghost function Settling(s: Stance, moment: nat, changed: seq<string>, done: Option<RunResult>): Stance {
      var verification := if changed == [] then None else env.selfCorrect(moment);
      var heard := s.(trips := Corrected(posture.policy, s.trips, verification));
      if done.Some? then heard else DecidedOn(posture.policy, heard)
    }

    /** After a batch that ran to its end: verification of the changed files, the convergence guard,
        the model switch, and the notices of the turn. */
    method AfterBatch(requestedModel: string, failureHint: Option<string>, changed: seq<string>, dropped: nat,
                      turns: nat)
      returns (done: Option<RunResult>)
      requires Ok()
      modifies this`messages, this`now, this`maxTurns, this`requireSignal, guards`fileMutationTurns
      modifies guards`totalReworkPasses, posture
      ensures Ok()
      ensures maxTurns == old(maxTurns) || maxTurns == TurnBound(old(maxTurns), posture.policy)
      ensures old(messages) <= messages
      ensures done.Some? ==> done.value.stop.Stalled? && changed != []
      ensures done.Some? ==> done.value.messages == messages && done.value.turns == turns
      ensures done.None? ==>
        messages == NoticedAt(old(messages), old(now), changed, requestedModel, failureHint, dropped)
      ensures done.Some?
        <==> (changed != [] && Verdict(old(guards.Rework()), FirstSeen(changed, |changed|)) != Converging)
      ensures done.Some? ==>
        && messages == old(messages) + Notice(FeedbackAt(old(now), changed))
        && done == Some(RunResult(messages, turns, "",
                                  Stalled(Verdict(old(guards.Rework()), FirstSeen(changed, |changed|)))))
      ensures Standing() == Settling(old(Standing()), old(now), changed, done)
    {
      hide Sound, Next, Transcript.Valid, TurnBound, Notice, Verdict, FirstSeen, DroppedNotice, TouchedBy, DecidedOn;
      EmptyNotice();
      done := Verify(changed, turns);
      if done.None? {
        NoteTurn(requestedModel, failureHint, dropped);
      }
    }

    /** The notices behind the verification, and the posture decision of the turn. */
    method NoteTurn(requestedModel: string, failureHint: Option<string>, dropped: nat)
      requires Ok()
      modifies this`messages, this`now, this`maxTurns, this`requireSignal, posture
      ensures Ok()
      ensures messages == old(messages) + Notice(SwitchNoticeAt(old(now), [], requestedModel)) + DroppedNotice(dropped)
        + Notice(ReminderAt(old(now), [], requestedModel, failureHint))
      ensures Standing() == DecidedOn(posture.policy, old(Standing()))
      ensures maxTurns == old(maxTurns) || maxTurns == TurnBound(old(maxTurns), posture.policy)
    {
      hide Sound, Next, Transcript.Valid, Notice, DroppedNotice, DecidedOn;
      NoteSwitch(requestedModel, dropped);
      var text;
      if failureHint.Some? {
        text := env.hint(failureHint.value);
      } else {
        text := env.reminder(now);
      }
      now := now + 1;
      AppendIfAny(text);
      ApplyPosture();
    }

    /** The notices of a model switch and of dropped calls. */
    method NoteSwitch(requestedModel: string, dropped: nat)
      requires Ok()
      modifies this`messages, this`now
      ensures Ok() && now == old(now) + if requestedModel == "" then 0 else 1
      ensures messages == old(messages) + Notice(SwitchNoticeAt(old(now), [], requestedModel)) + DroppedNotice(dropped)
    {
      hide Sound, Transcript.Valid;
      if requestedModel != "" {
        var notice := env.switchNotice(now);
        now := now + 1;
        AppendIfAny(notice);
      }
      if dropped > 0 {
        AppendNotice(DROPPED_CALL_NOTICE);
      }
    }

    method Verify(changed: seq<string>, turns: nat) returns (done: Option<RunResult>)
      requires Ok()
      modifies this`messages, this`now, guards`fileMutationTurns, guards`totalReworkPasses, posture
      ensures Ok() && messages == old(messages) + Notice(FeedbackAt(old(now), changed))
      ensures changed == [] ==> done == None && now == old(now) && posture.Value() == old(posture.Value())
      ensures changed != [] ==>
        && now == old(now) + 1
        && posture.Value() == Corrected(posture.policy, old(posture.Value()), env.selfCorrect(old(now)))
        && guards.Rework()
           == TouchedBy(old(guards.Rework()), FirstSeen(changed, |changed|), |FirstSeen(changed, |changed|)|)
        && (done.Some? ==>
              done == Some(RunResult(messages, turns, "",
                                     Stalled(Verdict(old(guards.Rework()), FirstSeen(changed, |changed|))))))
      ensures done.Some? ==> done.value.stop.Stalled? && done.value.messages == messages && done.value.turns == turns
      ensures done.Some?
        <==> (changed != [] && Verdict(old(guards.Rework()), FirstSeen(changed, |changed|)) != Converging)
    {
      hide Transcript.Valid, Next, Sound;
      done := None;
      if |changed| > 0 {
        var verification := env.selfCorrect(now);
        now := now + 1;
        if verification.Some? {
          var text := verification.value.0;
          posture.ObserveSelfCorrect(verification.value.1);
          AppendIfAny(text);
        }
        var files := DedupeStrings(changed);
        var verdict := guards.ObserveMutatedFiles(files);
        if verdict != Converging {
          done := Some(RunResult(messages, turns, "", Stalled(verdict)));
        }
      }
    }

    method AppendIfAny(text: string)
      requires Ok()
      modifies this`messages
      ensures Ok() && messages == old(messages) + Notice(text)
    {
      if text != "" {
        AppendNotice(text);
      }
    }

    /** The reply of the next turn, appended to its history, and the moment behind it. */
    ghost function Told(): seq<Message>
      requires compactor.Valid()
      reads this, compactor
    {
      var (asked, outcome) := Turning(env, Talking());
      if outcome.Ended? then asked.messages else asked.messages + [AnswerOf(outcome.stream)]
    }

    ghost function Asked(): nat
      requires compactor.Valid()
      reads this, compactor
    {
      Turning(env, Talking()).0.now
    }

    ghost function Calls(): seq<ToolCall>
      requires compactor.Valid()
      reads this, compactor
    {
      var outcome := Turning(env, Talking()).1;
      if outcome.Ended? then [] else outcome.stream.toolCalls
    }

    /** A turn asks once it has delivered its diagnostics and compacted; it ends the run as its request did, or acts on
        the reply. */
    ghost predicate TurnIs(replied: (Talk, ReplyOutcome), turns: nat, turn: Turn<W>, before: Stance, emptyTurns: nat,
                           rework: Tally, request: seq<Message>, done: Option<RunResult>)
      reads this, guards, posture
    {
      var (asked, outcome) := replied;
      && request == asked.messages && sent == asked.sent
      && match outcome
         case Ended(stop) => messages == request && done == Some(RunResult(request, turns, "", stop))
         case Replied(stream) =>
           && request + [AnswerOf(stream)] <= messages
           && Responded(stream, asked.now, request + [AnswerOf(stream)], turn, before, emptyTurns, rework, turns, done)
    }

    /** The end of a run whose next turn ends it without calling a tool. */
    ghost function EndOfTurn(turns: nat): Option<RunResult>
      requires compactor.Valid()
      reads this, compactor, guards
    {
      var (asked, outcome) := Turning(env, Talking());
      match outcome
      case Ended(stop) => Some(RunResult(asked.messages, turns, "", stop))
      case Replied(stream) =>
        if stream.toolCalls != [] then None
        else Conclusion(stream, asked.now, guards.emptyTurns, requireSignal, asked.messages + [AnswerOf(stream)], turns)
    }

    /** One turn of the loop: deliver diagnostics, compact, get a reply, append it, act on it. */
    method OneTurn(turn: nat) returns (done: Option<RunResult>, ghost request: seq<Message>)
      requires Ok()
      modifies this, compactor, guards, posture
      ensures Ok() && compactor.enabled == old(compactor.enabled)
      ensures Spent() <= old(Spent()) + 2 * CONNECTS
      ensures old(compactor.reactiveAttempted) ==> compactor.reactiveAttempted
      ensures maxTurns == old(maxTurns) || maxTurns == TurnBound(old(maxTurns), posture.policy)
      ensures old(sent) < sent
      ensures TurnIs(old(Turning(env, Talking())), turn + 1,
                     old(OneAtATime(Told(), Asked(), Calls())), old(Standing()), old(guards.emptyTurns),
                     old(guards.Rework()), request, done)
      ensures old(EndOfTurn(turn + 1)).Some? ==>
        done == old(EndOfTurn(turn + 1)) && sent == old(Turning(env, Talking())).0.sent
      ensures !compactor.enabled ==> old(messages) <= messages
      ensures !compactor.enabled ==>
        && request == old(messages) + Notice(env.diagnostics(old(now)))
        && request <= messages && OnlySent(old(sent), sent, request)
      ensures done.Some?
        ==> done.value.messages == messages && done.value.turns == turn + 1 && EndsWell(done.value, sent)
      ensures done.Some? ==> !done.value.stop.TurnLimit?
    {
      hide Transcript.Valid, Sound, Turning, Responded, EndsWell, Sequential, TurnBound, OnlySent, Conclusion;
      done := None;
      var outcome := AskOnce();
      request := messages;
      if outcome.Ended? {
        EndsAsSent(RunResult(messages, turn + 1, "", outcome.stop), sent);
        done := Some(RunResult(messages, turn + 1, "", outcome.stop));
        return;
      }
      done := ActOn(outcome.stream, turn + 1);
    }

    /** The part of a turn up to its reply. */
    method AskOnce() returns (outcome: ReplyOutcome)
      requires Ok()
      modifies this`messages, this`now, this`requests, this`sent, compactor
      ensures Ok() && compactor.enabled == old(compactor.enabled)
      ensures (Talking(), outcome) == Turning(env, old(Talking()))
      ensures Spent() <= old(Spent()) + 2 * CONNECTS
      ensures old(compactor.reactiveAttempted) ==> compactor.reactiveAttempted
      ensures old(sent) < sent && sent[|sent| - 1] == messages
      ensures !compactor.enabled ==>
        messages == old(messages) + Notice(env.diagnostics(old(now))) && OnlySent(old(sent), sent, messages)
      ensures outcome.Ended? ==> outcome.stop.ProviderStop? || outcome.stop == RunStop.Cancelled
    {
      hide Transcript.Valid, Sound, Replying, Proactively, OnlySent;
      var nudge := env.diagnostics(now);
      now := now + 1;
      AppendIfAny(nudge);
      Compact();
      outcome := NextReply();
    }

    /** Proactive compaction at the top of a turn. */
    method Compact()
      requires Ok()
      modifies this`messages, this`now, compactor
      ensures Ok() && compactor.enabled == old(compactor.enabled)
      ensures var p :=
          old(Proactively(compactor.Value(), messages, env.toolTokens(now), env.summarize(now), env.carry));
        messages == p.messages && compactor.Value() == p.control && now == old(now) + 1
      ensures compactor.reactiveAttempted == old(compactor.reactiveAttempted)
      ensures !compactor.enabled ==> messages == old(messages)
    {
      hide Proactively, Reactively, Transcript.Valid;
      ghost var c := compactor.Value();
      ghost var before := messages;
      var tokens := env.toolTokens(now);
      var out := compactor.MaybeCompact(messages, tokens, env.summarize(now), env.carry);
      var anyError := ProviderError(false, false, false, false, "");
      ControllerKeepsValid(c, before, tokens, anyError, env.summarize(now), env.carry);
      SettingsStay(c, before, tokens, anyError, env.summarize(now), env.carry);
      ControllerKeepsHead(c, before, tokens, anyError, env.summarize(now), env.carry);
      messages := out;
      now := now + 1;
    }

    /** The message a reply becomes: its calls with safe arguments. */
    ghost function AnswerOf(reply: Collected): Message {
      AssistantMessage(reply.text, SafeCalls(reply.toolCalls, env.safeArguments))
    }

    /** How a reply, appended to the history, leaves the run. */
    ghost predicate Responded(reply: Collected, moment: nat, answered: seq<Message>, turn: Turn<W>, before: Stance,
                              emptyTurns: nat, rework: Tally, turns: nat, done: Option<RunResult>)
      reads this, guards, posture
    {
      if reply.toolCalls == [] then Concluded(reply, moment, emptyTurns, before, answered, turns, done)
      else
        && workspace == turn.workspace && loaded == turn.loaded && guards.toolFailures == turn.failures
        && Handled(turn, moment + |reply.toolCalls|, before, rework, reply.droppedToolCalls, turns, done)
    }

    /** Calibrates the controller on an accepted reply, appends the reply, and acts on it. */
    method ActOn(reply: Collected, turns: nat) returns (done: Option<RunResult>)
      requires Ok()
      modifies this`messages, this`workspace, this`loaded, this`now, this`maxTurns, this`requireSignal
      modifies compactor`calibrationRatio, guards, posture
      ensures Ok()
      ensures maxTurns == old(maxTurns) || maxTurns == TurnBound(old(maxTurns), posture.policy)
      ensures var answered := old(messages) + [AnswerOf(reply)];
        && answered <= messages
        && Responded(reply, old(now), answered, old(OneAtATime(messages + [AnswerOf(reply)], now, reply.toolCalls)),
                     old(Standing()), old(guards.emptyTurns), old(guards.Rework()), turns, done)
      ensures reply.toolCalls == [] ==>
        done == Conclusion(reply, old(now), old(guards.emptyTurns), old(requireSignal),
                           old(messages) + [AnswerOf(reply)], turns)
      ensures compactor.Value()
        == Calibrated(old(compactor.Value()), Estimate(old(messages)) + env.toolTokens(old(now)), reply.inputTokens)
      ensures done.Some? ==> done.value.messages == messages && done.value.turns == turns && EndsWell(done.value, sent)
      ensures done.Some? ==> !done.value.stop.TurnLimit?
    {
      hide Transcript.Valid, TurnBound, Estimate, EndsWell, Handled, Concluded, Conclusion, Sequential, Calibrated;
      var raw := EstimateTokens(messages);
      compactor.Calibrate(raw + env.toolTokens(now), reply.inputTokens);
      var recorded := HistorySafeToolCalls(reply.toolCalls, env.safeArguments);
      ghost var history := messages;
      var answer := AssistantMessage(reply.text, recorded);
      messages := messages + [answer];
      if |reply.toolCalls| == 0 {
        ValidSnoc(history, answer);
        done := ActOnAnswer(reply, turns);
      } else {
        assert Ids(recorded) == Ids(reply.toolCalls);
        done := ActOnCalls(reply, turns, history, recorded);
      }
    }

    method ActOnAnswer(reply: Collected, turns: nat) returns (done: Option<RunResult>)
      requires Ok() && reply.toolCalls == []
      requires messages != [] && messages[|messages| - 1] == AssistantMessage(reply.text, [])
      modifies this`messages, this`now, this`maxTurns, this`requireSignal, guards`emptyTurns, posture
      ensures Ok() && old(messages) <= messages
      ensures Concluded(reply, old(now), old(guards.emptyTurns), old(Standing()), old(messages), turns, done)
      ensures done == Conclusion(reply, old(now), old(guards.emptyTurns), old(requireSignal), old(messages), turns)
      ensures maxTurns == old(maxTurns) || maxTurns == TurnBound(old(maxTurns), posture.policy)
      ensures done.Some? ==> done.value.messages == messages && done.value.turns == turns && EndsWell(done.value, sent)
      ensures done.Some? ==> !done.value.stop.TurnLimit?
    {
      hide Transcript.Valid, TrimSpace, Disposal, TurnBound, Next, DecidedOn, Doubts, Sound;
      DisposalEnds(reply, if TrimSpace(reply.text) != "" || reply.hasReasoning then 0 else guards.emptyTurns + 1,
                   requireSignal, env.evaluate(now), env.diagnostics(now + 1));
      done := FinishOrContinue(reply, turns);
    }

    method ActOnCalls(reply: Collected, turns: nat, ghost history: seq<Message>, ghost recorded: seq<ToolCall>)
      returns (done: Option<RunResult>)
      requires Sound() && Transcript.Valid(history) && Opens(history)
      requires messages == history + [AssistantMessage(reply.text, recorded)]
      requires Ids(recorded) == Ids(reply.toolCalls)
      modifies this`messages, this`workspace, this`loaded, this`now, this`maxTurns, this`requireSignal, guards, posture
      ensures Ok() && old(messages) <= messages
      ensures var turn := old(OneAtATime(messages, now, reply.toolCalls));
        && workspace == turn.workspace && loaded == turn.loaded && guards.toolFailures == turn.failures
        && Handled(turn, old(now) + |reply.toolCalls|, old(Standing()), old(guards.Rework()), reply.droppedToolCalls,
                   turns, done)
      ensures maxTurns == old(maxTurns) || maxTurns == TurnBound(old(maxTurns), posture.policy)
      ensures done.Some? ==> done.value.messages == messages && done.value.turns == turns && EndsWell(done.value, sent)
      ensures done.Some? ==> !done.value.stop.TurnLimit?
    {
      hide Transcript.Valid, Sequential, TurnBound, Noticed, Sound, Handled;
      done := ToolTurn(reply, turns, history, recorded);
    }

    /** The summary request after the last turn; the history keeps it only when it was answered. */
    method FinalAnswer(turns: nat) returns (result: RunResult)
      requires Ok()
      modifies this`now, this`requests, this`sent
      ensures Sound() && Transcript.Valid(result.messages) && Opens(result.messages) && result.turns == turns
      ensures requests <= old(requests) + CONNECTS
      ensures sent == old(sent) + [messages + [UserMessage(FINAL_ANSWER_PROMPT)]]
      ensures if result.stop == TurnLimit(true)
        then result.messages == sent[|sent| - 1] + [AssistantMessage(result.finalAnswer, [])]
        else result.stop == TurnLimit(false) && result.messages == messages
      ensures var reply := Connected(env.world, old(now));
        result.stop == TurnLimit(true) <==>
          && reply.Opened? && !env.world.cancelled(AfterConnect(env.world, old(now)))
          && reply.stream.error.None? && TrimSpace(reply.stream.text) != "" && result.finalAnswer == reply.stream.text
    {
      hide Transcript.Valid, TrimSpace, Connected, AfterConnect;
      var prompt := UserMessage(FINAL_ANSWER_PROMPT);
      ValidSnoc(messages, prompt);
      var finalMessages := messages + [prompt];
      var reply := Send(finalMessages);
      result := RunResult(messages, turns, "", TurnLimit(false));
      if reply.Refused? {
        return;
      }
      var cancelled := Cancelled();
      if cancelled || reply.stream.error.Some? || TrimSpace(reply.stream.text) == "" {
        return;
      }
      ValidSnoc(finalMessages, AssistantMessage(reply.stream.text, []));
      finalMessages := finalMessages + [AssistantMessage(reply.stream.text, [])];
      result := RunResult(finalMessages, turns, reply.stream.text, TurnLimit(true));
    }

    /** The turn limit was reached. */
    method OutOfTurns(turns: nat) returns (result: RunResult)
      requires Ok()
      modifies this`messages, this`now, this`requests, this`sent
      ensures Sound() && Transcript.Valid(result.messages) && Opens(result.messages) && result.turns == turns
      ensures requests <= old(requests) + CONNECTS
      ensures EndsWell(result, sent)
      ensures AppendOnly(old(sent) + [old(messages)]) ==> OnlyGrew(sent, result)
      ensures old(messages) <= result.messages
      ensures if env.world.cancelled(old(now)) then
          result == RunResult(old(messages), turns, "", RunStop.Cancelled) && sent == old(sent)
        else
          && result.stop.TurnLimit?
          && sent == old(sent)
             + [old(messages) + Notice(env.diagnostics(old(now) + 1)) + [UserMessage(FINAL_ANSWER_PROMPT)]]
    {
      hide Transcript.Valid, Sound, AppendOnly;
      var cancelled := Cancelled();
      if cancelled {
        result := RunResult(messages, turns, "", RunStop.Cancelled);
        return;
      }
      var nudge := env.diagnostics(now);
      now := now + 1;
      AppendIfAny(nudge);
      result := FinalAnswer(turns);
      if AppendOnly(old(sent) + [old(messages)]) {
        var request := sent[|sent| - 1];
        GrowsBy(old(sent), old(messages), sent, request,
                if result.stop == TurnLimit(true) then result.messages else request);
      }
    }

    /** The turns of a run: only the last may have ended it, and the run ends with it; a run that no turn ended took
        all the turns it may take. */
    ghost predicate EndsWithTurns(ends: seq<Option<RunResult>>, result: RunResult)
      reads this`maxTurns
    {
      && |ends| == result.turns && (forall i | 0 <= i < |ends| - 1 :: ends[i].None?)
      && if ends != [] && ends[|ends| - 1].Some? then ends[|ends| - 1] == Some(result)
         else result.turns == maxTurns && (result.stop.TurnLimit? || result.stop.Cancelled?)
    }

    /** A whole run. Whatever the provider, the tools, the guards, the summarizer and cancellation do:
        every history that was sent and the one returned can be replayed and opens with the system message of
        the run; the turns and the requests are bounded; it takes turns until one of them ends it or the ceiling is
        reached; and without compaction the history only ever grows. */
    method Run() returns (result: RunResult, ghost ends: seq<Option<RunResult>>)
      requires Ok() && sent == [] && requests == 0 && !compactor.reactiveAttempted
      modifies this, compactor, guards, posture
      ensures Transcript.Valid(result.messages) && Opens(result.messages)
      ensures forall i | 0 <= i < |sent| :: Transcript.Valid(sent[i]) && Opens(sent[i])
      ensures result.turns <= TurnBound(old(maxTurns), posture.policy)
      ensures requests <= 10 * TurnBound(old(maxTurns), posture.policy) + 10
      ensures EndsWithTurns(ends, result) && maxTurns >= old(maxTurns)
      ensures result.stop.TurnLimit? ==> result.turns == maxTurns && |sent| > result.turns
      ensures |sent| >= result.turns
      ensures old(maxTurns) > 0 && old(EndOfTurn(1)).Some? ==>
        Some(result) == old(EndOfTurn(1)) && sent == old(Turning(env, Talking())).0.sent
      ensures EndsWell(result, sent)
      ensures !old(compactor.enabled) ==> OnlyGrew(sent, result) && old(messages) <= result.messages
    {
      hide Transcript.Valid, EndsWell, AppendOnly, OnlySent, Turning, Sequential, TurnIs, EndOfTurn;
      ghost var bound := TurnBound(maxTurns, posture.policy);
      StartsAppendOnly(messages);
      ends := [];
      var turn := 0;
      while turn < maxTurns
        invariant Ok() && compactor.enabled == old(compactor.enabled)
        invariant turn <= maxTurns <= bound && TurnBound(maxTurns, posture.policy) == bound && maxTurns >= old(maxTurns)
        invariant Spent() <= 10 * turn && |sent| >= turn
        invariant |ends| == turn && forall i | 0 <= i < turn :: ends[i].None?
        invariant turn == 0 ==> EndOfTurn(1) == old(EndOfTurn(1)) && Talking() == old(Talking())
        invariant turn > 0 ==> old(EndOfTurn(1)).None?
        invariant !compactor.enabled ==> AppendOnly(sent + [messages]) && old(messages) <= messages
        decreases bound - turn
      {
        ghost var histories, history := sent, messages;
        var done, request := OneTurn(turn);
        if !compactor.enabled {
          GrowsBy(histories, history, sent, request, messages);
        }
        turn := turn + 1;
        ends := ends + [done];
        if done.Some? {
          return done.value, ends;
        }
      }
      result := OutOfTurns(turn);
    }

    method AppendNotice(text: string)
      requires Ok()
      modifies this`messages
      ensures Ok() && messages == old(messages) + [UserMessage(text)]
    {
      ValidSnoc(messages, UserMessage(text));
      messages := messages + [UserMessage(text)];
    }
  }

  /** Each history extends the ones before it. */
  ghost predicate AppendOnly(histories: seq<seq<Message>>) {
    forall i, j | 0 <= i <= j < |histories| :: histories[i] <= histories[j]
  }

  /** The requests since an earlier log all carried one history. */
  ghost predicate OnlySent(before: seq<seq<Message>>, after: seq<seq<Message>>, m: seq<Message>) {
    before <= after && forall i | |before| <= i < |after| :: after[i] == m
  }

  lemma SentNothing(log: seq<seq<Message>>, m: seq<Message>)
    ensures OnlySent(log, log, m)
  {
  }

  lemma SentOnce(log: seq<seq<Message>>, m: seq<Message>)
    ensures OnlySent(log, log + [m], m)
  {
  }

  lemma SentOn(before: seq<seq<Message>>, asked: seq<seq<Message>>, after: seq<seq<Message>>, m: seq<Message>)
    requires OnlySent(before, asked, m) && OnlySent(asked, after, m)
    ensures OnlySent(before, after, m)
  {
  }

  lemma SentMore(before: seq<seq<Message>>, after: seq<seq<Message>>, m: seq<Message>)
    requires OnlySent(before, after, m)
    ensures OnlySent(before, after + [m], m)
  {
  }

  /** The requests and the result of a run form one growing history; only the question for a final
      answer is dropped from the result when it was not answered. */
  ghost predicate OnlyGrew(sent: seq<seq<Message>>, r: RunResult) {
    if r.stop == TurnLimit(false) then
      sent != [] && AppendOnly(sent + [sent[|sent| - 1]]) && r.messages <= sent[|sent| - 1]
    else AppendOnly(sent + [r.messages])
  }

  lemma StartsAppendOnly(m: seq<Message>)
    ensures AppendOnly([] + [m])
  {
  }

  lemma GrowsBy(before: seq<seq<Message>>, history: seq<Message>, after: seq<seq<Message>>, request: seq<Message>,
                next: seq<Message>)
    requires AppendOnly(before + [history]) && OnlySent(before, after, request) && history <= request <= next
    ensures AppendOnly(after + [next])
  {
    assert (before + [history])[|before|] == history;
    forall i, j | 0 <= i <= j < |after + [next]| ensures (after + [next])[i] <= (after + [next])[j] {
      if j < |before| {
        assert (before + [history])[i] <= (before + [history])[j];
      } else if i < |before| {
        assert (before + [history])[i] <= history;
      }
    }
  }

  lemma EndsAsSent(r: RunResult, sent: seq<seq<Message>>)
    requires r.stop.ProviderStop? || r.stop.Cancelled?
    requires sent != [] && r.messages == sent[|sent| - 1]
    ensures EndsWell(r, sent)
  {
  }

  lemma EmptyNotice()
    ensures Notice("") == []
  {
  }

  lemma SeedIsValid(ms: seq<Message>)
    requires |ms| == 2 && forall i | 0 <= i < 2 :: ms[i].role != Tool && ms[i].toolCalls == []
    ensures Transcript.Valid(ms)
  {
    assert ReadTo(SETTLED, ms, 1) == SETTLED;
  }

  lemma FailureKeepsHistory(c: Control, ms: seq<Message>, toolTokens: nat, error: ProviderError, summarize: Summarize,
                            carry: Carry)
    requires c.ratio >= 0.0
    ensures var r := Reactively(c, ms, toolTokens, error, summarize, carry);
      r.failure.Some? ==> r.retried && r.messages == ms
  {
    hide Compact;
  }
}
