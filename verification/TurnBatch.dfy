/** The tool calls of one turn (internal/agent/loop.go): executed with parallel read-ahead,
    consumed strictly in order, and cut short by an abort, a stop or the failure guard. */
module TurnBatch {
  import opened Text
  import opened Transcript
  import opened Guardrails
  import opened Posture
  import opened ParallelTools

  const ABORTED_NOTICE := "aborted: run halted by the repeated-failure guard"

  datatype ToolResult = ToolResult(
    toolCallId: string, output: string, ok: bool, retriableFailure: bool, signature: string,
    executed: bool, risk: nat, loadedTools: seq<string>, requestedModel: string,
    changedFiles: seq<string>, stopReason: string)

  type Tools<!W> = Executor<ToolResult, W>

  /** Every result carries the id of its call. */
  ghost predicate AnswersOwnCall<W(!new)>(execute: Tools<W>) {
    forall w: W, call: ToolCall :: execute(w, call).result.toolCallId == call.id
  }

  datatype Stop = Proceed | Abort | StopRequested(reason: string, answer: string)
    | FailureStop(tool: string, count: nat)

  /** What a turn has done so far. */
  datatype Turn<W> = Turn(
    messages: seq<Message>, workspace: W, failures: Failures, trips: Trips, loaded: set<string>,
    requestedModel: string, failureHint: Option<string>, changed: seq<string>, stop: Stop)

  function Aborted(rest: seq<ToolCall>): seq<Message> {
    seq(|rest|, k requires 0 <= k < |rest| => ToolMessage(ABORTED_NOTICE, rest[k].id))
  }

  function Members(names: seq<string>): set<string> { set name | name in names }

  /** Consuming the execution of one call; rest are the calls after it. */
  function Consume<W>(policy: Option<Escalation>, t: Turn<W>, call: ToolCall, e: Executed<ToolResult, W>,
                      cancelled: bool, rest: seq<ToolCall>): Turn<W>
  {
    var r := e.result;
    var answered := t.(
      messages := t.messages + [ToolMessage(r.output, r.toolCallId)],
      workspace := e.workspace,
      loaded := t.loaded + Members(r.loadedTools),
      requestedModel := if t.requestedModel == "" then r.requestedModel else t.requestedModel);
    if e.abort || cancelled then answered.(messages := answered.messages + Aborted(rest), stop := Abort)
    else if r.stopReason != "" then
      answered.(messages := answered.messages + Aborted(rest), stop := StopRequested(r.stopReason, r.output))
    else
      var (failures, outcome) := Observed(t.failures, Observation(call.name, r.retriableFailure, r.signature));
      var watched := answered.(
        failures := failures,
        trips := Next(policy, t.trips, ToolRan(outcome.count, r.executed, r.risk)));
      if outcome.stop then
        watched.(messages := answered.messages + Aborted(rest), stop := FailureStop(call.name, outcome.count))
      else
        watched.(
          failureHint := if outcome.injectHint && t.failureHint.None? then Some(call.name) else t.failureHint,
          changed := if r.ok then t.changed + r.changedFiles else t.changed)
  }

  /** The calls from i on executed and consumed one at a time. Moment i tells whether the run is
      cancelled when call i was consumed. */
  function Sequential<W>(policy: Option<Escalation>, execute: Tools<W>, cancelled: nat -> bool,
                         t: Turn<W>, calls: seq<ToolCall>, i: nat): Turn<W>
    requires i <= |calls|
    decreases |calls| - i
  {
    if i == |calls| || t.stop != Proceed then t
    else
      var next := Consume(policy, t, calls[i], execute(t.workspace, calls[i]), cancelled(i), calls[i + 1..]);
      Sequential(policy, execute, cancelled, next, calls, i + 1)
  }

  /** The order in which the goroutines of a batch [start, end) finish: any that runs each once. */
  type Scheduler = (nat, nat) -> seq<nat>

  ghost predicate Schedules(scheduler: Scheduler) {
    forall start: nat, end: nat, index: nat :: index in scheduler(start, end) <==> start <= index < end
  }

  method AppendAbortedToolResults(messages: seq<Message>, remaining: seq<ToolCall>) returns (out: seq<Message>)
    ensures out == messages + Aborted(remaining)
  {
    out := messages;
    for i := 0 to |remaining|
      invariant out == messages + Aborted(remaining[..i])
    {
      out := out + [ToolMessage(ABORTED_NOTICE, remaining[i].id)];
      assert Aborted(remaining[..i + 1]) == Aborted(remaining[..i]) + [ToolMessage(ABORTED_NOTICE, remaining[i].id)];
    }
    assert remaining[..|remaining|] == remaining;
  }

  /** The executions of the calls [from, to) of a read-only run that were done together. */
  datatype Ahead<W> = Ahead(precomputed: seq<Executed<ToolResult, W>>, from: nat, to: nat)

  /** From index on, what was executed ahead is what executing in the present workspace would give. */
  ghost predicate InStep<W(!new)>(registry: Registry, execute: Tools<W>, workspace: W, calls: seq<ToolCall>,
                                  ahead: Ahead<W>, index: nat)
  {
    && ahead.from <= ahead.to <= |calls| && |ahead.precomputed| == ahead.to - ahead.from && ahead.from <= index
    && forall k | index <= k < ahead.to ::
         ParallelSafe(registry, calls[k]) && ahead.precomputed[k - ahead.from] == execute(workspace, calls[k])
  }

  /** The execution of the next call, alone or out of a batch; what was executed ahead stays in step. */
  method ExecuteNext<W(!new)>(registry: Registry, execute: Tools<W>, workspace: W, calls: seq<ToolCall>, index: nat,
                              scheduler: Scheduler, before: Ahead<W>)
    returns (ahead: Ahead<W>, executed: Executed<ToolResult, W>)
    requires ReadsOnly(registry, execute) && Schedules(scheduler)
    requires index < |calls| && InStep(registry, execute, workspace, calls, before, index)
    ensures executed == execute(workspace, calls[index])
    ensures InStep(registry, execute, executed.workspace, calls, ahead, index + 1)
  {
    ahead := before;
    if index >= ahead.to {
      var runEnd := ExtendParallelRun(registry, calls, index);
      if runEnd - index >= 2 {
        var results, after := ExecuteParallelReadBatch(
          registry, execute, workspace, calls, index, runEnd, scheduler(index, runEnd));
        ahead := Ahead(results, index, runEnd);
        assert after == workspace;
      }
    }
    if ahead.from <= index < ahead.to {
      executed := ahead.precomputed[index - ahead.from];
    } else {
      executed := execute(workspace, calls[index]);
    }
  }

  /** The batch loop. Executing the longest read-only runs together, in whatever order their
      goroutines finish, leaves exactly the turn that executing the calls one at a time leaves. */
  method ExecuteToolCalls<W(!new)>(
    registry: Registry, execute: Tools<W>, cancelled: nat -> bool, scheduler: Scheduler,
    guards: GuardState, posture: ProfileController,
    history: seq<Message>, start: W, known: set<string>, calls: seq<ToolCall>)
    returns (messages: seq<Message>, workspace: W, loaded: set<string>, requestedModel: string,
             failureHint: Option<string>, changed: seq<string>, stop: Stop)
    requires ReadsOnly(registry, execute) && Schedules(scheduler)
    modifies guards`toolFailures, posture
    ensures Turn(messages, workspace, guards.toolFailures, posture.Value(), loaded, requestedModel, failureHint,
                 changed, stop)
         == Sequential(posture.policy, execute, cancelled,
              Turn(history, start, old(guards.toolFailures), old(posture.Value()), known, "", None, [], Proceed),
              calls, 0)
  {
    hide Consume, Sequential, ReadsOnly, Schedules;
    messages, workspace, loaded := history, start, known;
    requestedModel, failureHint, changed, stop := "", None, [], Proceed;
    var ahead: Ahead<W> := Ahead([], 0, 0);
    ghost var all := Sequential(posture.policy, execute, cancelled,
      Turn(history, start, guards.toolFailures, posture.Value(), known, "", None, [], Proceed), calls, 0);
    for index := 0 to |calls|
      invariant stop == Proceed
      invariant all == Sequential(posture.policy, execute, cancelled,
        Turn(messages, workspace, guards.toolFailures, posture.Value(), loaded, requestedModel, failureHint, changed,
             stop),
        calls, index)
      invariant InStep(registry, execute, workspace, calls, ahead, index)
    {
      var call := calls[index];
      var executed: Executed<ToolResult, W>;
      ahead, executed := ExecuteNext(registry, execute, workspace, calls, index, scheduler, ahead);
      SequentialStep(posture.policy, execute, cancelled,
        Turn(messages, workspace, guards.toolFailures, posture.Value(), loaded, requestedModel, failureHint, changed,
             stop),
        calls, index);
      messages, loaded, requestedModel, failureHint, changed, stop := ConsumeResult(
        guards, posture, messages, workspace, loaded, requestedModel, failureHint, changed, call, executed,
        cancelled(index), calls[index + 1..]);
      workspace := executed.workspace;
      if stop != Proceed {
        SequentialEnd(posture.policy, execute, cancelled,
          Turn(messages, workspace, guards.toolFailures, posture.Value(), loaded, requestedModel, failureHint, changed,
               stop),
          calls, index + 1);
        return;
      }
    }
    SequentialEnd(posture.policy, execute, cancelled,
      Turn(messages, workspace, guards.toolFailures, posture.Value(), loaded, requestedModel, failureHint, changed,
           stop),
      calls, |calls|);
  }

  lemma SequentialStep<W>(policy: Option<Escalation>, execute: Tools<W>, cancelled: nat -> bool,
                          t: Turn<W>, calls: seq<ToolCall>, i: nat)
    requires i < |calls| && t.stop == Proceed
    ensures Sequential(policy, execute, cancelled, t, calls, i)
         == Sequential(policy, execute, cancelled,
              Consume(policy, t, calls[i], execute(t.workspace, calls[i]), cancelled(i), calls[i + 1..]), calls, i + 1)
  {
    hide Consume;
  }

  lemma SequentialEnd<W>(policy: Option<Escalation>, execute: Tools<W>, cancelled: nat -> bool,
                         t: Turn<W>, calls: seq<ToolCall>, i: nat)
    requires i <= |calls| && (i == |calls| || t.stop != Proceed)
    ensures Sequential(policy, execute, cancelled, t, calls, i) == t
  {
  }

  /** The body of the batch loop after a call was executed. */
  method ConsumeResult<W>(
    guards: GuardState, posture: ProfileController,
    history: seq<Message>, start: W, known: set<string>, model: string, hint: Option<string>, edited: seq<string>,
    call: ToolCall, executed: Executed<ToolResult, W>, cancelled: bool, rest: seq<ToolCall>)
    returns (messages: seq<Message>, loaded: set<string>, requestedModel: string, failureHint: Option<string>,
             changed: seq<string>, stop: Stop)
    modifies guards`toolFailures, posture
    ensures Turn(messages, executed.workspace, guards.toolFailures, posture.Value(), loaded, requestedModel,
                 failureHint, changed, stop)
         == Consume(posture.policy,
              Turn(history, start, old(guards.toolFailures), old(posture.Value()), known, model, hint, edited, Proceed),
              call, executed, cancelled, rest)
  {
    var result := executed.result;
    messages, loaded, requestedModel, failureHint, changed, stop := history, known, model, hint, edited, Proceed;
    loaded := loaded + Members(result.loadedTools);
    if requestedModel == "" && result.requestedModel != "" {
      requestedModel := result.requestedModel;
    }
    messages := messages + [ToolMessage(result.output, result.toolCallId)];
    if executed.abort || cancelled {
      messages := AppendAbortedToolResults(messages, rest);
      stop := Abort;
      return;
    }
    if result.stopReason != "" {
      messages := AppendAbortedToolResults(messages, rest);
      stop := StopRequested(result.stopReason, result.output);
      return;
    }
    var outcome := guards.ObserveToolResult(call.name, result.retriableFailure, result.signature);
    posture.ObserveToolRan(outcome.count, result.executed, result.risk);
    if outcome.stop {
      messages := AppendAbortedToolResults(messages, rest);
      stop := FailureStop(call.name, outcome.count);
      return;
    }
    if outcome.injectHint && failureHint == None {
      failureHint := Some(call.name);
    }
    if result.ok && |result.changedFiles| > 0 {
      changed := changed + result.changedFiles;
    }
  }

  /** However a turn ends, the messages it appends are one result per call, in the order of the
      calls and each by its own id. */
  lemma {:induction false} EveryCallIsAnswered<W(!new)>(
    policy: Option<Escalation>, execute: Tools<W>, cancelled: nat -> bool, t: Turn<W>, calls: seq<ToolCall>, i: nat)
    returns (results: seq<Message>)
    requires AnswersOwnCall(execute) && i <= |calls| && t.stop == Proceed
    ensures |results| == |calls| - i
    ensures Sequential(policy, execute, cancelled, t, calls, i).messages == t.messages + results
    ensures forall k | 0 <= k < |results| :: ResultFor(results[k], calls[i + k].id)
    decreases |calls| - i
  {
    results := [];
    if i < |calls| {
      var e := execute(t.workspace, calls[i]);
      var rest := calls[i + 1..];
      var next := Consume(policy, t, calls[i], e, cancelled(i), rest);
      ConsumeAppends(policy, t, calls[i], e, cancelled(i), rest);
      hide Consume;
      var first := ToolMessage(e.result.output, e.result.toolCallId);
      if next.stop == Proceed {
        var later := EveryCallIsAnswered(policy, execute, cancelled, next, calls, i + 1);
        results := [first] + later;
      } else {
        assert Sequential(policy, execute, cancelled, next, calls, i + 1) == next;
        results := [first] + Aborted(rest);
      }
    }
  }

  lemma ConsumeAppends<W>(policy: Option<Escalation>, t: Turn<W>, call: ToolCall, e: Executed<ToolResult, W>,
                          cancelled: bool, rest: seq<ToolCall>)
    requires t.stop == Proceed
    ensures var next := Consume(policy, t, call, e, cancelled, rest);
      next.messages == t.messages + [ToolMessage(e.result.output, e.result.toolCallId)]
        + if next.stop == Proceed then [] else Aborted(rest)
  {
    hide Aborted;
  }

  /** So a valid history stays valid through an assistant message with calls and the turn after it. */
  lemma TurnKeepsValid<W(!new)>(
    policy: Option<Escalation>, execute: Tools<W>, cancelled: nat -> bool, history: seq<Message>,
    text: string, recorded: seq<ToolCall>, t: Turn<W>, calls: seq<ToolCall>)
    requires AnswersOwnCall(execute) && Valid(history) && t.stop == Proceed
    requires t.messages == history + [AssistantMessage(text, recorded)] && Ids(recorded) == Ids(calls)
    ensures Valid(Sequential(policy, execute, cancelled, t, calls, 0).messages)
    ensures t.messages <= Sequential(policy, execute, cancelled, t, calls, 0).messages
  {
    hide Sequential, AnswersOwnCall, Valid;
    var results := EveryCallIsAnswered(policy, execute, cancelled, t, calls, 0);
    AnswersKeepValid(history, AssistantMessage(text, recorded), results, Ids(calls));
    assert t.messages + results == history + [AssistantMessage(text, recorded)] + results;
  }

  lemma AnswersKeepValid(history: seq<Message>, answer: Message, results: seq<Message>, ids: seq<string>)
    requires Valid(history) && answer.role == Assistant && Ids(answer.toolCalls) == ids && |results| == |ids|
    requires forall k | 0 <= k < |ids| :: ResultFor(results[k], ids[k])
    ensures Valid(history + [answer] + results)
  {
    var n, all := |history|, history + [answer] + results;
    ReadPrefix(SETTLED, history + [answer], results, n + 1);
    ReadPrefix(SETTLED, history, [answer], n);
    forall j | n + 1 <= j < n + 1 + |ids| ensures ResultFor(all[j], ids[j - n - 1]) {
      assert all[j] == results[j - n - 1];
    }
    AnswersPay(all, n + 1, ids, |ids|);
  }
}
