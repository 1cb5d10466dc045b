/** Parallel read-ahead (internal/agent/parallel_tools.go): which calls of a turn may run
    together, and what running them together returns. */
module ParallelTools {
  import opened Text
  import opened Transcript

  datatype Effect = Unknown | ReadOnly | ProcessRead | WorkspaceWrite | ExternalWrite | Interactive

  /** What the registry says of a tool for the arguments of one call; keys is None for a tool
      that declares no resource keys, decodes is false for malformed arguments. */
  datatype ToolInfo = ToolInfo(
    effect: Effect, threadSafe: bool, decodes: bool, autoAllowed: bool, keys: Option<seq<string>>)

  type Registry = ToolCall -> Option<ToolInfo>

  const SEQUENTIAL_TOOLS := {"ask_user", "request_permissions", "tool_search"}

  predicate ParallelSafe(registry: Registry, call: ToolCall) {
    && call.name !in SEQUENTIAL_TOOLS
    && registry(call).Some?
    && var info := registry(call).value;
    && info.effect == ReadOnly && info.threadSafe
    && info.decodes
    && info.autoAllowed
  }

  function ResourceKeys(registry: Registry, call: ToolCall): seq<string> {
    match registry(call)
    case None => []
    case Some(info) => if info.keys.None? || !info.decodes then [] else info.keys.value
  }

  ghost predicate Conflict(a: seq<string>, b: seq<string>) {
    exists key :: key != "" && key in a && key in b
  }

  method ResourceKeysConflict(a: seq<string>, b: seq<string>) returns (conflict: bool)
    ensures conflict <==> Conflict(a, b)
  {
    if |a| == 0 || |b| == 0 {
      return false;
    }
    var seen: set<string> := {};
    for i := 0 to |a|
      invariant seen == set key | key in a[..i] && key != ""
    {
      assert a[..i + 1] == a[..i] + [a[i]];
      if a[i] == "" {
        continue;
      }
      seen := seen + {a[i]};
    }
    assert a[..|a|] == a;
    for i := 0 to |b|
      invariant forall key | key in b[..i] && key != "" :: key !in a
    {
      assert b[..i + 1] == b[..i] + [b[i]];
      if b[i] == "" {
        continue;
      }
      if b[i] in seen {
        assert Conflict(a, b);
        return true;
      }
    }
    assert b[..|b|] == b;
    return false;
  }

  /** Call i uses a resource of an earlier call of the run that started at start. */
  ghost predicate Collides(registry: Registry, calls: seq<ToolCall>, start: nat, i: nat)
    requires start <= i < |calls|
  {
    exists j | start <= j < i :: Conflict(ResourceKeys(registry, calls[j]), ResourceKeys(registry, calls[i]))
  }

  /** The run [start, end): consecutive safe calls without a common resource. */
  ghost predicate ParallelRun(registry: Registry, calls: seq<ToolCall>, start: nat, end: nat) {
    && start <= end <= |calls|
    && forall i | start <= i < end :: ParallelSafe(registry, calls[i]) && !Collides(registry, calls, start, i)
  }

  /** Finds the longest run from start: its calls are safe and share no resource, and the call
      after it is unsafe or collides with one of them. */
  method ExtendParallelRun(registry: Registry, calls: seq<ToolCall>, start: nat) returns (end: nat)
    requires start <= |calls|
    ensures ParallelRun(registry, calls, start, end)
    ensures end < |calls| ==> !ParallelSafe(registry, calls[end]) || Collides(registry, calls, start, end)
  {
    if start >= |calls| || !ParallelSafe(registry, calls[start]) {
      return start;
    }
    end := start + 1;
    var keysWindow := [ResourceKeys(registry, calls[start])];
    while end < |calls|
      invariant start < end <= |calls|
      invariant |keysWindow| == end - start
      invariant forall j | start <= j < end :: keysWindow[j - start] == ResourceKeys(registry, calls[j])
      invariant ParallelRun(registry, calls, start, end)
    {
      if !ParallelSafe(registry, calls[end]) {
        break;
      }
      var nextKeys := ResourceKeys(registry, calls[end]);
      var conflict := false;
      for k := 0 to |keysWindow|
        invariant !conflict
        invariant forall j | start <= j < start + k :: !Conflict(ResourceKeys(registry, calls[j]), nextKeys)
      {
        conflict := ResourceKeysConflict(keysWindow[k], nextKeys);
        if conflict {
          assert Conflict(ResourceKeys(registry, calls[start + k]), nextKeys);
          break;
        }
      }
      if conflict {
        break;
      }
      keysWindow := keysWindow + [nextKeys];
      end := end + 1;
    }
  }

  /** One execution: what the call returned, whether it demands that the run aborts, and the
      workspace it left. */
  datatype Executed<R, W> = Executed(result: R, abort: bool, workspace: W)

  type Executor<!R, !W> = (W, ToolCall) -> Executed<R, W>

  /** Calls that may run together leave the workspace as they found it. */
  ghost predicate ReadsOnly<R, W(!new)>(registry: Registry, execute: Executor<R, W>) {
    forall w: W, call: ToolCall | ParallelSafe(registry, call) :: execute(w, call).workspace == w
  }

  /** Runs calls[start..end) in the order in which the goroutines happen to finish, each writing its
      own slot. Whatever that order is, slot k holds what call start + k returns on its own. */
  method ExecuteParallelReadBatch<R, W(!new)>(
    registry: Registry, execute: Executor<R, W>, workspace: W,
    calls: seq<ToolCall>, start: nat, end: nat, schedule: seq<nat>)
    returns (results: seq<Executed<R, W>>, after: W)
    requires ReadsOnly(registry, execute) && ParallelRun(registry, calls, start, end) && start < end
    requires forall index | index in schedule :: start <= index < end
    requires forall index | start <= index < end :: index in schedule
    ensures after == workspace
    ensures |results| == end - start
    ensures forall k | 0 <= k < end - start :: results[k] == execute(workspace, calls[start + k])
  {
    after := workspace;
    results := seq(end - start, _ => Executed(execute(workspace, calls[start]).result, false, workspace));
    for g := 0 to |schedule|
      invariant after == workspace && |results| == end - start
      invariant forall index | index in schedule[..g] && start <= index < end ::
        results[index - start] == execute(workspace, calls[index])
    {
      var index := schedule[g];
      assert index in schedule;
      var executed := execute(after, calls[index]);
      results := results[index - start := executed];
      after := executed.workspace;
      assert schedule[..g + 1] == schedule[..g] + [index];
    }
    assert schedule[..|schedule|] == schedule;
    forall k | 0 <= k < end - start ensures results[k] == execute(workspace, calls[start + k]) {
      assert start + k in schedule;
    }
  }
}
