/** Background diagnostics (internal/agent/async_diagnostics.go): the loop enqueues edited files and drains
    results while a worker goroutine checks one file at a time. Every section under the mutex is one step.
    The steps of the loop and of the workers interleave in any order; the loop itself enqueues nothing while it
    drains. */
module AsyncDiagnostics {
  import opened Text

  type Path = string

  /** Where a worker goroutine is: about to lock at the head of its loop, or checking a file since a moment. */
  datatype Phase = Idle | Checking(path: Path, began: nat)

  /** The agent loop is elsewhere, or waits in a drain for the worker it found when the drain began. Only the
      loop enqueues, so nothing is enqueued while it drains. */
  datatype Loop = Free | Draining(busy: Option<nat>)

  /** A drained block, when its check began, and when its file had last been enqueued by then. */
  datatype Report = Report(path: Path, block: string, began: nat, asked: nat, waiting: bool)

  /** The guarded fields, the live workers, the loop, whether the run was cancelled, and the history: a clock that
      ticks at every enqueued file and every started check, the last enqueue of each file, the start and the
      block of the last finished check of each file, and what was drained. */
  datatype State = State(queue: seq<Path>, queued: set<Path>, results: map<Path, string>, working: Option<nat>,
                         workers: map<nat, Phase>, spawned: nat, loop: Loop, cancelled: bool,
                         now: nat, asked: map<Path, nat>, checked: map<Path, nat>, found: map<Path, string>,
                         drained: seq<Report>)

  const NEW := State([], {}, map[], None, map[], 0, Free, false, 0, map[], map[], map[], [])

  /* The steps. */

  function Ask(s: State, path: Path): State {
    var asked := s.(now := s.now + 1, asked := s.asked[path := s.now]);
    if path in s.queued then asked
    else asked.(queue := s.queue + [path], queued := s.queued + {path}, results := s.results - {path})
  }

  function AskAll(s: State, abs: Path -> Path, files: seq<Path>, n: nat): State
    requires n <= |files|
  {
    if n == 0 then s else Ask(AskAll(s, abs, files, n - 1), abs(files[n - 1]))
  }

  function Spawn(s: State): State {
    if s.working == None && s.queue != []
    then s.(working := Some(s.spawned), workers := s.workers[s.spawned := Idle], spawned := s.spawned + 1)
    else s
  }

  function Enqueue(s: State, abs: Path -> Path, files: seq<Path>): State {
    if files == [] then s else Spawn(AskAll(s, abs, files, |files|))
  }

  predicate CanTake(s: State, id: nat) { id in s.workers && s.workers[id] == Idle }

  /** The worker takes the head of the queue, or leaves. */
  function Take(s: State, id: nat): State
    requires CanTake(s, id)
  {
    if s.queue == [] || s.cancelled then s.(working := None, workers := s.workers - {id})
    else
      var path := s.queue[0];
      s.(queue := s.queue[1..], queued := s.queued - {path},
         workers := s.workers[id := Checking(path, s.now)], now := s.now + 1)
  }

  predicate CanFinish(s: State, id: nat) { id in s.workers && s.workers[id].Checking? }

  /** The worker's check came back with a block, "" for none. */
  function Finish(s: State, id: nat, block: string): State
    requires CanFinish(s, id)
  {
    var path, start := s.workers[id].path, s.workers[id].began;
    s.(workers := s.workers[id := Idle],
       results := if block != "" then s.results[path := block] else s.results - {path},
       checked := s.checked[path := start], found := s.found[path := block])
  }

  /** The first section of a drain: which worker there is to wait for. */
  function Begin(s: State): State { s.(loop := Draining(s.working)) }

  /** The wait is over: there was nobody to wait for, or that worker is gone. */
  predicate Waited(s: State) { s.loop.Draining? && (s.loop.busy.Some? ==> s.loop.busy.value !in s.workers) }

  /** The paths of all results, in some order. */
  predicate Lists(results: map<Path, string>, paths: seq<Path>) {
    && (forall p | p in results :: p in paths)
    && (forall p | p in paths :: p in results)
    && (forall i, j | 0 <= i < j < |paths| :: paths[i] != paths[j])
  }

  function At(times: map<Path, nat>, p: Path): nat { if p in times then times[p] else 0 }

  function ReportOf(s: State, p: Path): Report
    requires p in s.results
  {
    Report(p, s.results[p], At(s.checked, p), At(s.asked, p), p in s.queue)
  }

  /** The second section of a drain: the results are consumed. */
  function Drain(s: State, paths: seq<Path>): State
    requires Lists(s.results, paths)
  {
    s.(loop := Free, results := map[], drained := s.drained + seq(|paths|, i requires 0 <= i < |paths| =>
      assert paths[i] in paths; ReportOf(s, paths[i])))
  }

  datatype Step =
    | Enqueued(files: seq<Path>)
    | Taken(id: nat)
    | Finished(id: nat, block: string)
    | DrainBegun
    | DrainEnded(paths: seq<Path>)
    | DrainGaveUp
    | Cancelled

  /** A step that is not possible where it stands changes nothing. */
  function Apply(s: State, abs: Path -> Path, step: Step): State {
    match step
    case Enqueued(files) => if s.loop.Free? then Enqueue(s, abs, files) else s
    case Taken(id) => if CanTake(s, id) then Take(s, id) else s
    case Finished(id, block) => if CanFinish(s, id) then Finish(s, id, block) else s
    case DrainBegun => if s.loop.Free? then Begin(s) else s
    case DrainEnded(paths) => if Waited(s) && Lists(s.results, paths) then Drain(s, paths) else s
    case DrainGaveUp => if s.loop.Draining? && s.loop.busy.Some? then s.(loop := Free) else s
    case Cancelled => s.(cancelled := true)
  }

  function Run(abs: Path -> Path, steps: seq<Step>): State {
    if steps == [] then NEW else Apply(Run(abs, steps[..|steps| - 1]), abs, steps[|steps| - 1])
  }

  /* What every interleaving keeps. */

  /** The queue holds each queued file once. */
  ghost predicate QueueOk(s: State) {
    Distinct(s.queue) && (forall p :: p in s.queued <==> p in s.queue) && (forall p | p in s.queue :: p in s.asked)
  }

  /** At most one worker lives, the one that is announced. */
  ghost predicate WorkersOk(s: State) { forall id :: id in s.workers <==> s.working == Some(id) }

  /** Without cancellation no worker is missing: none means that nothing waits. */
  ghost predicate Staffed(s: State) { !s.cancelled && s.working == None ==> s.queue == [] }

  predicate BeingChecked(s: State, p: Path) {
    && s.working.Some? && s.working.value in s.workers
    && s.workers[s.working.value].Checking? && s.workers[s.working.value].path == p
  }

  /** A running check is up to date exactly when its file does not wait in the queue. */
  ghost predicate FlightOk(s: State) {
    forall p | BeingChecked(s, p) :: p in s.asked && s.workers[s.working.value].began < s.now
      && (s.asked[p] < s.workers[s.working.value].began <==> p !in s.queue)
  }

  /** The last finished check of a file is up to date exactly when no newer one is due or running. */
  ghost predicate ChecksOk(s: State) {
    && (forall p | p in s.asked :: s.asked[p] < s.now)
    && (forall p | p in s.checked :: p in s.asked && p in s.found && s.checked[p] < s.now
         && (s.asked[p] < s.checked[p] <==> p !in s.queue && !BeingChecked(s, p)))
  }

  /** Every enqueued file waits, is being checked, or was checked. */
  ghost predicate NoneForgotten(s: State) {
    forall p | p in s.asked :: p in s.queue || BeingChecked(s, p) || p in s.checked
  }

  ghost predicate Reported(s: State, p: Path)
    requires p in s.checked && p in s.found
  {
    exists r :: r in s.drained && r.path == p && r.block == s.found[p] && r.began == s.checked[p]
  }

  /** The results are blocks of last checks. */
  ghost predicate BlocksOk(s: State) {
    forall p | p in s.results :: p in s.checked && p in s.found && s.results[p] == s.found[p]
  }

  /** No block of an up-to-date check is lost. */
  ghost predicate NoneLost(s: State) {
    forall p | p in s.checked && p in s.found && s.found[p] != "" && p in s.asked && s.asked[p] < s.checked[p] ::
      p in s.results || Reported(s, p)
  }

  ghost predicate ResultsOk(s: State) { BlocksOk(s) && NoneLost(s) }

  /** A drained block is of a check that began after the last enqueue of its file, exactly when the file was
      not waiting in the queue; and without cancellation none was. */
  ghost predicate DrainedOk(s: State) {
    forall r | r in s.drained :: (r.asked < r.began <==> !r.waiting) && (!s.cancelled ==> !r.waiting)
  }

  ghost predicate Core(s: State) {
    QueueOk(s) && WorkersOk(s) && FlightOk(s) && ChecksOk(s) && NoneForgotten(s) && ResultsOk(s) && DrainedOk(s)
  }

  /** While the loop drains, no worker other than the one it waits for comes up. */
  ghost predicate LoopOk(s: State) { s.loop.Draining? ==> s.working == None || s.working == s.loop.busy }

  ghost predicate Inv(s: State) { Core(s) && Staffed(s) && LoopOk(s) }

  lemma AskMovesNoCheck(s: State, path: Path)
    ensures forall p :: BeingChecked(Ask(s, path), p) <==> BeingChecked(s, p)
    ensures forall p :: p in Ask(s, path).queue <==> p in s.queue || (p == path && path !in s.queued)
  {
  }

  lemma AskKeeps(s: State, path: Path)
    requires Core(s)
    ensures Core(Ask(s, path))
  {
    hide QueueOk, FlightOk, ChecksOk, NoneForgotten, ResultsOk;
    AskQueues(s, path);
    AskKeepsFlight(s, path);
    AskKeepsChecks(s, path);
    AskKeepsResults(s, path);
  }

  lemma AskKeepsChecks(s: State, path: Path)
    requires QueueOk(s) && ChecksOk(s) && NoneForgotten(s)
    ensures ChecksOk(Ask(s, path)) && NoneForgotten(Ask(s, path))
  {
    hide BeingChecked, Distinct;
    AskMovesNoCheck(s, path);
  }

  lemma AskQueues(s: State, path: Path)
    requires QueueOk(s)
    ensures QueueOk(Ask(s, path))
  {
  }

  lemma AskKeepsFlight(s: State, path: Path)
    requires QueueOk(s) && FlightOk(s)
    ensures FlightOk(Ask(s, path))
  {
    AskMovesNoCheck(s, path);
  }

  lemma AskKeepsResults(s: State, path: Path)
    requires ResultsOk(s) && ChecksOk(s)
    ensures ResultsOk(Ask(s, path))
  {
    hide ChecksOk, NoneLost;
    AskLosesNone(s, path);
  }

  lemma AskLosesNone(s: State, path: Path)
    requires NoneLost(s) && ChecksOk(s)
    ensures NoneLost(Ask(s, path))
  {
    hide ChecksOk, BeingChecked, Reported;
    var r := Ask(s, path);
    AskedNow(s, path);
    forall p | p in r.checked && p in r.found && r.found[p] != "" && p in r.asked && r.asked[p] < r.checked[p]
      ensures p in r.results || Reported(r, p)
    {
      assert p != path && s.asked[p] < s.checked[p];
      StillReported(s, path, p);
    }
  }

  lemma StillReported(s: State, path: Path, p: Path)
    requires p in s.checked && p in s.found
    ensures Reported(s, p) ==> Reported(Ask(s, path), p)
  {
  }

  lemma AskedNow(s: State, path: Path)
    requires ChecksOk(s)
    ensures path in s.checked ==> s.checked[path] < s.now
  {
  }

  lemma TakeKeeps(s: State, id: nat)
    requires Inv(s) && CanTake(s, id)
    ensures Inv(Take(s, id))
  {
    var r := Take(s, id);
    if s.queue != [] && !s.cancelled {
      assert s.queue == [s.queue[0]] + s.queue[1..];
      assert s.queue[0] in s.queue && s.queue[0] !in r.queue;
      assert forall p :: p in r.queue <==> p in s.queue && p != s.queue[0];
      assert QueueOk(r) && WorkersOk(r);
      assert forall p :: BeingChecked(r, p) <==> p == s.queue[0];
      assert forall p :: !BeingChecked(s, p);
    } else {
      assert forall p :: !BeingChecked(s, p) && !BeingChecked(r, p);
    }
  }

  lemma FinishKeeps(s: State, id: nat, block: string)
    requires Inv(s) && CanFinish(s, id)
    ensures Inv(Finish(s, id, block))
  {
    var r, path := Finish(s, id, block), s.workers[id].path;
    assert BeingChecked(s, path);
    assert forall p :: !BeingChecked(r, p);
    assert forall p :: BeingChecked(s, p) <==> p == path;
    assert ChecksOk(r);
    assert ResultsOk(r);
  }

  lemma DrainKeeps(s: State, paths: seq<Path>)
    requires Inv(s) && Waited(s) && Lists(s.results, paths)
    ensures Inv(Drain(s, paths))
  {
    assert s.working == None;
    DrainLosesNone(s, paths);
    DrainedAreFresh(s, paths);
    hide Distinct, NoneLost, DrainedOk, Lists;
    var r := Drain(s, paths);
    assert forall p :: BeingChecked(r, p) <==> BeingChecked(s, p);
  }

  lemma DrainLosesNone(s: State, paths: seq<Path>)
    requires Lists(s.results, paths) && BlocksOk(s) && NoneLost(s)
    ensures NoneLost(Drain(s, paths))
  {
    var r := Drain(s, paths);
    forall p | p in s.results ensures ReportOf(s, p) in r.drained {
      var i :| 0 <= i < |paths| && paths[i] == p;
      assert r.drained[|s.drained| + i] == ReportOf(s, p);
    }
  }

  lemma DrainedAreFresh(s: State, paths: seq<Path>)
    requires Lists(s.results, paths) && s.working == None
    requires BlocksOk(s) && ChecksOk(s) && DrainedOk(s) && Staffed(s)
    ensures DrainedOk(Drain(s, paths))
  {
    forall p | p in s.results ensures ReportOf(s, p).asked < ReportOf(s, p).began <==> !ReportOf(s, p).waiting {
      assert !BeingChecked(s, p);
    }
  }

  lemma {:induction false} AskAllKeeps(s: State, abs: Path -> Path, files: seq<Path>, n: nat)
    requires Core(s) && n <= |files|
    ensures Core(AskAll(s, abs, files, n)) && AskAll(s, abs, files, n).loop == s.loop
  {
    hide Core;
    if n > 0 {
      AskAllKeeps(s, abs, files, n - 1);
      AskKeeps(AskAll(s, abs, files, n - 1), abs(files[n - 1]));
    }
  }

  lemma SpawnKeeps(s: State)
    requires Core(s) && s.loop.Free?
    ensures Inv(Spawn(s))
  {
    var r := Spawn(s);
    assert forall p :: BeingChecked(r, p) <==> BeingChecked(s, p);
    assert ResultsOk(r) by {
      hide ChecksOk, FlightOk, QueueOk;
      assert forall p | p in s.checked && p in s.found && Reported(s, p) :: Reported(r, p);
    }
    hide ResultsOk, Distinct;
  }

  lemma CancelKeeps(s: State)
    requires Inv(s)
    ensures Inv(s.(cancelled := true))
  {
    LoopKeeps(s, s.loop, true);
  }

  lemma LoopKeeps(s: State, loop: Loop, cancelled: bool)
    requires Inv(s) && (loop.Draining? ==> s.working == None || s.working == loop.busy) && (s.cancelled ==> cancelled)
    ensures Inv(s.(loop := loop, cancelled := cancelled))
  {
    var r := s.(loop := loop, cancelled := cancelled);
    assert forall p :: BeingChecked(r, p) <==> BeingChecked(s, p);
    assert forall p | p in s.checked && p in s.found && Reported(s, p) :: Reported(r, p);
  }

  lemma ApplyKeeps(s: State, abs: Path -> Path, step: Step)
    requires Inv(s)
    ensures Inv(Apply(s, abs, step))
  {
    hide Core, Staffed, Take, Finish, Drain, Ask, Spawn;
    match step
    case Enqueued(files) =>
      if s.loop.Free? {
        AskAllKeeps(s, abs, files, |files|);
        SpawnKeeps(AskAll(s, abs, files, |files|));
      }
    case Taken(id) =>
      if CanTake(s, id) {
        TakeKeeps(s, id);
      }
    case Finished(id, block) =>
      if CanFinish(s, id) {
        FinishKeeps(s, id, block);
      }
    case DrainBegun => LoopKeeps(s, Draining(s.working), s.cancelled);
    case DrainEnded(paths) =>
      if Waited(s) && Lists(s.results, paths) {
        DrainKeeps(s, paths);
      }
    case DrainGaveUp => LoopKeeps(s, Free, s.cancelled);
    case Cancelled => CancelKeeps(s);
  }

  /** Every interleaving keeps the invariant. */
  lemma {:induction false} RunKeeps(abs: Path -> Path, steps: seq<Step>)
    ensures Inv(Run(abs, steps))
  {
    hide Apply;
    if steps != [] {
      hide Core, Staffed, LoopOk;
      RunKeeps(abs, steps[..|steps| - 1]);
      ApplyKeeps(Run(abs, steps[..|steps| - 1]), abs, steps[|steps| - 1]);
    }
  }

  lemma AskStays(s: State, abs: Path -> Path, files: seq<Path>, n: nat)
    requires n <= |files|
    ensures AskAll(s, abs, files, n).cancelled == s.cancelled
  {
  }

  lemma OnlyCancelCancels(s: State, abs: Path -> Path, step: Step)
    requires !s.cancelled && step != Cancelled
    ensures !Apply(s, abs, step).cancelled
  {
    if step.Enqueued? {
      AskStays(s, abs, step.files, |step.files|);
    }
  }

  lemma {:induction false} NeverCancelled(abs: Path -> Path, steps: seq<Step>)
    requires Cancelled !in steps
    ensures !Run(abs, steps).cancelled
  {
    hide Apply;
    if steps != [] {
      NeverCancelled(abs, steps[..|steps| - 1]);
      OnlyCancelCancels(Run(abs, steps[..|steps| - 1]), abs, steps[|steps| - 1]);
    }
  }

  /** A drain that has waited meets no worker, although its second section does not look: nothing is enqueued
      while the loop drains, so none came after the one it waited for. */
  lemma DrainsAreQuiet(abs: Path -> Path, steps: seq<Step>)
    requires Waited(Run(abs, steps))
    ensures Run(abs, steps).working == None && Run(abs, steps).workers == map[]
  {
    RunKeeps(abs, steps);
    var s := Run(abs, steps);
    assert forall id :: id !in s.workers;
  }

  /** In every interleaving a drained block comes from a check that began after its file's last enqueue
      exactly when the file did not wait in the queue when it was drained. */
  lemma DrainedIsFresh(abs: Path -> Path, steps: seq<Step>)
    ensures forall r | r in Run(abs, steps).drained :: r.asked < r.began <==> !r.waiting
    ensures Cancelled !in steps ==> forall r | r in Run(abs, steps).drained :: r.asked < r.began
  {
    RunKeeps(abs, steps);
    if Cancelled !in steps {
      NeverCancelled(abs, steps);
    }
  }

  /** Without cancellation, once no worker is left, every file that was ever enqueued has been checked after
      its last enqueue, and what that check found is a result or was drained. */
  lemma NothingIsForgotten(abs: Path -> Path, steps: seq<Step>, p: Path)
    requires Cancelled !in steps && Run(abs, steps).working == None && p in Run(abs, steps).asked
    ensures var s := Run(abs, steps);
      && p in s.checked && p in s.found && s.asked[p] < s.checked[p]
      && (s.found[p] != "" ==> (p in s.results && s.results[p] == s.found[p]) || Reported(s, p))
  {
    RunKeeps(abs, steps);
    NeverCancelled(abs, steps);
    assert !BeingChecked(Run(abs, steps), p);
  }

  /* No check is reported twice. */

  ghost predicate OnlyNewer(s: State) {
    forall p | p in s.checked && BeingChecked(s, p) :: s.checked[p] < s.workers[s.working.value].began
  }

  /** What was drained of a file is of earlier checks than what will be. */
  ghost predicate OnceOk(s: State) {
    && (forall r | r in s.drained :: r.path in s.checked && r.began <= s.checked[r.path])
    && (forall r | r in s.drained && r.path in s.results && r.path in s.checked :: r.began < s.checked[r.path])
    && (forall i, j | 0 <= i < j < |s.drained| && s.drained[i].path == s.drained[j].path ::
          s.drained[i].began < s.drained[j].began)
  }

  lemma {:induction false} AskAllOnce(s: State, abs: Path -> Path, files: seq<Path>, n: nat)
    requires n <= |files| && OnlyNewer(s) && OnceOk(s)
    ensures OnlyNewer(AskAll(s, abs, files, n)) && OnceOk(AskAll(s, abs, files, n))
  {
    if n > 0 {
      AskAllOnce(s, abs, files, n - 1);
      hide AskAll;
    }
  }

  lemma SpawnOnce(s: State)
    requires WorkersOk(s) && OnlyNewer(s) && OnceOk(s)
    ensures OnlyNewer(Spawn(s)) && OnceOk(Spawn(s))
  {
    hide OnceOk;
    SpawnReportsNothing(s);
  }

  lemma SpawnReportsNothing(s: State)
    ensures OnceOk(Spawn(s)) <==> OnceOk(s)
  {
  }

  lemma TakeOnce(s: State, id: nat)
    requires WorkersOk(s) && ChecksOk(s) && CanTake(s, id) && OnceOk(s)
    ensures OnlyNewer(Take(s, id)) && OnceOk(Take(s, id))
  {
  }

  lemma FinishOnce(s: State, id: nat, block: string)
    requires WorkersOk(s) && CanFinish(s, id) && OnlyNewer(s) && OnceOk(s)
    ensures OnlyNewer(Finish(s, id, block)) && OnceOk(Finish(s, id, block))
  {
    assert BeingChecked(s, s.workers[id].path);
  }

  lemma DrainOnce(s: State, paths: seq<Path>)
    requires Lists(s.results, paths) && BlocksOk(s) && OnceOk(s)
    ensures OnceOk(Drain(s, paths))
  {
    var r := Drain(s, paths);
    forall i | |s.drained| <= i < |r.drained|
      ensures r.drained[i].path == paths[i - |s.drained|] && r.drained[i].path in s.results
        && r.drained[i].began == s.checked[r.drained[i].path]
    {
      assert paths[i - |s.drained|] in paths;
    }
  }

  lemma ApplyOnce(s: State, abs: Path -> Path, step: Step)
    requires Inv(s) && OnlyNewer(s) && OnceOk(s)
    ensures OnlyNewer(Apply(s, abs, step)) && OnceOk(Apply(s, abs, step))
  {
    hide OnceOk, QueueOk, FlightOk, ChecksOk, NoneForgotten, ResultsOk, DrainedOk, Take, Finish, Spawn;
    match step
    case Enqueued(files) =>
      if s.loop.Free? {
        AskAllOnce(s, abs, files, |files|);
        AskAllKeeps(s, abs, files, |files|);
        SpawnOnce(AskAll(s, abs, files, |files|));
      }
    case Taken(id) =>
      if CanTake(s, id) {
        TakeOnce(s, id);
      }
    case Finished(id, block) =>
      if CanFinish(s, id) {
        FinishOnce(s, id, block);
      }
    case DrainEnded(paths) =>
      if Waited(s) && Lists(s.results, paths) {
        DrainedOnce(s, paths);
      }
    case DrainBegun => LoopReportsNothing(s, Draining(s.working), s.cancelled);
    case DrainGaveUp => LoopReportsNothing(s, Free, s.cancelled);
    case Cancelled => LoopReportsNothing(s, s.loop, true);
  }

  lemma DrainedOnce(s: State, paths: seq<Path>)
    requires Inv(s) && Lists(s.results, paths) && OnlyNewer(s) && OnceOk(s)
    ensures OnlyNewer(Drain(s, paths)) && OnceOk(Drain(s, paths))
  {
    DrainOnce(s, paths);
  }

  lemma LoopReportsNothing(s: State, loop: Loop, cancelled: bool)
    ensures OnceOk(s.(loop := loop, cancelled := cancelled)) <==> OnceOk(s)
    ensures OnlyNewer(s.(loop := loop, cancelled := cancelled)) <==> OnlyNewer(s)
  {
  }

  lemma {:induction false} RunOnce(abs: Path -> Path, steps: seq<Step>)
    ensures OnlyNewer(Run(abs, steps)) && OnceOk(Run(abs, steps))
  {
    hide Apply, Inv;
    if steps != [] {
      hide OnlyNewer, OnceOk;
      RunOnce(abs, steps[..|steps| - 1]);
      RunKeeps(abs, steps[..|steps| - 1]);
      ApplyOnce(Run(abs, steps[..|steps| - 1]), abs, steps[|steps| - 1]);
    }
  }

  /** In every interleaving a check is reported at most once, and what is reported of a file later is of a later
      check. */
  lemma EachCheckIsReportedOnce(abs: Path -> Path, steps: seq<Step>, i: nat, j: nat)
    requires i < j < |Run(abs, steps).drained| && Run(abs, steps).drained[i].path == Run(abs, steps).drained[j].path
    ensures Run(abs, steps).drained[i].began < Run(abs, steps).drained[j].began
  {
    RunOnce(abs, steps);
  }

  /** A drain that found no worker to wait for ends in no other way than by taking all results. */
  lemma IdleDrainTakesAll(s: State, abs: Path -> Path, step: Step)
    requires s.loop == Draining(None) && Apply(s, abs, step).loop != s.loop
    ensures step.DrainEnded? && Apply(s, abs, step).results == map[]
    ensures forall p | p in s.results ::
      exists r :: r in Apply(s, abs, step).drained && r.path == p && r.block == s.results[p]
  {
    var r := Apply(s, abs, step);
    forall p | p in s.results ensures exists r' :: r' in r.drained && r'.path == p && r'.block == s.results[p] {
      var i :| 0 <= i < |step.paths| && step.paths[i] == p;
      assert r.drained[|s.drained| + i] == ReportOf(s, p);
    }
  }

  lemma {:induction false} AskAllClears(s: State, abs: Path -> Path, files: seq<Path>, n: nat, p: Path)
    requires n <= |files|
    ensures var r := AskAll(s, abs, files, n);
      var edited := p !in s.queued && exists i :: 0 <= i < n && abs(files[i]) == p;
      && s.queue <= r.queue && (p in r.queued <==> p in s.queued || edited)
      && (p in r.results <==> p in s.results && !edited) && (p in r.results ==> r.results[p] == s.results[p])
  {
    if n > 0 {
      AskAllClears(s, abs, files, n - 1, p);
      hide AskAll;
    }
  }

  /** An edited file that was not waiting waits from then on, behind those that were, and a block about it that was
      not drained is gone; the blocks of other files stay. */
  lemma EditedFilesLoseTheirBlocks(s: State, abs: Path -> Path, files: seq<Path>, p: Path)
    ensures var r := Enqueue(s, abs, files);
      var edited := p !in s.queued && exists i :: 0 <= i < |files| && abs(files[i]) == p;
      && s.queue <= r.queue && (p in r.queued <==> p in s.queued || edited)
      && (p in r.results <==> p in s.results && !edited) && (p in r.results ==> r.results[p] == s.results[p])
  {
    AskAllClears(s, abs, files, |files|, p);
  }

  /** The queue has no duplicates and is the queued set; at most one check runs; and without cancellation no
      worker means an empty queue. */
  lemma QueueAndWorker(abs: Path -> Path, steps: seq<Step>)
    ensures var s := Run(abs, steps);
      && Distinct(s.queue) && (forall p :: p in s.queued <==> p in s.queue)
      && (forall i, j | i in s.workers && j in s.workers :: i == j)
      && (Cancelled !in steps && s.working == None ==> s.queue == [])
  {
    RunKeeps(abs, steps);
    if Cancelled !in steps {
      NeverCancelled(abs, steps);
    }
  }

  function Busy(p: Path): State { Take(Spawn(Ask(NEW, p)), 0) }

  function Edited(p: Path): State { Spawn(Ask(Busy(p), p)).(cancelled := true) }

  lemma BusyIs(p: Path)
    ensures CanTake(Spawn(Ask(NEW, p)), 0)
    ensures Busy(p)
      == NEW.(working := Some(0), workers := map[0 := Checking(p, 1)], spawned := 1, now := 2, asked := map[p := 0])
  {
    assert NEW.asked[p := 0] == map[p := 0];
  }

  lemma EditedIs(p: Path, block: string)
    requires block != ""
    ensures CanFinish(Edited(p), 0)
    ensures var stored := Finish(Edited(p), 0, block);
      && CanTake(stored, 0) && Take(stored, 0).working == None && Take(stored, 0).loop == Free
         && Take(stored, 0).results == map[p := block]
      && p in stored.asked && stored.asked[p] == 2 && p in stored.checked && stored.checked[p] == 1
  {
    BusyIs(p);
    var b := Busy(p);
    var edited := b.(queue := [p], queued := {p}, now := 3, asked := map[p := 2]);
    assert Ask(b, p) == edited by {
      assert b.asked[p := 2] == map[p := 2];
      assert b.results - {p} == map[];
    }
    assert Edited(p) == edited.(cancelled := true);
    assert NEW.results[p := block] == map[p := block];
  }

  lemma RunSnoc(abs: Path -> Path, steps: seq<Step>, step: Step)
    ensures Run(abs, steps + [step]) == Apply(Run(abs, steps), abs, step)
  {
    assert (steps + [step])[..|steps|] == steps;
  }

  /** With cancellation a stale block can be drained: the file is edited again while its check runs, the run
      is cancelled, the check stores what it found, and the worker leaves with the file still waiting. */
  lemma CancellationDrainsStale(abs: Path -> Path, file: Path, block: string)
    requires block != ""
    ensures exists steps, r :: r in Run(abs, steps).drained && r.asked >= r.began
  {
    hide Run, Ask, Spawn, Take, Finish, Drain;
    var p := abs(file);
    var steps := [Enqueued([file]), Taken(0), Enqueued([file]), Cancelled];
    assert Run(abs, steps) == Edited(p) by { RunsToEdited(abs, file); }
    RunSnoc(abs, steps, Finished(0, block));
    RunSnoc(abs, steps + [Finished(0, block)], Taken(0));
    EditedIs(p, block);
    var last := Take(Finish(Edited(p), 0, block), 0);
    RunSnoc(abs, steps + [Finished(0, block)] + [Taken(0)], DrainBegun);
    RunSnoc(abs, steps + [Finished(0, block)] + [Taken(0)] + [DrainBegun], DrainEnded([p]));
    TakeLeaves(Finish(Edited(p), 0, block));
    DrainOne(Begin(last), p);
    var all := steps + [Finished(0, block)] + [Taken(0)] + [DrainBegun] + [DrainEnded([p])];
    assert ReportOf(Begin(last), p) in Run(abs, all).drained
      && ReportOf(Begin(last), p).asked >= ReportOf(Begin(last), p).began;
  }

  lemma TakeLeaves(s: State)
    requires CanTake(s, 0)
    ensures Take(s, 0).asked == s.asked && Take(s, 0).checked == s.checked
  {
  }

  lemma DrainOne(s: State, p: Path)
    requires s.results.Keys == {p}
    ensures Lists(s.results, [p]) && ReportOf(s, p) in Drain(s, [p]).drained
  {
    assert [p][0] == p;
    assert Drain(s, [p]).drained[|s.drained|] == ReportOf(s, p);
  }

  lemma RunsToEdited(abs: Path -> Path, file: Path)
    ensures Run(abs, [Enqueued([file]), Taken(0), Enqueued([file]), Cancelled]) == Edited(abs(file))
  {
    hide Ask, Spawn, Take, Run, Enqueue;
    var ask := Enqueued([file]);
    var s1, s2, s3 := [ask], [ask, Taken(0)], [ask, Taken(0), ask];
    BusyIs(abs(file));
    EnqueueOne(NEW, abs, file);
    EnqueueOne(Busy(abs(file)), abs, file);
    RunNone(abs);
    RunSnoc(abs, [], ask);
    RunSnoc(abs, s1, Taken(0));
    RunSnoc(abs, s2, ask);
    RunSnoc(abs, s3, Cancelled);
    assert [] + [ask] == s1 && s1 + [Taken(0)] == s2 && s2 + [ask] == s3;
    assert s3 + [Cancelled] == [ask, Taken(0), ask, Cancelled];
  }

  lemma RunNone(abs: Path -> Path)
    ensures Run(abs, []) == NEW
  {
  }

  lemma EnqueueOne(s: State, abs: Path -> Path, file: Path)
    ensures Enqueue(s, abs, [file]) == Spawn(Ask(s, abs(file)))
  {
    assert AskAll(s, abs, [file], 0) == s;
    assert AskAll(s, abs, [file], 1) == Ask(AskAll(s, abs, [file], 0), abs(file));
  }

  /* The guarded sections. */

  class Diagnostics {
    const abs: Path -> Path
    var queue: seq<Path>
    var queued: set<Path>
    var results: map<Path, string>
    var working: Option<nat>
    var spawned: nat
    var cancelled: bool
    ghost var history: State

    /** The fields, with the workers, the clock and the history behind them. */
    ghost function Abstract(): State
      reads this
    {
      history.(queue := queue, queued := queued, results := results,
               working := working, spawned := spawned, cancelled := cancelled)
    }

    constructor (abs: Path -> Path)
      ensures Abstract() == NEW && this.abs == abs
    {
      this.abs := abs;
      queue, queued, results, working, spawned, cancelled := [], {}, map[], None, 0, false;
      history := NEW;
    }

    method EnqueueFiles(files: seq<Path>)
      modifies this
      ensures Abstract() == Enqueue(old(Abstract()), abs, files)
    {
      if |files| == 0 {
        return;
      }
      for i := 0 to |files|
        invariant Abstract() == AskAll(old(Abstract()), abs, files, i)
      {
        var path := abs(files[i]);
        history := history.(now := history.now + 1, asked := history.asked[path := history.now]);
        if path in queued {
          continue;
        }
        queued := queued + {path};
        results := results - {path};
        queue := queue + [path];
      }
      if working == None && |queue| > 0 {
        working := Some(spawned);
        history := history.(workers := history.workers[spawned := Idle]);
        spawned := spawned + 1;
      }
    }

    /** The section at the head of worker id's loop; None when it leaves. */
    method TakeNext(id: nat) returns (path: Option<Path>)
      requires CanTake(Abstract(), id)
      modifies this
      ensures Abstract() == Take(old(Abstract()), id)
      ensures path == if old(queue) == [] || old(cancelled) then None else Some(old(queue)[0])
    {
      if |queue| == 0 || cancelled {
        working := None;
        history := history.(workers := history.workers - {id});
        return None;
      }
      path := Some(queue[0]);
      queue := queue[1..];
      queued := queued - {path.value};
      history := history.(workers := history.workers[id := Checking(path.value, history.now)], now := history.now + 1);
    }

    /** The section behind worker id's check of path. */
    method Store(id: nat, path: Path, block: string)
      requires CanFinish(Abstract(), id) && history.workers[id].path == path
      modifies this
      ensures Abstract() == Finish(old(Abstract()), id, block)
    {
      if block != "" {
        results := results[path := block];
      } else {
        results := results - {path};
      }
      history := history.(workers := history.workers[id := Idle],
                          checked := history.checked[path := history.workers[id].began],
                          found := history.found[path := block]);
    }

    /** The first section of drainWithin: the worker to wait for, if any. */
    method DrainBegin() returns (busy: Option<nat>)
      requires history.loop.Free?
      modifies this`history
      ensures Abstract() == Begin(old(Abstract())) && busy == working
    {
      busy := working;
      history := history.(loop := Draining(busy));
    }

    /** The second section of drainWithin, behind the wait; paths is the sorted list of the results. */
    method Consume(paths: seq<Path>) returns (blocks: seq<string>)
      requires Waited(Abstract()) && Lists(results, paths)
      modifies this
      ensures Abstract() == Drain(old(Abstract()), paths)
      ensures |blocks| == |paths|
      ensures forall i | 0 <= i < |paths| :: paths[i] in old(results) && blocks[i] == old(results)[paths[i]]
    {
      blocks := [];
      for i := 0 to |paths|
        invariant |blocks| == i && forall k | 0 <= k < i :: paths[k] in results && blocks[k] == results[paths[k]]
      {
        assert paths[i] in paths;
        blocks := blocks + [results[paths[i]]];
      }
      history := Drain(Abstract(), paths);
      results := map[];
    }
  }
}
