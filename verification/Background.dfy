/** Background tasks (internal/background/manager.go): Kill runs in four sections under the lock with the
    signal between them, while exits, process ids and other kills interleave and writes to disk fail. */
module Background {
  import opened Text

  datatype Status = Running | Completed | Error | Killed

  /** A task as it is kept in memory and in its metadata file; a zero completion time is None. */
  datatype Task = Task(kind: string, pid: nat, status: Status, exitCode: int, completedAt: Option<nat>)

  type Id = string

  /** How a Kill ended: an error before it marked the task, nothing to kill, killed, or not killed after all
      with the task put back or not. */
  datatype Ending = NoTarget | NothingToDo | MarkFailed | Success | NotKilled(restored: bool)

  /** Where a Kill call is: before one of its sections, or ended. */
  datatype Phase =
    | Targeting
    | Checking(pid: nat)
    | Marking(pid: nat)
    | Signalling(pid: nat)
    | Restoring(pid: nat)
    | Ended(ending: Ending)

  datatype Killer = Killer(id: Id, phase: Phase)

  /** A signal that was sent: to which task's process, and by which Kill call. */
  datatype Signal = Signal(id: Id, pid: nat, caller: nat)

  /** The tasks in memory and on disk, the Kill calls, and the signals sent so far with the marks before them. */
  datatype State = State(tasks: map<Id, Task>, disk: map<Id, Task>, killers: seq<Killer>, marks: seq<Signal>,
                         signals: seq<Signal>)

  const NEW := State(map[], map[], [], [], [])

  /* The sections under the lock. The flag says whether the write of the metadata file succeeds. */

  predicate IsLetterOrDigit(c: char) { 'a' <= c <= 'z' || 'A' <= c <= 'Z' || '0' <= c <= '9' }

  predicate ValidId(id: Id) {
    0 < |id| <= 128 && IsLetterOrDigit(id[0])
    && forall i | 0 <= i < |id| :: IsLetterOrDigit(id[i]) || id[i] == '_' || id[i] == '-'
  }

  const LOWER := "abcdefghijklmnopqrstuvwxyz"
  const UPPER := "ABCDEFGHIJKLMNOPQRSTUVWXYZ"
  const DIGIT := "0123456789"

  lemma LowerLetters(c: char)
    ensures 'a' <= c <= 'z' <==> c in LOWER
  {
    assert 'a' <= c <= 'z' ==> LOWER[c as int - 'a' as int] == c;
  }

  lemma UpperLetters(c: char)
    ensures 'A' <= c <= 'Z' <==> c in UPPER
  {
    assert 'A' <= c <= 'Z' ==> UPPER[c as int - 'A' as int] == c;
  }

  lemma DecimalDigits(c: char)
    ensures '0' <= c <= '9' <==> c in DIGIT
  {
    assert '0' <= c <= '9' ==> DIGIT[c as int - '0' as int] == c;
  }

  /** A task id: up to 128 letters, digits, underscores and hyphens, the first a letter or digit. */
  predicate IdAllowed(id: Id) {
    && 1 <= |id| <= 128 && id[0] in LOWER + UPPER + DIGIT
    && forall i | 0 <= i < |id| :: id[i] in LOWER + UPPER + DIGIT + "_-"
  }

  lemma ValidIdIsAllowed(id: Id)
    ensures ValidId(id) <==> IdAllowed(id)
  {
    forall i | 0 <= i < |id|
      ensures id[i] in LOWER + UPPER + DIGIT <==> IsLetterOrDigit(id[i])
      ensures id[i] in LOWER + UPPER + DIGIT + "_-" <==> IsLetterOrDigit(id[i]) || id[i] == '_' || id[i] == '-'
    {
      LowerLetters(id[i]);
      UpperLetters(id[i]);
      DecimalDigits(id[i]);
      InJoined(id[i]);
    }
    hide IsLetterOrDigit, LOWER, UPPER, DIGIT;
  }

  lemma InJoined(c: char)
    ensures c in LOWER + UPPER + DIGIT <==> c in LOWER || c in UPPER || c in DIGIT
    ensures c in LOWER + UPPER + DIGIT + "_-" <==> c in LOWER || c in UPPER || c in DIGIT || c == '_' || c == '-'
  {
    hide LOWER, UPPER, DIGIT;
  }

  /** persistTaskLocked, and then the assignment to memory. */
  function Store(s: State, id: Id, task: Task, written: bool): State {
    if written then s.(tasks := s.tasks[id := task], disk := s.disk[id := task]) else s
  }

  function Register(s: State, rawId: string, kind: string, pid: int, fileMade: bool, written: bool): State {
    var id := TrimSpace(rawId);
    if !ValidId(id) || TrimSpace(kind) == "" || pid < 0 || id in s.tasks || !fileMade then s
    else Store(s, id, Task(TrimSpace(kind), pid, Running, 0, None), written)
  }

  function SetPid(s: State, rawId: string, pid: int, written: bool): State {
    var id := TrimSpace(rawId);
    if pid <= 0 || id !in s.tasks then s else Store(s, id, s.tasks[id].(pid := pid), written)
  }

  function Finished(task: Task, status: Status, exitCode: int, now: nat): Task {
    task.(status := status, exitCode := exitCode,
          completedAt := if task.completedAt.Some? then task.completedAt else Some(now))
  }

  function MarkExited(s: State, rawId: string, status: Status, exitCode: int, now: nat, written: bool): State {
    var id := TrimSpace(rawId);
    if (status != Completed && status != Error) || id !in s.tasks || s.tasks[id].status != Running then s
    else Store(s, id, Finished(s.tasks[id], status, exitCode, now), written)
  }

  function Goto(s: State, k: nat, phase: Phase): State
    requires k < |s.killers|
  {
    s.(killers := s.killers[k := s.killers[k].(phase := phase)])
  }

  predicate At(s: State, k: nat, phase: Phase) { k < |s.killers| && s.killers[k].phase == phase }

  /** killTarget. */
  function Target(s: State, k: nat): State
    requires At(s, k, Targeting)
  {
    var id := s.killers[k].id;
    if id !in s.tasks || s.tasks[id].status != Running || s.tasks[id].pid == 0 then Goto(s, k, Ended(NoTarget))
    else Goto(s, k, Checking(s.tasks[id].pid))
  }

  /** isRunningPID. */
  function Check(s: State, k: nat): State
    requires k < |s.killers| && s.killers[k].phase.Checking?
  {
    var id, pid := s.killers[k].id, s.killers[k].phase.pid;
    if id in s.tasks && s.tasks[id].status == Running && s.tasks[id].pid == pid then Goto(s, k, Marking(pid))
    else Goto(s, k, Ended(NothingToDo))
  }

  /** markKilledIfStillRunning. */
  function Mark(s: State, k: nat, now: nat, written: bool): State
    requires k < |s.killers| && s.killers[k].phase.Marking?
  {
    var id, pid := s.killers[k].id, s.killers[k].phase.pid;
    if id !in s.tasks then Goto(s, k, Ended(MarkFailed))
    else if s.tasks[id].status != Running then Goto(s, k, Ended(NothingToDo))
    else if s.tasks[id].pid != pid || !written then Goto(s, k, Ended(MarkFailed))
    else
      var stored := Store(s, id, Finished(s.tasks[id], Killed, -1, now), true);
      Goto(stored, k, Signalling(pid)).(marks := s.marks + [Signal(id, pid, k)])
  }

  /** killProcess, outside the lock. */
  function Kill(s: State, k: nat, terminated: bool): State
    requires k < |s.killers| && s.killers[k].phase.Signalling?
  {
    var id, pid := s.killers[k].id, s.killers[k].phase.pid;
    Goto(s, k, if terminated then Ended(Success) else Restoring(pid)).(signals := s.signals + [Signal(id, pid, k)])
  }

  /** restoreRunningAfterFailedKill. */
  function Restore(s: State, k: nat, written: bool): State
    requires k < |s.killers| && s.killers[k].phase.Restoring?
  {
    var id, pid := s.killers[k].id, s.killers[k].phase.pid;
    if id !in s.tasks || s.tasks[id].status != Killed || s.tasks[id].pid != pid || !written
    then Goto(s, k, Ended(NotKilled(false)))
    else Goto(Store(s, id, s.tasks[id].(status := Running, exitCode := 0, completedAt := None), true), k,
              Ended(NotKilled(true)))
  }

  datatype Step =
    | Registered(id: string, kind: string, pid: int, fileMade: bool, written: bool)
    | PidSet(id: string, pid: int, written: bool)
    | Exited(id: string, status: Status, exitCode: int, now: nat, written: bool)
    | KillCalled(id: string)
    | Targeted(k: nat)
    | Checked(k: nat)
    | Marked(k: nat, now: nat, written: bool)
    | Signalled(k: nat, terminated: bool)
    | Restored(k: nat, written: bool)

  predicate Enabled(s: State, step: Step) {
    match step
    case Targeted(k) => At(s, k, Targeting)
    case Checked(k) => k < |s.killers| && s.killers[k].phase.Checking?
    case Marked(k, _, _) => k < |s.killers| && s.killers[k].phase.Marking?
    case Signalled(k, _) => k < |s.killers| && s.killers[k].phase.Signalling?
    case Restored(k, _) => k < |s.killers| && s.killers[k].phase.Restoring?
    case _ => true
  }

  function Apply(s: State, step: Step): State {
    if !Enabled(s, step) then s
    else
      match step
      case Registered(id, kind, pid, fileMade, written) => Register(s, id, kind, pid, fileMade, written)
      case PidSet(id, pid, written) => SetPid(s, id, pid, written)
      case Exited(id, status, exitCode, now, written) => MarkExited(s, id, status, exitCode, now, written)
      case KillCalled(id) => s.(killers := s.killers + [Killer(TrimSpace(id), Targeting)])
      case Targeted(k) => Target(s, k)
      case Checked(k) => Check(s, k)
      case Marked(k, now, written) => Mark(s, k, now, written)
      case Signalled(k, terminated) => Kill(s, k, terminated)
      case Restored(k, written) => Restore(s, k, written)
  }

  function Run(steps: seq<Step>): State {
    if steps == [] then NEW else Apply(Run(steps[..|steps| - 1]), steps[|steps| - 1])
  }

  /* What every interleaving keeps. */

  /** A Kill that holds a mark: between marking and its end. */
  predicate Holds(killer: Killer) { killer.phase.Signalling? || killer.phase.Restoring? }

  /** The task of a Kill that holds a mark, or that succeeded, is killed. */
  ghost predicate MarksStand(s: State) {
    forall k | 0 <= k < |s.killers| && (Holds(s.killers[k]) || s.killers[k].phase == Ended(Success)) ::
      s.killers[k].id in s.tasks && s.tasks[s.killers[k].id].status == Killed
  }

  /** One Kill at most holds the mark of a task, and none does once a Kill of it succeeded. */
  ghost predicate OneHolder(s: State) {
    forall i, j | 0 <= i < |s.killers| && 0 <= j < |s.killers| && Holds(s.killers[i])
      && (Holds(s.killers[j]) || s.killers[j].phase == Ended(Success)) && s.killers[i].id == s.killers[j].id :: i == j
  }

  ghost predicate HoldersMarked(s: State) {
    forall k | 0 <= k < |s.killers| && Holds(s.killers[k]) ::
      Signal(s.killers[k].id, s.killers[k].phase.pid, k) in s.marks
  }

  predicate Signals(phase: Phase) {
    phase.Restoring? || phase == Ended(Success) || (phase.Ended? && phase.ending.NotKilled?)
  }

  /** Every signal follows the mark of its own Kill, and a Kill sends one at most. */
  ghost predicate SignalsOk(s: State) {
    && (forall g | g in s.signals :: g in s.marks && g.caller < |s.killers| && Signals(s.killers[g.caller].phase))
    && (forall i, j | 0 <= i < j < |s.signals| :: s.signals[i].caller != s.signals[j].caller)
  }

  ghost predicate Inv(s: State) {
    s.tasks == s.disk && MarksStand(s) && OneHolder(s) && HoldersMarked(s) && SignalsOk(s)
  }

  /** A section that leaves killed tasks killed and the Kill calls alone. */
  lemma StoreKeeps(s: State, id: Id, task: Task, written: bool)
    requires Inv(s) && (id in s.tasks && s.tasks[id].status == Killed ==> task.status == Killed)
    ensures Inv(Store(s, id, task, written))
  {
  }

  /** A Kill call moves on without taking or giving up a mark. */
  lemma GotoKeeps(s: State, k: nat, phase: Phase)
    requires Inv(s) && k < |s.killers| && !Holds(s.killers[k]) && !Signals(s.killers[k].phase)
    requires !phase.Signalling? && !Signals(phase)
    ensures Inv(Goto(s, k, phase))
  {
    var r := Goto(s, k, phase);
    assert forall i | 0 <= i < |s.killers| && i != k :: r.killers[i] == s.killers[i];
    assert SignalsOk(r);
    assert OneHolder(r);
  }

  lemma KillCalledKeeps(s: State, id: string)
    requires Inv(s)
    ensures Inv(Apply(s, KillCalled(id)))
  {
    var r := Apply(s, KillCalled(id));
    assert forall i | 0 <= i < |s.killers| :: r.killers[i] == s.killers[i];
    assert OneHolder(r);
  }

  lemma MarkKeeps(s: State, k: nat, now: nat, written: bool)
    requires Inv(s) && k < |s.killers| && s.killers[k].phase.Marking?
    ensures Inv(Mark(s, k, now, written))
  {
    var id, pid := s.killers[k].id, s.killers[k].phase.pid;
    if id in s.tasks && s.tasks[id].status == Running && s.tasks[id].pid == pid && written {
      var r := Mark(s, k, now, written);
      assert forall i | 0 <= i < |s.killers| && i != k :: r.killers[i] == s.killers[i];
      assert r.marks[|s.marks|] == Signal(id, pid, k);
      assert MarksStand(r);
      assert OneHolder(r);
      assert SignalsOk(r);
    } else {
      GotoKeeps(s, k, Ended(MarkFailed));
      GotoKeeps(s, k, Ended(NothingToDo));
    }
  }

  lemma KillKeeps(s: State, k: nat, terminated: bool)
    requires Inv(s) && k < |s.killers| && s.killers[k].phase.Signalling?
    ensures Inv(Kill(s, k, terminated))
  {
    var r := Kill(s, k, terminated);
    assert forall i | 0 <= i < |s.killers| && i != k :: r.killers[i] == s.killers[i];
    assert MarksStand(r);
    assert OneHolder(r);
    assert SignalsOk(r);
  }

  lemma RestoreKeeps(s: State, k: nat, written: bool)
    requires Inv(s) && k < |s.killers| && s.killers[k].phase.Restoring?
    ensures Inv(Restore(s, k, written))
  {
    var r := Restore(s, k, written);
    assert forall i | 0 <= i < |s.killers| && i != k :: r.killers[i] == s.killers[i];
    forall i | 0 <= i < |s.killers| && i != k && (Holds(s.killers[i]) || s.killers[i].phase == Ended(Success))
      ensures s.killers[i].id != s.killers[k].id
    {
      assert Holds(s.killers[k]);
    }
    assert MarksStand(r);
    assert OneHolder(r);
    assert SignalsOk(r);
  }

  lemma ApplyKeeps(s: State, step: Step)
    requires Inv(s)
    ensures Inv(Apply(s, step))
  {
    hide Inv, ValidId, TrimSpace, Mark, Kill, Restore, Goto, Store;
    if Enabled(s, step) {
      match step
      case Registered(id, kind, pid, fileMade, written) =>
        if pid >= 0 && TrimSpace(id) !in s.tasks {
          StoreKeeps(s, TrimSpace(id), Task(TrimSpace(kind), pid, Running, 0, None), written);
        }
      case PidSet(id, pid, written) =>
        if pid > 0 && TrimSpace(id) in s.tasks {
          StoreKeeps(s, TrimSpace(id), s.tasks[TrimSpace(id)].(pid := pid), written);
        }
      case Exited(id, status, exitCode, now, written) =>
        if TrimSpace(id) in s.tasks && s.tasks[TrimSpace(id)].status == Running {
          StoreKeeps(s, TrimSpace(id), Finished(s.tasks[TrimSpace(id)], status, exitCode, now), written);
        }
      case KillCalled(id) => KillCalledKeeps(s, id);
      case Targeted(k) =>
        GotoKeeps(s, k, Ended(NoTarget));
        if s.killers[k].id in s.tasks {
          GotoKeeps(s, k, Checking(s.tasks[s.killers[k].id].pid));
        }
      case Checked(k) =>
        GotoKeeps(s, k, Marking(s.killers[k].phase.pid));
        GotoKeeps(s, k, Ended(NothingToDo));
      case Marked(k, now, written) => MarkKeeps(s, k, now, written);
      case Signalled(k, terminated) => KillKeeps(s, k, terminated);
      case Restored(k, written) => RestoreKeeps(s, k, written);
    }
  }

  lemma {:induction false} RunKeeps(steps: seq<Step>)
    ensures Inv(Run(steps))
  {
    hide Apply;
    if steps != [] {
      RunKeeps(steps[..|steps| - 1]);
      ApplyKeeps(Run(steps[..|steps| - 1]), steps[|steps| - 1]);
    }
  }

  /** After every section of every interleaving, failed writes included, memory and disk agree. */
  lemma MemoryIsDisk(steps: seq<Step>)
    ensures Run(steps).tasks == Run(steps).disk
  {
    RunKeeps(steps);
  }

  /** A recorded exit is never overwritten. */
  lemma {:induction false} ExitsStay(steps: seq<Step>, later: seq<Step>, id: Id)
    requires id in Run(steps).tasks && Run(steps).tasks[id].status in {Completed, Error}
    ensures var s := Run(steps + later);
      && id in s.tasks && s.tasks[id].status == Run(steps).tasks[id].status
      && s.tasks[id].exitCode == Run(steps).tasks[id].exitCode
         && s.tasks[id].completedAt == Run(steps).tasks[id].completedAt
  {
    hide Apply;
    if later == [] {
      assert steps + later == steps;
    } else {
      ExitsStay(steps, later[..|later| - 1], id);
      assert (steps + later)[..|steps + later| - 1] == steps + later[..|later| - 1];
      ExitStays(Run(steps + later[..|later| - 1]), later[|later| - 1], id);
    }
  }

  lemma ExitStays(s: State, step: Step, id: Id)
    requires id in s.tasks && s.tasks[id].status in {Completed, Error}
    ensures id in Apply(s, step).tasks && Apply(s, step).tasks[id] == s.tasks[id].(pid := Apply(s, step).tasks[id].pid)
  {
    hide ValidId, TrimSpace;
  }

  /** A signal is sent only by a Kill that marked the task killed, at a moment when the task was running with
      the signalled pid. */
  lemma SignalsFollowMarks(steps: seq<Step>, g: Signal) returns (n: nat)
    requires g in Run(steps).signals
    ensures n < |steps| && steps[n].Marked? && steps[n].k == g.caller
    ensures var s := Run(steps[..n]);
      g.id in s.tasks && s.tasks[g.id].status == Running && s.tasks[g.id].pid == g.pid
    ensures g.id in Run(steps[..n + 1]).tasks && Run(steps[..n + 1]).tasks[g.id].status == Killed
  {
    RunKeeps(steps);
    n := MarkFound(steps, g);
  }

  /** The Kill sent its signal. */
  ghost predicate Sent(s: State, k: nat)
    requires k < |s.killers|
  {
    exists g :: g in s.signals && g.caller == k && g.id == s.killers[k].id
  }

  ghost predicate SentOk(s: State) {
    forall k | 0 <= k < |s.killers| && Signals(s.killers[k].phase) :: Sent(s, k)
  }

  lemma SentStays(s: State, step: Step)
    requires SentOk(s)
    ensures SentOk(Apply(s, step))
  {
    hide TrimSpace, ValidId, Finished;
    var r := Apply(s, step);
    if step.Signalled? && Enabled(s, step) {
      var g := Signal(s.killers[step.k].id, s.killers[step.k].phase.pid, step.k);
      assert r.signals[|s.signals|] == g;
    }
    forall k | 0 <= k < |r.killers| && Signals(r.killers[k].phase) ensures Sent(r, k) {
      if !(step.Signalled? && Enabled(s, step) && step.k == k) {
        assert k < |s.killers| && Signals(s.killers[k].phase) && s.killers[k].id == r.killers[k].id;
        var g :| g in s.signals && g.caller == k && g.id == s.killers[k].id;
        assert g in r.signals;
      }
    }
  }

  /** A Kill that reports success, or that its process could not be terminated, did send its signal. */
  lemma EndedKillsSignalled(steps: seq<Step>, k: nat)
    requires k < |Run(steps).killers| && Signals(Run(steps).killers[k].phase)
    ensures exists g :: g in Run(steps).signals && g.caller == k && g.id == Run(steps).killers[k].id
  {
    SentInAll(steps);
    assert Sent(Run(steps), k);
  }

  lemma {:induction false} SentInAll(steps: seq<Step>)
    ensures SentOk(Run(steps))
  {
    hide Apply, Sent;
    if steps != [] {
      SentInAll(steps[..|steps| - 1]);
      SentStays(Run(steps[..|steps| - 1]), steps[|steps| - 1]);
    }
  }

  lemma {:induction false} MarkFound(steps: seq<Step>, g: Signal) returns (n: nat)
    requires g in Run(steps).marks
    ensures n < |steps| && steps[n].Marked? && steps[n].k == g.caller
    ensures var s := Run(steps[..n]);
      g.id in s.tasks && s.tasks[g.id].status == Running && s.tasks[g.id].pid == g.pid
    ensures g.id in Run(steps[..n + 1]).tasks && Run(steps[..n + 1]).tasks[g.id].status == Killed
  {
    hide TrimSpace, ValidId, Store, Goto, Apply;
    var front := steps[..|steps| - 1];
    if g in Run(front).marks {
      n := MarkFound(front, g);
      assert steps[..n] == front[..n] && steps[..n + 1] == front[..n + 1];
    } else {
      n := |steps| - 1;
      assert steps[..n + 1] == steps;
      OnlyMarkMarks(Run(front), steps[n], g);
    }
  }

  lemma OnlyMarkMarks(s: State, step: Step, g: Signal)
    requires g in Apply(s, step).marks && g !in s.marks
    ensures step.Marked? && step.k == g.caller
    ensures g.id in s.tasks && s.tasks[g.id].status == Running && s.tasks[g.id].pid == g.pid
    ensures g.id in Apply(s, step).tasks && Apply(s, step).tasks[g.id].status == Killed
  {
    hide TrimSpace, ValidId;
  }

  lemma OneSignalEach(steps: seq<Step>, i: nat, j: nat)
    requires i < j < |Run(steps).signals|
    ensures Run(steps).signals[i].caller != Run(steps).signals[j].caller
  {
    RunKeeps(steps);
  }

  /** While a Kill holds the mark of a task, no other Kill does. */
  lemma OneKillHoldsTheMark(steps: seq<Step>, i: nat, j: nat)
    requires i < |Run(steps).killers| && Holds(Run(steps).killers[i])
    requires j < |Run(steps).killers| && Holds(Run(steps).killers[j])
    ensures Run(steps).killers[i].id == Run(steps).killers[j].id <==> i == j
  {
    RunKeeps(steps);
  }

  /** A task whose Kill succeeded stays killed, in memory and on disk, whatever comes later. */
  lemma SuccessStaysKilled(steps: seq<Step>, later: seq<Step>, k: nat)
    requires k < |Run(steps).killers| && Run(steps).killers[k].phase == Ended(Success)
    ensures var s, id := Run(steps + later), Run(steps).killers[k].id;
      && k < |s.killers| && s.killers[k] == Run(steps).killers[k]
      && id in s.tasks && s.tasks[id].status == Killed
      && id in s.disk && s.disk[id] == s.tasks[id]
  {
    EndsStay(steps, later, k);
    RunKeeps(steps + later);
  }

  /** How a Kill ended is never revised. */
  lemma {:induction false} EndsStay(steps: seq<Step>, later: seq<Step>, k: nat)
    requires k < |Run(steps).killers| && Run(steps).killers[k].phase.Ended?
    ensures k < |Run(steps + later).killers| && Run(steps + later).killers[k] == Run(steps).killers[k]
  {
    hide Apply;
    if later == [] {
      assert steps + later == steps;
    } else {
      EndsStay(steps, later[..|later| - 1], k);
      assert (steps + later)[..|steps + later| - 1] == steps + later[..|later| - 1];
      EndStays(Run(steps + later[..|later| - 1]), later[|later| - 1], k);
    }
  }

  lemma EndStays(s: State, step: Step, k: nat)
    requires k < |s.killers| && s.killers[k].phase.Ended?
    ensures k < |Apply(s, step).killers| && Apply(s, step).killers[k] == s.killers[k]
  {
    hide ValidId, TrimSpace;
  }

  /* When a failed kill is undone. */

  /** The last section of a Kill puts the task back to running exactly when the task still has the pid that was
      marked and the write succeeds; otherwise it stays killed. */
  lemma RestoredExactly(s: State, k: nat, written: bool)
    requires Inv(s) && k < |s.killers| && s.killers[k].phase.Restoring?
    ensures var id := s.killers[k].id;
      var r := Restore(s, k, written);
      && id in s.tasks && id in r.tasks
      && (r.killers[k].phase == Ended(NotKilled(true)) <==> s.tasks[id].pid == s.killers[k].phase.pid && written)
      && (r.killers[k].phase == Ended(NotKilled(true)) <==> r.tasks[id].status == Running)
      && (r.killers[k].phase == Ended(NotKilled(false)) <==> r.tasks[id].status == Killed)
      && r.tasks == s.tasks[id := if r.tasks[id].status == Killed then s.tasks[id]
                                  else s.tasks[id].(status := Running, exitCode := 0, completedAt := None)]
  {
    assert Holds(s.killers[k]);
  }

  lemma OnlyRestoreEnds(s: State, step: Step, k: nat)
    requires k < |Apply(s, step).killers|
    requires Apply(s, step).killers[k].phase.Ended? && Apply(s, step).killers[k].phase.ending.NotKilled?
    requires !(k < |s.killers| && s.killers[k] == Apply(s, step).killers[k])
    ensures step.Restored? && step.k == k && k < |s.killers| && s.killers[k].phase.Restoring?
    ensures s.killers[k].id == Apply(s, step).killers[k].id
  {
    hide TrimSpace, ValidId;
  }

  /** In every interleaving, a Kill whose signal failed ran its last section at one moment n, and it put the task
      back exactly when at that moment the task had the pid the Kill had marked and signalled and the write
      succeeded. */
  lemma {:induction false} FailedKillIsUndoneExactly(steps: seq<Step>, k: nat) returns (n: nat)
    requires k < |Run(steps).killers|
    requires Run(steps).killers[k].phase.Ended? && Run(steps).killers[k].phase.ending.NotKilled?
    ensures n < |steps| && steps[n].Restored? && steps[n].k == k
    ensures var s := Run(steps[..n]);
      && k < |s.killers| && s.killers[k].phase.Restoring? && s.killers[k].id == Run(steps).killers[k].id
      && s.killers[k].id in s.tasks
      && Signal(s.killers[k].id, s.killers[k].phase.pid, k) in s.marks
      && (Run(steps).killers[k].phase.ending.restored
          <==> s.tasks[s.killers[k].id].pid == s.killers[k].phase.pid && steps[n].written)
  {
    hide Apply, TrimSpace;
    var front, last := steps[..|steps| - 1], steps[|steps| - 1];
    var s := Run(front);
    if k < |s.killers| && s.killers[k] == Run(steps).killers[k] {
      n := FailedKillIsUndoneExactly(front, k);
      assert steps[..n] == front[..n];
    } else {
      n := |steps| - 1;
      OnlyRestoreEnds(s, last, k);
      RunKeeps(front);
      RestoredExactly(s, k, last.written);
      RestoreIs(s, k, last.written);
    }
  }

  lemma RestoreIs(s: State, k: nat, written: bool)
    requires k < |s.killers| && s.killers[k].phase.Restoring?
    ensures Apply(s, Restored(k, written)) == Restore(s, k, written)
    ensures Restore(s, k, written).killers[k].phase in {Ended(NotKilled(true)), Ended(NotKilled(false))}
    ensures Inv(s) ==> Signal(s.killers[k].id, s.killers[k].phase.pid, k) in s.marks
  {
    assert Holds(s.killers[k]);
  }

  /* What is not kept. */

  /** An exit is recorded exactly when the task is running and the write succeeds. */
  lemma ExitRecorded(s: State, id: Id, status: Status, exitCode: int, now: nat, written: bool)
    requires TrimSpace(id) == id && id in s.tasks && status in {Completed, Error} && s.tasks[id].status != status
    ensures MarkExited(s, id, status, exitCode, now, written).tasks[id].status == status
       <==> s.tasks[id].status == Running && written
  {
  }

  /** So an exit that is reported while a Kill holds its mark is lost when the kill then fails: the task is put
      back to running, and nothing will report its exit again. */
  lemma ExitLostUnderMark(s: State, k: nat, status: Status, exitCode: int, now: nat)
    requires Inv(s) && k < |s.killers| && s.killers[k].phase.Signalling?
      && TrimSpace(s.killers[k].id) == s.killers[k].id
    requires s.killers[k].id in s.tasks && s.tasks[s.killers[k].id].pid == s.killers[k].phase.pid
    ensures var id := s.killers[k].id;
      var exited := Apply(s, Exited(id, status, exitCode, now, true));
      var failed := Apply(exited, Signalled(k, false));
      id in Apply(failed, Restored(k, true)).tasks && Apply(failed, Restored(k, true)).tasks[id].status == Running
  {
    hide TrimSpace, ValidId;
    assert Holds(s.killers[k]);
    assert Apply(s, Exited(s.killers[k].id, status, exitCode, now, true)) == s;
  }

  /** And a task that gets another pid while a Kill holds its mark stays killed when the kill fails. */
  lemma NewPidBlocksRestore(s: State, k: nat, pid: nat)
    requires Inv(s) && k < |s.killers| && s.killers[k].phase.Signalling?
      && TrimSpace(s.killers[k].id) == s.killers[k].id
    requires pid > 0 && pid != s.killers[k].phase.pid
    ensures var id := s.killers[k].id;
      var moved := Apply(s, PidSet(id, pid, true));
      var failed := Apply(moved, Signalled(k, false));
      var end := Apply(failed, Restored(k, true));
      && id in end.tasks && end.tasks[id].status == Killed
      && k < |end.killers| && end.killers[k].phase == Ended(NotKilled(false))
  {
    hide TrimSpace, ValidId;
    assert Holds(s.killers[k]);
    assert s.killers[k].id in s.tasks;
  }

  /* Both happen in a run from the start. */

  /** A task that runs under a pid and is marked by a Kill. */
  function MarkedRun(id: string, pid: int): seq<Step> {
    [Registered(id, "agent", pid, true, true), KillCalled(id), Targeted(0), Checked(0), Marked(0, 0, true)]
  }

  lemma RunSnoc(steps: seq<Step>, step: Step)
    ensures Run(steps + [step]) == Apply(Run(steps), step)
  {
    assert (steps + [step])[..|steps|] == steps;
  }

  lemma AgentTrims()
    ensures TrimSpace("agent") == "agent"
  {
  }

  lemma MarkedRunHolds(id: string, pid: int)
    requires TrimSpace(id) == id && ValidId(id) && pid > 0
    ensures var s := Run(MarkedRun(id, pid));
      && s.killers == [Killer(id, Signalling(pid))]
      && s.tasks == map[id := Task("agent", pid, Killed, -1, Some(0))]
  {
    hide TrimSpace, ValidId, Run;
    AgentTrims();
    var all := MarkedRun(id, pid);
    var running := map[id := Task("agent", pid, Running, 0, None)];
    var s1 := NEW.(tasks := running, disk := running);
    assert map[][id := Task("agent", pid, Running, 0, None)] == running;
    assert Run([]) == NEW by { RunNothing(); }
    RunSnoc([], all[0]);
    assert Run([all[0]]) == s1 by { assert [] + [all[0]] == [all[0]]; }
    RunSnoc([all[0]], all[1]);
    RunSnoc([all[0]] + [all[1]], all[2]);
    RunSnoc([all[0]] + [all[1]] + [all[2]], all[3]);
    RunSnoc([all[0]] + [all[1]] + [all[2]] + [all[3]], all[4]);
    assert [all[0]] + [all[1]] + [all[2]] + [all[3]] + [all[4]] == all;
    var s2 := s1.(killers := [Killer(id, Targeting)]);
    assert Apply(s1, all[1]) == s2;
    var s3 := s2.(killers := [Killer(id, Checking(pid))]);
    assert Apply(s2, all[2]) == s3;
    var s4 := s3.(killers := [Killer(id, Marking(pid))]);
    assert Apply(s3, all[3]) == s4;
    assert running[id := Task("agent", pid, Killed, -1, Some(0))] == map[id := Task("agent", pid, Killed, -1, Some(0))];
  }

  lemma RunNothing()
    ensures Run([]) == NEW
  {
  }

  /** A run that ends with the task running although its exit was reported. */
  lemma SomeRunLosesAnExit(id: string, pid: int, status: Status, exitCode: int)
    requires TrimSpace(id) == id && ValidId(id) && pid > 0 && status in {Completed, Error}
    ensures var steps :=
      MarkedRun(id, pid) + [Exited(id, status, exitCode, 0, true)] + [Signalled(0, false)] + [Restored(0, true)];
      id in Run(steps).tasks && Run(steps).tasks[id].status == Running
  {
    hide TrimSpace, ValidId, Apply, Inv, Run;
    var marked := MarkedRun(id, pid);
    RunKeeps(marked);
    MarkedRunHolds(id, pid);
    RunSnoc(marked, Exited(id, status, exitCode, 0, true));
    RunSnoc(marked + [Exited(id, status, exitCode, 0, true)], Signalled(0, false));
    RunSnoc(marked + [Exited(id, status, exitCode, 0, true)] + [Signalled(0, false)], Restored(0, true));
    ExitLostUnderMark(Run(marked), 0, status, exitCode, 0);
  }

  /** A run that ends with the task killed although its only kill failed. */
  lemma SomeRunLeavesAFailedKill(id: string, pid: int, other: int)
    requires TrimSpace(id) == id && ValidId(id) && pid > 0 && other > 0 && other != pid
    ensures var steps := MarkedRun(id, pid) + [PidSet(id, other, true)] + [Signalled(0, false)] + [Restored(0, true)];
      id in Run(steps).tasks && Run(steps).tasks[id].status == Killed
      && |Run(steps).killers| > 0 && Run(steps).killers[0].phase == Ended(NotKilled(false))
  {
    hide TrimSpace, ValidId, Apply, Inv, Run;
    var marked := MarkedRun(id, pid);
    RunKeeps(marked);
    MarkedRunHolds(id, pid);
    RunSnoc(marked, PidSet(id, other, true));
    RunSnoc(marked + [PidSet(id, other, true)], Signalled(0, false));
    RunSnoc(marked + [PidSet(id, other, true)] + [Signalled(0, false)], Restored(0, true));
    NewPidBlocksRestore(Run(marked), 0, other);
  }

  /* The manager. */

  class Manager {
    var tasks: map<Id, Task>
    /** The metadata files. */
    var disk: map<Id, Task>
    ghost var killers: seq<Killer>
    ghost var marks: seq<Signal>
    ghost var signals: seq<Signal>

    ghost function Abstract(): State
      reads this
    {
      State(tasks, disk, killers, marks, signals)
    }

    constructor ()
      ensures Abstract() == NEW
    {
      tasks, disk := map[], map[];
      killers, marks, signals := [], [], [];
    }

    /** The new file replaces the old one, or nothing changes. */
    method PersistTask(id: Id, task: Task, written: bool) returns (ok: bool)
      modifies this`disk
      ensures ok == written && disk == if written then old(disk)[id := task] else old(disk)
    {
      if written {
        disk := disk[id := task];
      }
      return written;
    }

    method RegisterTask(rawId: string, kind: string, pid: int, fileMade: bool, written: bool) returns (ok: bool)
      modifies this
      ensures Abstract() == Register(old(Abstract()), rawId, kind, pid, fileMade, written)
      ensures ok <==> && IdAllowed(TrimSpace(rawId)) && TrimSpace(rawId) !in old(tasks)
                      && TrimSpace(kind) != "" && pid >= 0 && fileMade && written
      ensures if ok then tasks == old(tasks)[TrimSpace(rawId) := Task(TrimSpace(kind), pid, Running, 0, None)]
              else tasks == old(tasks)
    {
      ValidIdIsAllowed(TrimSpace(rawId));
      hide TrimSpace, ValidId, IdAllowed;
      var id := TrimSpace(rawId);
      if !ValidId(id) || TrimSpace(kind) == "" || pid < 0 {
        return false;
      }
      if id in tasks || !fileMade {
        return false;
      }
      var task := Task(TrimSpace(kind), pid, Running, 0, None);
      tasks := tasks[id := task];
      var stored := PersistTask(id, task, written);
      if !stored {
        tasks := tasks - {id};
        assert tasks == old(tasks);
        return false;
      }
      return true;
    }

    method SetTaskPid(rawId: string, pid: int, written: bool) returns (ok: bool)
      modifies this
      ensures Abstract() == SetPid(old(Abstract()), rawId, pid, written)
      ensures ok <==> pid > 0 && TrimSpace(rawId) in old(tasks) && written
      ensures tasks
        == if ok then old(tasks)[TrimSpace(rawId) := old(tasks)[TrimSpace(rawId)].(pid := pid)] else old(tasks)
    {
      hide TrimSpace;
      var id := TrimSpace(rawId);
      if pid <= 0 || id !in tasks {
        return false;
      }
      var task := tasks[id].(pid := pid);
      ok := PersistTask(id, task, written);
      if ok {
        tasks := tasks[id := task];
      }
    }

    method MarkTaskExited(rawId: string, status: Status, exitCode: int, now: nat, written: bool) returns (ok: bool)
      modifies this
      ensures Abstract() == MarkExited(old(Abstract()), rawId, status, exitCode, now, written)
      ensures ok <==> && status in {Completed, Error} && TrimSpace(rawId) in old(tasks)
                      && (old(tasks)[TrimSpace(rawId)].status == Running ==> written)
      ensures var id := TrimSpace(rawId);
        if status in {Completed, Error} && id in old(tasks) && old(tasks)[id].status == Running && written
        then id in tasks && tasks == old(tasks)[id := tasks[id]]
             && tasks[id].status == status && tasks[id].exitCode == exitCode && tasks[id].completedAt.Some?
             && tasks[id].kind == old(tasks)[id].kind && tasks[id].pid == old(tasks)[id].pid
        else tasks == old(tasks)
    {
      hide TrimSpace;
      var id := TrimSpace(rawId);
      if (status != Completed && status != Error) || id !in tasks {
        return false;
      }
      var task := tasks[id];
      if task.status != Running {
        return true;
      }
      task := task.(status := status, exitCode := exitCode);
      if task.completedAt == None {
        task := task.(completedAt := Some(now));
      }
      ok := PersistTask(id, task, written);
      if ok {
        tasks := tasks[id := task];
      }
    }

    /** The pid to kill, or None for an error. */
    method KillTarget(k: nat, id: Id) returns (pid: Option<nat>)
      requires At(Abstract(), k, Targeting) && killers[k].id == id
      modifies this
      ensures Abstract() == Target(old(Abstract()), k)
      ensures pid.Some? <==> killers[k].phase.Checking?
      ensures pid.Some? ==> killers[k].phase == Checking(pid.value)
      ensures tasks == old(tasks)
      ensures pid
        == if id in tasks && tasks[id].status == Running && tasks[id].pid > 0 then Some(tasks[id].pid) else None
    {
      if id !in tasks || tasks[id].status != Running || tasks[id].pid <= 0 {
        killers := killers[k := killers[k].(phase := Ended(NoTarget))];
        return None;
      }
      pid := Some(tasks[id].pid);
      killers := killers[k := killers[k].(phase := Checking(pid.value))];
    }

    method IsRunningPid(k: nat, id: Id, pid: nat) returns (running: bool)
      requires At(Abstract(), k, Checking(pid)) && killers[k].id == id
      modifies this`killers
      ensures Abstract() == Check(old(Abstract()), k)
      ensures running == killers[k].phase.Marking?
      ensures running <==> id in tasks && tasks[id].status == Running && tasks[id].pid == pid
    {
      running := id in tasks && tasks[id].status == Running && tasks[id].pid == pid;
      killers := killers[k := killers[k].(phase := if running then Marking(pid) else Ended(NothingToDo))];
    }

    method MarkKilledIfStillRunning(k: nat, id: Id, pid: nat, now: nat, written: bool)
      returns (marked: bool, failed: bool)
      requires At(Abstract(), k, Marking(pid)) && killers[k].id == id
      modifies this
      ensures Abstract() == Mark(old(Abstract()), k, now, written)
      ensures marked == killers[k].phase.Signalling? && failed == (killers[k].phase == Ended(MarkFailed))
      ensures marked <==> id in old(tasks) && old(tasks)[id].status == Running && old(tasks)[id].pid == pid && written
      ensures !marked ==> tasks == old(tasks)
      ensures marked ==>
        && tasks == old(tasks)[id := tasks[id]]
        && tasks[id] == old(tasks)[id].(status := Killed, exitCode := -1, completedAt := tasks[id].completedAt)
        && tasks[id].completedAt == if old(tasks)[id].completedAt.Some? then old(tasks)[id].completedAt else Some(now)
    {
      if id !in tasks {
        killers := killers[k := killers[k].(phase := Ended(MarkFailed))];
        return false, true;
      }
      var task := tasks[id];
      if task.status != Running {
        killers := killers[k := killers[k].(phase := Ended(NothingToDo))];
        return false, false;
      }
      if task.pid != pid {
        killers := killers[k := killers[k].(phase := Ended(MarkFailed))];
        return false, true;
      }
      task := task.(status := Killed, exitCode := -1);
      if task.completedAt == None {
        task := task.(completedAt := Some(now));
      }
      var stored := PersistTask(id, task, written);
      if !stored {
        killers := killers[k := killers[k].(phase := Ended(MarkFailed))];
        return false, true;
      }
      tasks := tasks[id := task];
      killers := killers[k := killers[k].(phase := Signalling(pid))];
      marks := marks + [Signal(id, pid, k)];
      return true, false;
    }

    method RestoreRunningAfterFailedKill(k: nat, id: Id, pid: nat, written: bool)
      requires At(Abstract(), k, Restoring(pid)) && killers[k].id == id
      modifies this
      ensures Abstract() == Restore(old(Abstract()), k, written)
    {
      if id !in tasks || tasks[id].status != Killed || tasks[id].pid != pid {
        killers := killers[k := killers[k].(phase := Ended(NotKilled(false)))];
        return;
      }
      var task := tasks[id].(status := Running, exitCode := 0, completedAt := None);
      var stored := PersistTask(id, task, written);
      if stored {
        tasks := tasks[id := task];
      }
      killers := killers[k := killers[k].(phase := Ended(NotKilled(stored)))];
    }
  }
}
