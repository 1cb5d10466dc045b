/** The guards that halt a run (internal/agent/guardrails.go): repeated identical tool
    failures, rework that does not converge, and turns without output. */
module Guardrails {
  import opened Text

  const FAILURE_HINT_AT := 2
  const FAILURE_STOP_AT := 6
  const MAX_FILE_REWORK := 4
  const MAX_TOTAL_REWORK := 8
  const MAX_EMPTY_TURNS := 3

  datatype FailureRecord = FailureRecord(count: nat, signature: string, hintShown: bool)

  type Failures = map<string, FailureRecord>

  datatype ToolOutcome = ToolOutcome(injectHint: bool, stop: bool, count: nat)

  /** One executed call: its tool, whether it failed retriably, and the signature of its error. */
  datatype Observation = Observation(tool: string, failed: bool, signature: string)

  function Recorded(f: Failures, o: Observation): FailureRecord {
    if o.tool in f && f[o.tool].signature == o.signature
    then f[o.tool].(count := f[o.tool].count + 1) else FailureRecord(1, o.signature, false)
  }

  function Observed(f: Failures, o: Observation): (Failures, ToolOutcome) {
    if !o.failed then (f - {o.tool}, ToolOutcome(false, false, 0))
    else
      var r := Recorded(f, o);
      if r.count >= FAILURE_STOP_AT then (f[o.tool := r], ToolOutcome(false, true, r.count))
      else if r.count >= FAILURE_HINT_AT && !r.hintShown
      then (f[o.tool := r.(hintShown := true)], ToolOutcome(true, false, r.count))
      else (f[o.tool := r], ToolOutcome(false, false, r.count))
  }

  /** How often each file was changed, counted once a turn, and the rework passes so far. */
  datatype Tally = Tally(turns: map<string, nat>, rework: nat)

  datatype Convergence = Converging | FileStalled(file: string, passes: nat) | TotalStalled(passes: nat)

  function TurnsOf(t: Tally, file: string): nat {
    if file in t.turns then t.turns[file] else 0
  }

  function Touched(t: Tally, file: string): Tally {
    if file == "" then t
    else Tally(t.turns[file := TurnsOf(t, file) + 1], if TurnsOf(t, file) == 0 then t.rework else t.rework + 1)
  }

  function TouchedBy(t: Tally, files: seq<string>, n: nat): Tally
    requires n <= |files|
  {
    if n == 0 then t else Touched(TouchedBy(t, files, n - 1), files[n - 1])
  }

  /** The first of the n files that reached the most rework passes, with that number. */
  function Worst(t: Tally, files: seq<string>, n: nat): (string, nat)
    requires n <= |files|
  {
    if n == 0 then ("", 0)
    else
      var worst := Worst(t, files, n - 1);
      var passes := TurnsOf(TouchedBy(t, files, n - 1), files[n - 1]);
      if files[n - 1] != "" && passes > worst.1 then (files[n - 1], passes) else worst
  }

  function Verdict(t: Tally, files: seq<string>): Convergence {
    var (file, passes) := Worst(t, files, |files|);
    var rework := TouchedBy(t, files, |files|).rework;
    if file != "" && passes >= MAX_FILE_REWORK then FileStalled(file, passes)
    else if rework >= MAX_TOTAL_REWORK then TotalStalled(rework)
    else Converging
  }

  class GuardState {
    var toolFailures: Failures
    var fileMutationTurns: map<string, nat>
    var totalReworkPasses: nat
    var emptyTurns: nat

    ghost function Rework(): Tally reads this { Tally(fileMutationTurns, totalReworkPasses) }

    constructor ()
      ensures toolFailures == map[] && Rework() == Tally(map[], 0) && emptyTurns == 0
    {
      toolFailures, fileMutationTurns, totalReworkPasses, emptyTurns := map[], map[], 0, 0;
    }

    method ObserveToolResult(name: string, failed: bool, signature: string) returns (outcome: ToolOutcome)
      modifies this`toolFailures
      ensures (toolFailures, outcome) == Observed(old(toolFailures), Observation(name, failed, signature))
    {
      if !failed {
        toolFailures := toolFailures - {name};
        return ToolOutcome(false, false, 0);
      }
      var record: FailureRecord;
      if name !in toolFailures || toolFailures[name].signature != signature {
        record := FailureRecord(1, signature, false);
      } else {
        record := toolFailures[name];
        record := record.(count := record.count + 1);
      }
      toolFailures := toolFailures[name := record];
      outcome := ToolOutcome(false, false, record.count);
      if record.count >= FAILURE_STOP_AT {
        outcome := outcome.(stop := true);
        return;
      }
      if record.count >= FAILURE_HINT_AT && !record.hintShown {
        toolFailures := toolFailures[name := record.(hintShown := true)];
        assert toolFailures == old(toolFailures)[name := record.(hintShown := true)];
        outcome := outcome.(injectHint := true);
      }
    }

    method ObserveMutatedFiles(files: seq<string>) returns (outcome: Convergence)
      modifies this`fileMutationTurns, this`totalReworkPasses
      ensures Rework() == TouchedBy(old(Rework()), files, |files|)
      ensures outcome == Verdict(old(Rework()), files)
    {
      var worstFile, worstPasses := "", 0;
      for i := 0 to |files|
        invariant Rework() == TouchedBy(old(Rework()), files, i)
        invariant (worstFile, worstPasses) == Worst(old(Rework()), files, i)
      {
        var file := files[i];
        if file == "" {
          continue;
        }
        var priorTurns := if file in fileMutationTurns then fileMutationTurns[file] else 0;
        fileMutationTurns := fileMutationTurns[file := priorTurns + 1];
        if priorTurns == 0 {
          continue;
        }
        totalReworkPasses := totalReworkPasses + 1;
        var passes := fileMutationTurns[file] - 1;
        if passes > worstPasses {
          worstPasses := passes;
          worstFile := file;
        }
      }
      if worstFile != "" && worstPasses >= MAX_FILE_REWORK {
        return FileStalled(worstFile, worstPasses);
      }
      if totalReworkPasses >= MAX_TOTAL_REWORK {
        return TotalStalled(totalReworkPasses);
      }
      return Converging;
    }

    /** The runaway counter: a turn with calls, visible text or reasoning resets it. */
    method ObserveTurn(hasToolCalls: bool, hasVisibleText: bool, hasReasoning: bool) returns (stop: bool)
      modifies this`emptyTurns
      ensures emptyTurns == if hasToolCalls || hasVisibleText || hasReasoning then 0 else old(emptyTurns) + 1
      ensures stop <==> emptyTurns >= MAX_EMPTY_TURNS
    {
      if hasToolCalls || hasVisibleText || hasReasoning {
        emptyTurns := 0;
      } else {
        emptyTurns := emptyTurns + 1;
      }
      return emptyTurns >= MAX_EMPTY_TURNS;
    }
  }

  /* Failure streaks over any history. */

  function FailuresAfter(h: seq<Observation>): Failures {
    if h == [] then map[] else Observed(FailuresAfter(h[..|h| - 1]), h[|h| - 1]).0
  }

  /** What a tool's own calls were, in order. */
  function Own(h: seq<Observation>, tool: string): seq<Observation> {
    if h == [] then []
    else Own(h[..|h| - 1], tool) + if h[|h| - 1].tool == tool then [h[|h| - 1]] else []
  }

  function TrailingRun(own: seq<Observation>, signature: string): nat {
    if own != [] && own[|own| - 1].failed && own[|own| - 1].signature == signature
    then 1 + TrailingRun(own[..|own| - 1], signature) else 0
  }

  /** The length of the longest run of failures with one signature that ends a tool's own calls. */
  function Streak(own: seq<Observation>): nat {
    if own == [] then 0 else TrailingRun(own, own[|own| - 1].signature)
  }

  lemma {:induction false} RecordIsStreak(h: seq<Observation>, tool: string)
    ensures var own := Own(h, tool);
      var f := FailuresAfter(h);
      && (tool in f <==> Streak(own) > 0)
      && (tool in f ==>
            own != []
            && f[tool] == FailureRecord(Streak(own), own[|own| - 1].signature, Streak(own) >= FAILURE_HINT_AT))
  {
    if h != [] {
      var front, last := h[..|h| - 1], h[|h| - 1];
      RecordIsStreak(front, tool);
      var before := Own(front, tool);
      if last.tool == tool {
        assert Own(h, tool) == before + [last];
        StreakGrows(before, last);
      } else {
        assert Own(h, tool) == before;
      }
    }
  }

  lemma StreakGrows(own: seq<Observation>, o: Observation)
    ensures Streak(own + [o])
      == if !o.failed then 0
         else if own != [] && own[|own| - 1].signature == o.signature then Streak(own) + 1 else 1
  {
    var all := own + [o];
    assert all[|all| - 1] == o && all[..|all| - 1] == own;
    if o.failed {
      calc {
        Streak(all);
        TrailingRun(all, o.signature);
        1 + TrailingRun(own, o.signature);
      }
    }
  }

  /** After any history, the count of a tool is its streak; the hint comes exactly when the streak
      reaches 2 and the stop exactly from 6 on, whatever other tools did in between. */
  lemma OutcomeIsStreak(h: seq<Observation>, o: Observation)
    ensures var streak := Streak(Own(h + [o], o.tool));
      Observed(FailuresAfter(h), o).1
      == ToolOutcome(streak == FAILURE_HINT_AT, streak >= FAILURE_STOP_AT, streak)
  {
    RecordIsStreak(h, o.tool);
    OwnGrows(h, o);
    hide Own, FailuresAfter, Streak;
    StreakGrows(Own(h, o.tool), o);
  }

  lemma OwnGrows(h: seq<Observation>, o: Observation)
    ensures Own(h + [o], o.tool) == Own(h, o.tool) + [o]
  {
    assert (h + [o])[..|h|] == h;
  }

  /* Rework over any history of turns. */

  function TallyAfter(turns: seq<seq<string>>): Tally {
    if turns == [] then Tally(map[], 0)
    else TouchedBy(TallyAfter(turns[..|turns| - 1]), turns[|turns| - 1], |turns[|turns| - 1]|)
  }

  function Names(files: seq<string>): set<string> { set f | f in files && f != "" }

  /** The number of turns that changed a file. */
  function TurnCount(turns: seq<seq<string>>, file: string): nat {
    if turns == [] then 0
    else TurnCount(turns[..|turns| - 1], file) + if file in Names(turns[|turns| - 1]) then 1 else 0
  }

  /** All changes: the sum, over the turns, of the files each changed. */
  function Mutations(turns: seq<seq<string>>): nat {
    if turns == [] then 0 else Mutations(turns[..|turns| - 1]) + |Names(turns[|turns| - 1])|
  }

  function AllNames(turns: seq<seq<string>>): set<string> {
    if turns == [] then {} else AllNames(turns[..|turns| - 1]) + Names(turns[|turns| - 1])
  }

  /** Every file on record was changed at least once. */
  ghost predicate Counted(t: Tally) { forall f | f in t.turns :: t.turns[f] > 0 }

  lemma OneTouch(t: Tally, file: string)
    requires Counted(t) && file != ""
    ensures var after := Touched(t, file);
      && Counted(after)
      && (forall f :: TurnsOf(after, f) == TurnsOf(t, f) + if f == file then 1 else 0)
      && after.turns.Keys == t.turns.Keys + {file}
      && after.rework + |after.turns.Keys| == t.rework + |t.turns.Keys| + 1
  {
    if file in t.turns {
      assert t.turns.Keys + {file} == t.turns.Keys;
    }
  }

  lemma NamesGrow(files: seq<string>, n: nat)
    requires 0 < n <= |files| && Distinct(files)
    ensures Names(files[..n]) == Names(files[..n - 1]) + if files[n - 1] == "" then {} else {files[n - 1]}
    ensures files[n - 1] !in Names(files[..n - 1])
  {
    assert files[..n] == files[..n - 1] + [files[n - 1]];
  }

  /** One deduplicated turn adds one change to each file it names. */
  ghost predicate AddsOneEach(t: Tally, after: Tally, names: set<string>) {
    && Counted(after)
    && (forall f :: TurnsOf(after, f) == TurnsOf(t, f) + if f in names then 1 else 0)
    && after.turns.Keys == t.turns.Keys + names
    && after.rework + |after.turns.Keys| == t.rework + |t.turns.Keys| + |names|
  }

  lemma {:induction false} OneTurn(t: Tally, files: seq<string>, n: nat)
    requires n <= |files| && Distinct(files) && Counted(t)
    ensures AddsOneEach(t, TouchedBy(t, files, n), Names(files[..n]))
  {
    hide Names, Touched, TouchedBy, AddsOneEach, Distinct, Counted;
    if n == 0 {
      NoTouch(t, files);
    } else {
      OneTurn(t, files, n - 1);
      NamesGrow(files, n);
      TouchStep(t, files, n);
      if files[n - 1] != "" {
        OneMore(t, TouchedBy(t, files, n - 1), Names(files[..n - 1]), files[n - 1]);
      } else {
        assert Names(files[..n - 1]) + {} == Names(files[..n - 1]);
      }
    }
  }

  lemma NoTouch(t: Tally, files: seq<string>)
    requires Counted(t)
    ensures AddsOneEach(t, TouchedBy(t, files, 0), Names(files[..0]))
  {
    assert Names(files[..0]) == {};
  }

  lemma TouchStep(t: Tally, files: seq<string>, n: nat)
    requires 0 < n <= |files|
    ensures TouchedBy(t, files, n)
         == if files[n - 1] == "" then TouchedBy(t, files, n - 1) else Touched(TouchedBy(t, files, n - 1), files[n - 1])
  {
  }

  lemma OneMore(t: Tally, mid: Tally, names: set<string>, file: string)
    requires AddsOneEach(t, mid, names) && file !in names && file != ""
    ensures AddsOneEach(t, Touched(mid, file), names + {file})
  {
    hide Touched, TurnsOf, Counted;
    OneTouch(mid, file);
    OneName(t.turns.Keys, names, file);
  }

  lemma OneName(keys: set<string>, names: set<string>, file: string)
    requires file !in names
    ensures keys + names + {file} == keys + (names + {file})
    ensures |names + {file}| == |names| + 1
  {
  }

  /** Conservation of rework: over any history of deduplicated turns, each file's count is the
      number of turns that changed it, and the rework passes are all changes less one first change
      per file. */
  lemma {:induction false} ReworkIsConserved(turns: seq<seq<string>>)
    requires forall i | 0 <= i < |turns| :: Distinct(turns[i])
    ensures var t := TallyAfter(turns);
      && (forall f :: TurnsOf(t, f) == TurnCount(turns, f))
      && Counted(t)
      && t.turns.Keys == AllNames(turns)
      && t.rework + |AllNames(turns)| == Mutations(turns)
  {
    if turns != [] {
      var front, last := turns[..|turns| - 1], turns[|turns| - 1];
      ReworkIsConserved(front);
      assert Distinct(last);
      assert last[..|last|] == last;
      OneTurn(TallyAfter(front), last, |last|);
    }
  }

  ghost predicate Maximal(t: Tally, names: set<string>, worst: (string, nat)) {
    && (worst.0 == "" <==> worst.1 == 0)
    && (worst.0 != "" ==> worst.0 in names && worst.1 == TurnsOf(t, worst.0))
    && (forall f | f in names :: TurnsOf(t, f) <= worst.1)
  }

  lemma {:induction false} WorstIsMaximal(t: Tally, files: seq<string>, n: nat)
    requires n <= |files| && Distinct(files) && Counted(t)
    ensures Maximal(t, Names(files[..n]), Worst(t, files, n))
  {
    if n == 0 {
      assert Names(files[..0]) == {};
    } else {
      hide Touched, TouchedBy, TurnsOf, Names, Maximal, Distinct, Counted;
      WorstIsMaximal(t, files, n - 1);
      NamesGrow(files, n);
      UntouchedYet(t, files, n);
      NextWorst(t, Names(files[..n - 1]), Worst(t, files, n - 1), files[n - 1]);
    }
  }

  lemma UntouchedYet(t: Tally, files: seq<string>, n: nat)
    requires 0 < n <= |files| && Distinct(files) && Counted(t)
    ensures TurnsOf(TouchedBy(t, files, n - 1), files[n - 1]) == TurnsOf(t, files[n - 1])
  {
    hide Names, TouchedBy, TurnsOf, Distinct, Counted;
    OneTurn(t, files, n - 1);
    NamesGrow(files, n);
  }

  lemma NextWorst(t: Tally, names: set<string>, worst: (string, nat), file: string)
    requires Maximal(t, names, worst)
    ensures Maximal(t, names + if file == "" then {} else {file},
                    if file != "" && TurnsOf(t, file) > worst.1 then (file, TurnsOf(t, file)) else worst)
  {
  }

  /** The guard stops a turn exactly when a file it changed reaches its fifth turn of changes, or
      all changes exceed the number of files by eight; and it blames a file that turn changed. */
  lemma StopsExactlyAtTheCaps(turns: seq<seq<string>>, files: seq<string>)
    requires Distinct(files) && forall i | 0 <= i < |turns| :: Distinct(turns[i])
    ensures var verdict := Verdict(TallyAfter(turns), files);
      var after := turns + [files];
      && (verdict != Converging <==>
          || (exists f | f in Names(files) :: TurnCount(after, f) > MAX_FILE_REWORK)
          || Mutations(after) >= |AllNames(after)| + MAX_TOTAL_REWORK)
      && (verdict.FileStalled? ==>
          verdict.file in Names(files) && TurnCount(after, verdict.file) == verdict.passes + 1)
  {
    var after := turns + [files];
    assert after[..|turns|] == turns;
    ReworkIsConserved(turns);
    ReworkIsConserved(after);
    WorstIsMaximal(TallyAfter(turns), files, |files|);
    OneTurn(TallyAfter(turns), files, |files|);
    assert files[..|files|] == files;
    var (file, passes) := Worst(TallyAfter(turns), files, |files|);
    if file != "" && passes >= MAX_FILE_REWORK {
      assert TurnCount(after, file) > MAX_FILE_REWORK;
    }
  }

  ghost predicate NeverStopped(turns: seq<seq<string>>) {
    forall n | 0 <= n < |turns| :: Verdict(TallyAfter(turns[..n]), turns[n]) == Converging
  }

  ghost predicate Bounded(turns: seq<seq<string>>) {
    && (forall f :: TurnCount(turns, f) <= MAX_FILE_REWORK)
    && Mutations(turns) <= |AllNames(turns)| + MAX_TOTAL_REWORK - 1
  }

  lemma BoundedTurn(turns: seq<seq<string>>)
    requires turns != [] && forall i | 0 <= i < |turns| :: Distinct(turns[i])
    requires Bounded(turns[..|turns| - 1])
    requires Verdict(TallyAfter(turns[..|turns| - 1]), turns[|turns| - 1]) == Converging
    ensures Bounded(turns)
  {
    hide Verdict, TallyAfter, Distinct, Names, Mutations, AllNames;
    var front, last := turns[..|turns| - 1], turns[|turns| - 1];
    assert front + [last] == turns;
    StopsExactlyAtTheCaps(front, last);
    forall f ensures TurnCount(turns, f) <= MAX_FILE_REWORK {
      if f in Names(last) {
        assert !(TurnCount(front + [last], f) > MAX_FILE_REWORK);
      } else {
        assert TurnCount(turns, f) == TurnCount(front, f);
      }
    }
  }

  /** Until the guard stops, no file has more than 4 turns of changes and the changes exceed the
      files by at most 7: a run that never stops makes a bounded number of changes. */
  lemma {:induction false} BoundedUntilStopped(turns: seq<seq<string>>)
    requires NeverStopped(turns) && forall i | 0 <= i < |turns| :: Distinct(turns[i])
    ensures Bounded(turns)
  {
    if turns == [] {
      NoTurns();
    } else {
      hide Verdict, TallyAfter, Distinct, NeverStopped, Bounded;
      NotStoppedBefore(turns);
      BoundedUntilStopped(turns[..|turns| - 1]);
      BoundedTurn(turns);
    }
  }

  lemma NoTurns()
    ensures Bounded([])
  {
  }

  lemma NotStoppedBefore(turns: seq<seq<string>>)
    requires turns != [] && NeverStopped(turns)
    ensures var front := turns[..|turns| - 1];
      NeverStopped(front) && Verdict(TallyAfter(front), turns[|turns| - 1]) == Converging
  {
    hide Verdict, TallyAfter;
    var front := turns[..|turns| - 1];
    assert forall n | 0 <= n < |front| :: front[..n] == turns[..n];
    assert Verdict(TallyAfter(turns[..|front|]), turns[|front|]) == Converging;
  }

  function FirstSeen(values: seq<string>, n: nat): seq<string>
    requires n <= |values|
  {
    if n == 0 then []
    else FirstSeen(values, n - 1) + if values[n - 1] in values[..n - 1] then [] else [values[n - 1]]
  }

  /** The files of a turn, each once, in first-seen order (internal/agent/loop.go). */
  method DedupeStrings(values: seq<string>) returns (out: seq<string>)
    ensures out == FirstSeen(values, |values|)
    ensures Distinct(out) && Names(out) == Names(values)
  {
    out := [];
    var seen: set<string> := {};
    for i := 0 to |values|
      invariant out == FirstSeen(values, i) && Distinct(out)
      invariant forall v :: v in seen <==> v in values[..i]
      invariant forall v :: v in out <==> v in values[..i]
    {
      assert values[..i + 1] == values[..i] + [values[i]];
      if values[i] in seen {
        continue;
      }
      seen := seen + {values[i]};
      out := out + [values[i]];
    }
    assert values[..|values|] == values;
  }
}
