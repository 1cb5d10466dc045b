/** The execution-profile controller (internal/agent/profile_controller.go): at most one
    posture escalation a run. */
module Posture {
  import opened Text

  datatype VerificationOutcome = Passed | Disabled | Correcting | Reported | Aborted

  /** The escalation target of a profile and its triggers; a zero trigger is off.
      Risk levels are given by their rank, 0 for an unknown level. */
  datatype Escalation = Escalation(
    maxTurns: int, onFailureStreak: int, onUncertain: int, onSelfCorrectFailure: bool, onRisk: nat,
    restoreGate: bool)

  datatype Trips = Trips(escalated: bool, uncertainSeen: nat, failure: bool, risk: bool, selfCorrect: bool,
                         uncertain: bool)

  const UNTRIPPED := Trips(false, 0, false, false, false, false)

  /** What the loop reports to the controller, and its question whether to escalate now. */
  datatype Signal =
    | ToolRan(streak: nat, executed: bool, risk: nat)
    | Uncertain
    | SelfCorrected(outcome: VerificationOutcome)
    | Decide

  predicate AnyTrip(t: Trips) { t.failure || t.risk || t.selfCorrect || t.uncertain }

  predicate Failing(outcome: VerificationOutcome) { outcome.Correcting? || outcome.Reported? || outcome.Aborted? }

  function Next(policy: Option<Escalation>, t: Trips, s: Signal): Trips {
    if policy.None? || t.escalated then t
    else
      var p := policy.value;
      match s
      case ToolRan(streak, executed, risk) =>
        t.(failure := t.failure || (p.onFailureStreak > 0 && streak >= p.onFailureStreak),
           risk := t.risk || (p.onRisk > 0 && executed && risk >= p.onRisk))
      case Uncertain =>
        if p.onUncertain <= 0 then t
        else t.(uncertainSeen := t.uncertainSeen + 1, uncertain := t.uncertain || t.uncertainSeen + 1 >= p.onUncertain)
      case SelfCorrected(outcome) => t.(selfCorrect := t.selfCorrect || (p.onSelfCorrectFailure && Failing(outcome)))
      case Decide => t.(escalated := AnyTrip(t))
  }

  predicate Fires(policy: Option<Escalation>, t: Trips) { policy.Some? && !t.escalated && AnyTrip(t) }

  class ProfileController {
    const policy: Option<Escalation>
    var escalated: bool
    var uncertainSeen: nat
    var failureTripped: bool
    var riskTripped: bool
    var scTripped: bool
    var uncertainTrip: bool

    ghost function Value(): Trips reads this {
      Trips(escalated, uncertainSeen, failureTripped, riskTripped, scTripped, uncertainTrip)
    }

    constructor (profile: Option<Escalation>)
      ensures policy == profile && Value() == UNTRIPPED
    {
      policy := profile;
      escalated, uncertainSeen := false, 0;
      failureTripped, riskTripped, scTripped, uncertainTrip := false, false, false, false;
    }

    method ObserveToolRan(streak: nat, executed: bool, risk: nat)
      modifies this
      ensures Value() == Next(policy, old(Value()), ToolRan(streak, executed, risk))
    {
      if policy.None? || escalated {
        return;
      }
      if policy.value.onFailureStreak > 0 && streak >= policy.value.onFailureStreak {
        failureTripped := true;
      }
      if policy.value.onRisk > 0 && executed && risk >= policy.value.onRisk {
        riskTripped := true;
      }
    }

    method ObserveUncertain()
      modifies this
      ensures Value() == Next(policy, old(Value()), Uncertain)
    {
      if policy.None? || escalated || policy.value.onUncertain <= 0 {
        return;
      }
      uncertainSeen := uncertainSeen + 1;
      if uncertainSeen >= policy.value.onUncertain {
        uncertainTrip := true;
      }
    }

    method ObserveSelfCorrect(outcome: VerificationOutcome)
      modifies this
      ensures Value() == Next(policy, old(Value()), SelfCorrected(outcome))
    {
      if policy.None? || escalated || !policy.value.onSelfCorrectFailure {
        return;
      }
      match outcome
      case Correcting | Reported | Aborted => scTripped := true;
      case _ =>
    }

    method MaybeEscalate() returns (fired: bool)
      modifies this
      ensures Value() == Next(policy, old(Value()), Decide)
      ensures fired <==> Fires(policy, old(Value()))
    {
      if policy.None? || escalated {
        return false;
      }
      if !(failureTripped || riskTripped || scTripped || uncertainTrip) {
        return false;
      }
      escalated := true;
      return true;
    }
  }

  function After(policy: Option<Escalation>, run: seq<Signal>): Trips {
    if run == [] then UNTRIPPED else Next(policy, After(policy, run[..|run| - 1]), run[|run| - 1])
  }

  function Uncertainties(run: seq<Signal>): nat {
    if run == [] then 0 else Uncertainties(run[..|run| - 1]) + if run[|run| - 1].Uncertain? then 1 else 0
  }

  /** Said of a whole run: one of its signals met an armed trigger of the profile. */
  ghost predicate Triggered(p: Escalation, run: seq<Signal>) {
    || (exists s | s in run :: Trigger(p, s))
    || (p.onUncertain > 0 && Uncertainties(run) >= p.onUncertain)
  }

  predicate Trigger(p: Escalation, s: Signal) {
    match s
    case ToolRan(streak, executed, risk) =>
      || (p.onFailureStreak > 0 && streak >= p.onFailureStreak)
      || (p.onRisk > 0 && executed && risk >= p.onRisk)
    case SelfCorrected(outcome) => p.onSelfCorrectFailure && Failing(outcome)
    case _ => false
  }

  ghost predicate FiredWithin(policy: Option<Escalation>, run: seq<Signal>) {
    exists i | 0 <= i < |run| :: run[i].Decide? && Fires(policy, After(policy, run[..i]))
  }

  lemma TriggeredGrows(p: Escalation, run: seq<Signal>, s: Signal)
    ensures Triggered(p, run + [s])
       <==> || Triggered(p, run) || Trigger(p, s)
            || (p.onUncertain > 0 && s.Uncertain? && Uncertainties(run) + 1 >= p.onUncertain)
  {
    var all := run + [s];
    assert all[..|all| - 1] == run;
    assert s in all;
    assert forall x :: x in all <==> x in run || x == s;
  }

  lemma FiredGrows(policy: Option<Escalation>, front: seq<Signal>, last: Signal)
    ensures FiredWithin(policy, front + [last])
       <==> FiredWithin(policy, front) || (last.Decide? && Fires(policy, After(policy, front)))
  {
    hide After, Fires;
    var run := front + [last];
    assert forall i | 0 <= i < |front| :: run[..i] == front[..i] && run[i] == front[i];
    assert run[..|front|] == front;
    if FiredWithin(policy, front) {
      var i :| 0 <= i < |front| && front[i].Decide? && Fires(policy, After(policy, front[..i]));
      assert run[i].Decide? && Fires(policy, After(policy, run[..i]));
    }
    if last.Decide? && Fires(policy, After(policy, front)) {
      assert run[|front|].Decide? && Fires(policy, After(policy, run[..|front|]));
    }
  }

  lemma {:induction false} TripsMirrorRun(p: Escalation, run: seq<Signal>)
    ensures var t := After(Some(p), run);
      && (t.escalated <==> FiredWithin(Some(p), run))
      && (!t.escalated ==> (AnyTrip(t) <==> Triggered(p, run)))
      && (!t.escalated && p.onUncertain > 0 ==> t.uncertainSeen == Uncertainties(run))
  {
    if run != [] {
      hide FiredWithin, Triggered;
      var front, last := run[..|run| - 1], run[|run| - 1];
      TripsMirrorRun(p, front);
      assert run == front + [last];
      FiredGrows(Some(p), front, last);
      TriggeredGrows(p, front, last);
    }
  }

  /** A decision escalates exactly when the profile's triggers were met and no earlier decision
      escalated: escalation happens at the first chance, once, and never again. */
  lemma EscalatesOnce(p: Escalation, run: seq<Signal>)
    ensures Fires(Some(p), After(Some(p), run)) <==> Triggered(p, run) && !FiredWithin(Some(p), run)
    ensures Fires(Some(p), After(Some(p), run)) ==>
      forall later: seq<Signal> :: !Fires(Some(p), After(Some(p), run + [Decide] + later))
  {
    TripsMirrorRun(p, run);
    if Fires(Some(p), After(Some(p), run)) {
      forall later: seq<Signal> ensures !Fires(Some(p), After(Some(p), run + [Decide] + later)) {
        assert (run + [Decide])[..|run|] == run;
        StaysEscalated(Some(p), run + [Decide], later);
      }
    }
  }

  lemma {:induction false} StaysEscalated(policy: Option<Escalation>, run: seq<Signal>, later: seq<Signal>)
    requires After(policy, run).escalated
    ensures After(policy, run + later).escalated
  {
    if later == [] {
      assert run + later == run;
    } else {
      assert (run + later)[..|run + later| - 1] == run + later[..|later| - 1];
      StaysEscalated(policy, run, later[..|later| - 1]);
    }
  }
}
