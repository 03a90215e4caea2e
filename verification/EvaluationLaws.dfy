/** What the offline report's verdicts are worth. */
module EvaluationLaws {
  import opened Domain
  import opened FiniteSums
  import opened Audit
  import opened AuditLaws
  import opened Records
  import opened Evaluation
  import Wilson

  /** Whatever the outcome file contains, a vote is a proportion. */
  lemma {:induction false} PyVotesAreProportions(os: seq<Outcome>, current: map<string, Decision>, kind: string)
    ensures forall t :: t in PyBallot(os, current, kind) ==> t != "" && 0.0 <= PyBallot(os, current, kind)[t] <= 1.0
  {
    if os != [] { PyVotesAreProportions(os[..|os| - 1], current, kind); }
  }

  ghost predicate Brackets(i: Interval) { 0.0 <= i.lower <= i.estimate <= i.upper <= 1.0 }

  /** On any two files: each interval brackets its rate, the conservative difference never exceeds the
      observed one, and so non-inferiority at 95% implies observed non-inferiority, at any tolerance. */
  lemma ConservativeVerdictIsSafe(ds: seq<Decision>, os: seq<Outcome>, kind: string, tolerance: real,
                                  sqrt: real -> real)
    requires forall x :: x >= 0.0 ==> Wilson.IsRoot(sqrt(x), x)
    ensures var r := ReportOf(Latest(ds).Values, PyBallot(os, Latest(ds), kind), tolerance, sqrt);
            && Brackets(r.treatment) && Brackets(r.control)
            && -1.0 <= r.conservativeDelta <= r.delta <= 1.0
            && (r.nonInferior95 ==> r.nonInferiorObserved)
  {
    hide PyBallot, ArmsOf, ArmInterval;
    var s := Latest(ds).Values;
    PyVotesAreProportions(os, Latest(ds), kind);
    ArmBracketed(PyBallot(os, Latest(ds), kind), ArmsOf(s), TreatmentArm, sqrt);
    ArmBracketed(PyBallot(os, Latest(ds), kind), ArmsOf(s), ControlArm, sqrt);
  }

  /** With no labelled trace in one arm that arm's interval is the point 0, so an unlabelled control
      arm never counts against the treatment, and two empty arms pass at every tolerance that is not
      negative. The report then always carries its warning about few labels. */
  lemma EmptyArmsCanPass(s: set<Decision>, ballot: map<string, real>, tolerance: real, sqrt: real -> real)
    ensures var r := ReportOf(s, ballot, tolerance, sqrt);
            && (r.control.n == 0 && tolerance >= 0.0 ==> r.nonInferior95)
            && (r.treatment.n == 0 ==> (r.nonInferior95 <==> r.control.upper <= tolerance))
            && (r.control.n == 0 && r.treatment.n == 0 ==> (r.nonInferior95 <==> tolerance >= 0.0))
            && (r.control.n == 0 || r.treatment.n == 0 ==> r.fewLabels)
  {
    hide ArmsOf, Voters, Total;
  }
}
