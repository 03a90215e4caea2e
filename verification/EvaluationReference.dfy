/** The same independent definition for the Python report, and what its two verdicts decide. */
module EvaluationReference {
  import opened Audit
  import AuditLaws
  import opened AuditReference
  import opened Domain
  import opened Evaluation
  import opened EvaluationLaws
  import opened FiniteSums
  import opened Reals
  import opened Records
  import Wilson

  /** The value of an outcome as Python reads it: clamped, and null is none. */
  ghost predicate PyReads(v: Json, x: real)
  {
    || (v == Bool(true) && x == 1.0) || (v == Bool(false) && x == 0.0)
    || (v.Number? && ((0.0 <= v.r <= 1.0 && x == v.r) || (v.r < 0.0 && x == 0.0) || (v.r > 1.0 && x == 1.0)))
  }

  ghost predicate PyCounts(o: Outcome, kind: string) { o.kind == kind && (o.value.Bool? || o.value.Number?) }

  /** The outcome speaks for this trace, by its own or by the decision it names in the latest records. */
  ghost predicate PySpeaksFor(o: Outcome, current: map<string, Decision>, t: string)
  {
    t != "" && (o.trace == t || (o.trace == "" && o.decisionId in current && current[o.decisionId].trace == t))
  }

  ghost predicate PyVotesAre(votes: map<string, real>, os: seq<Outcome>, current: map<string, Decision>, kind: string)
  {
    && (forall t :: t in votes <==>
          exists i :: 0 <= i < |os| && PyCounts(os[i], kind) && PySpeaksFor(os[i], current, t))
    && (forall t, i :: 0 <= i < |os| && PyCounts(os[i], kind) && PySpeaksFor(os[i], current, t) &&
                       (forall j :: i < j < |os| && PyCounts(os[j], kind) ==> !PySpeaksFor(os[j], current, t))
                       ==> t in votes && PyReads(os[i].value, votes[t]))
  }

  /** What Python charges: the measured cost unless it is absent or zero. */
  function PyCharge(): Decision -> real
  {
    (d: Decision) => if d.actualCost == 0.0 then d.estimatedCost else d.actualCost
  }

  ghost predicate PyVotesFor(o: Outcome, current: map<string, Decision>, kind: string, t: string)
  {
    PyCounts(o, kind) && PySpeaksFor(o, current, t)
  }

  lemma PyBallotStep(os: seq<Outcome>, current: map<string, Decision>, kind: string, t: string)
    requires os != []
    ensures var n := |os| - 1; var before, after := PyBallot(os[..n], current, kind), PyBallot(os, current, kind);
            && (t in after <==> t in before || PyVotesFor(os[n], current, kind, t))
            && (PyVotesFor(os[n], current, kind, t) ==> t in after && PyReads(os[n].value, after[t]))
            && (!PyVotesFor(os[n], current, kind, t) && t in before ==> after[t] == before[t])
  {}

  lemma {:induction false} PyVoted(os: seq<Outcome>, current: map<string, Decision>, kind: string, t: string)
    ensures t in PyBallot(os, current, kind) <==> exists i :: 0 <= i < |os| && PyVotesFor(os[i], current, kind, t)
  {
    hide PyBallot, PyVotesFor, PyReads;
    if os == [] {
      NoPyVotes(current, kind);
    } else {
      var n := |os| - 1;
      PyVoted(os[..n], current, kind, t);
      PyBallotStep(os, current, kind, t);
      if i :| 0 <= i < n && PyVotesFor(os[..n][i], current, kind, t) { assert PyVotesFor(os[i], current, kind, t); }
      if i :| 0 <= i < n && PyVotesFor(os[i], current, kind, t) { assert os[..n][i] == os[i]; }
    }
  }

  lemma {:induction false} PyLastVote(os: seq<Outcome>, current: map<string, Decision>, kind: string, t: string, i: nat)
    requires i < |os| && PyVotesFor(os[i], current, kind, t)
    requires forall j :: i < j < |os| ==> !PyVotesFor(os[j], current, kind, t)
    ensures t in PyBallot(os, current, kind) && PyReads(os[i].value, PyBallot(os, current, kind)[t])
  {
    hide PyBallot, PyVotesFor, PyReads;
    var n := |os| - 1;
    PyBallotStep(os, current, kind, t);
    if i < n { PyLastVote(os[..n], current, kind, t, i); }
  }

  lemma NoPyVotes(current: map<string, Decision>, kind: string)
    ensures PyBallot([], current, kind) == map[]
  {}

  lemma PyBallotMeans(os: seq<Outcome>, current: map<string, Decision>, kind: string)
    ensures PyVotesAre(PyBallot(os, current, kind), os, current, kind)
  {
    hide PyBallot, PyCounts, PySpeaksFor, PyReads;
    forall t
      ensures t in PyBallot(os, current, kind) <==> exists i :: 0 <= i < |os| && PyVotesFor(os[i], current, kind, t)
    {
      PyVoted(os, current, kind, t);
    }
    forall t, i | 0 <= i < |os| && PyCounts(os[i], kind) && PySpeaksFor(os[i], current, t) &&
      (forall j :: i < j < |os| && PyCounts(os[j], kind) ==> !PySpeaksFor(os[j], current, t))
      ensures t in PyBallot(os, current, kind) && PyReads(os[i].value, PyBallot(os, current, kind)[t])
    {
      PyLastVote(os, current, kind, t, i);
    }
  }

  // ---------- the report ----------

  /** The production decisions of the control group. */
  ghost function ControlDecisions(s: set<Decision>): set<Decision>
  {
    set d | d in s && d.bucket != Shadow && d.trace in ControlTraces(s)
  }

  /** The costs, the model counts and the warnings of the report, as counts and sums over records. */
  lemma ReportMeans(s: set<Decision>, votes: map<string, real>, tolerance: real, sqrt: real -> real, m: string)
    ensures var r := ReportOf(s, votes, tolerance, sqrt);
            && r.actual == Total(Served(s), PyCharge()) && r.incumbent == Total(Served(s), AsIncumbent())
            && r.savings == (if r.incumbent > r.actual then r.incumbent - r.actual else 0.0)
            && r.savingsPercent * r.incumbent == (if r.incumbent != 0.0 then r.savings * 100.0 else 0.0)
            && (r.incumbent == 0.0 ==> r.savingsPercent == 0.0)
            && CountOf(r.models, m) == |AnswersOf(s, m)| && (m in r.models <==> AnswersOf(s, m) != {})
            && (r.noCounterfactual <==> Total(ControlDecisions(s), AsIncumbent()) == 0.0)
  {
    hide ArmsOf, ArmInterval, ModelCounts, ControlTraces, Total;
    var r := ReportOf(s, votes, tolerance, sqrt);
    CostsMean(s);
    ModelsMean(s, m);
    ControlCostMeans(s);
    if r.incumbent != 0.0 { assert r.savings / r.incumbent * 100.0 * r.incumbent == r.savings * 100.0; }
  }

  lemma CostsMean(s: set<Decision>)
    ensures Total(Production(s), PyCost) == Total(Served(s), PyCharge())
    ensures Total(Production(s), Counterfactual) == Total(Served(s), AsIncumbent())
  {
    assert Production(s) == Served(s);
    TotalCongruence(Served(s), PyCost, PyCharge());
    TotalCongruence(Served(s), Counterfactual, AsIncumbent());
  }

  lemma ModelsMean(s: set<Decision>, m: string)
    ensures CountOf(ModelCounts(s), m) == |AnswersOf(s, m)| && (m in ModelCounts(s) <==> AnswersOf(s, m) != {})
  {
    assert Filter(s, AnsweredBy(m)) == AnswersOf(s, m);
    if m in ModelCounts(s) {
      var d :| d in Production(s) && Answering(d) == m;
      assert d in AnswersOf(s, m);
    }
    if AnswersOf(s, m) != {} {
      var d :| d in AnswersOf(s, m);
      assert d in Production(s) && Answering(d) == m;
    }
  }

  lemma ControlCostMeans(s: set<Decision>)
    ensures Total(Filter(s, InArm(ArmsOf(s), ArmsOf(s).Keys, ControlArm)), Counterfactual) ==
            Total(ControlDecisions(s), AsIncumbent())
  {
    forall d | d in s && d.bucket != Shadow
      ensures d.trace in ControlTraces(s) <==> d.trace in ArmsOf(s) && ArmsOf(s)[d.trace] == ControlArm
    {
      TraceArm(s, d.trace);
    }
    hide ArmsOf, ControlTraces;
    assert Filter(s, InArm(ArmsOf(s), ArmsOf(s).Keys, ControlArm)) == ControlDecisions(s);
    TotalCongruence(ControlDecisions(s), Counterfactual, AsIncumbent());
  }

  /** Arms, difference and the warning about few labels. */
  lemma ReportArmsMean(ds: seq<Decision>, os: seq<Outcome>, kind: string, tolerance: real, sqrt: real -> real)
    ensures var s := Latest(ds).Values; var votes := PyBallot(os, Latest(ds), kind);
            var r := ReportOf(s, votes, tolerance, sqrt);
            && PyVotesAre(votes, os, Latest(ds), kind)
            && ArmIs(r.treatment, TreatedTraces(s), votes) && ArmIs(r.control, ControlTraces(s), votes)
            && r.delta == r.treatment.estimate - r.control.estimate
            && r.conservativeDelta == r.treatment.lower - r.control.upper
            && (r.fewLabels <==> r.treatment.n < 100 || r.control.n < 100)
  {
    hide ArmsOf, ArmInterval, PyBallot, PyVotesAre, ArmIs, TreatedTraces, ControlTraces, Total;
    var s := Latest(ds).Values;
    PyBallotMeans(os, Latest(ds), kind);
    ArmMeans(s, PyBallot(os, Latest(ds), kind), TreatmentArm, sqrt);
    ArmMeans(s, PyBallot(os, Latest(ds), kind), ControlArm, sqrt);
  }

  // ---------- the verdicts ----------

  /** The score test at 1.96 standard errors does not reject the success rate x for this arm. */
  ghost predicate Plausible(i: Interval, x: real)
  {
    i.n as real * ((i.estimate - x) * (i.estimate - x)) <= 1.96 * 1.96 * (x * (1.0 - x))
  }

  /** One success rate, sT of nT, is at most `tolerance` below another, sC of nC. */
  ghost predicate NotWorse(sT: real, nT: nat, sC: real, nC: nat, tolerance: real)
  {
    sT * nC as real + tolerance * nT as real * nC as real >= sC * nT as real
  }

  /** The observed verdict compares the success rates of the two arms, the 95% verdict all pairs of rates
      that are plausible for them. */
  lemma VerdictsMean(ds: seq<Decision>, os: seq<Outcome>, kind: string, tolerance: real, sqrt: real -> real)
    requires forall x :: x >= 0.0 ==> Wilson.IsRoot(sqrt(x), x)
    requires var r := ReportOf(Latest(ds).Values, PyBallot(os, Latest(ds), kind), tolerance, sqrt);
             r.treatment.n > 0 && r.control.n > 0
    ensures var s := Latest(ds).Values; var votes := PyBallot(os, Latest(ds), kind);
            var r := ReportOf(s, votes, tolerance, sqrt);
            var treated, control := TreatedTraces(s) * votes.Keys, ControlTraces(s) * votes.Keys;
            var sT, sC := Total(treated, VoteIn(votes)), Total(control, VoteIn(votes));
            && (r.nonInferiorObserved <==> NotWorse(sT, |treated|, sC, |control|, tolerance))
            && (r.nonInferior95 <==>
                  forall t, c :: Plausible(r.treatment, t) && Plausible(r.control, c) ==> t >= c - tolerance)
  {
    hide PyBallot, ReportOf, TreatedTraces, ControlTraces, Total, NotWorse, Plausible, PyVotesAre, Averages, Latest;
    var s, votes := Latest(ds).Values, PyBallot(os, Latest(ds), kind);
    var r := ReportOf(s, votes, tolerance, sqrt);
    ReportArmsMean(ds, os, kind, tolerance, sqrt);
    var treated, control := TreatedTraces(s) * votes.Keys, ControlTraces(s) * votes.Keys;
    CompareRates(r.treatment, Total(treated, VoteIn(votes)), r.control, Total(control, VoteIn(votes)), tolerance);
    PyVotesAreProportions(os, Latest(ds), kind);
    VerdictsCompare(s, votes, tolerance, sqrt);
  }

  lemma CompareRates(i: Interval, sT: real, j: Interval, sC: real, tolerance: real)
    requires i.n > 0 && j.n > 0 && Averages(i, sT) && Averages(j, sC)
    ensures i.estimate - j.estimate >= -tolerance <==> NotWorse(sT, i.n, sC, j.n, tolerance)
  {
    var pT, pC, nT, nC := i.estimate, j.estimate, i.n as real, j.n as real;
    var d := pT - pC + tolerance;
    ProductPositive(nT, nC);
    assert d * (nT * nC) == (pT * nT) * nC + tolerance * nT * nC - (pC * nC) * nT;
    if d >= 0.0 { ProductSign(d, nT * nC); } else { ProductPositive(-d, nT * nC); }
  }

  lemma VerdictsCompare(s: set<Decision>, votes: map<string, real>, tolerance: real, sqrt: real -> real)
    requires forall x :: x >= 0.0 ==> Wilson.IsRoot(sqrt(x), x)
    requires forall t :: t in votes ==> 0.0 <= votes[t] <= 1.0
    requires var r := ReportOf(s, votes, tolerance, sqrt); r.treatment.n > 0 && r.control.n > 0
    ensures var r := ReportOf(s, votes, tolerance, sqrt);
            && (r.nonInferiorObserved <==> r.treatment.estimate - r.control.estimate >= -tolerance)
            && (r.nonInferior95 <==>
                  forall t, c :: Plausible(r.treatment, t) && Plausible(r.control, c) ==> t >= c - tolerance)
  {
    hide ArmsOf, ArmInterval, Total, ModelCounts, Plausible, IsPlausibleRange;
    IntervalIsPlausible(s, votes, TreatmentArm, sqrt);
    IntervalIsPlausible(s, votes, ControlArm, sqrt);
    var r := ReportOf(s, votes, tolerance, sqrt);
    AllPairs(r.treatment, r.control, tolerance);
  }

  ghost predicate IsPlausibleRange(i: Interval)
  {
    i.lower <= i.upper && forall x :: i.lower <= x <= i.upper <==> Plausible(i, x)
  }

  lemma IntervalIsPlausible(s: set<Decision>, votes: map<string, real>, arm: Arm, sqrt: real -> real)
    requires forall x :: x >= 0.0 ==> Wilson.IsRoot(sqrt(x), x)
    requires forall t :: t in votes ==> 0.0 <= votes[t] <= 1.0
    requires ArmInterval(votes, ArmsOf(s), arm, sqrt).n > 0
    ensures IsPlausibleRange(ArmInterval(votes, ArmsOf(s), arm, sqrt))
  {
    hide Plausible, Wilson.NotRejected, ArmsOf, Total, Wilson.Low, Wilson.High, Wilson.Radicand;
    var voters := Voters(votes, ArmsOf(s), arm);
    var sum := Total(voters, VoteIn(votes));
    AuditLaws.TotalAtMostCount(voters, VoteIn(votes));
    Wilson.HonestRoot(sum, |voters|, 1.96, sqrt);
    Wilson.EstimateInside(sum, |voters|, 1.96, sqrt);
    var i := ArmInterval(votes, ArmsOf(s), arm, sqrt);
    forall x
      ensures i.lower <= x <= i.upper <==> Plausible(i, x)
    {
      Wilson.IntervalIsScoreTest(sum, |voters|, 1.96, sqrt, x);
      SameTest(i, x);
    }
  }

  lemma SameTest(i: Interval, x: real)
    requires i.n > 0
    ensures Plausible(i, x) <==> Wilson.NotRejected(i.estimate, i.n as real, 1.96, x)
  {}

  lemma AllPairs(i: Interval, j: Interval, tolerance: real)
    requires IsPlausibleRange(i) && IsPlausibleRange(j)
    ensures i.lower - j.upper >= -tolerance <==>
              forall t, c :: Plausible(i, t) && Plausible(j, c) ==> t >= c - tolerance
  {
    hide Plausible;
    assert Plausible(i, i.lower) && Plausible(j, j.upper);
  }
}
