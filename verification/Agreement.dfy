/** The Go service and the Python evaluator were written separately over the same log files.
    Here is exactly where they may differ, record by record, and a proof that elsewhere the two
    reports are the same. */
module Agreement {
  import opened Domain
  import opened FiniteSums
  import opened Audit
  import opened Records
  import opened Evaluation

  predicate ValuesAgree(v: Json) { v != Null && (v.Number? ==> 0.0 <= v.r <= 1.0) }

  predicate CostsAgree(d: Decision) { d.actualCost >= 0.0 || d.actualCost == d.estimatedCost }

  /** JSON null and numbers outside [0, 1] are the only values the two programs read differently. */
  lemma ValuesAgreeIff(v: Json)
    ensures GoValue(v) == PyValue(v) <==> ValuesAgree(v)
  {
    match v
    case Number(r) =>
      if r < 0.0 { assert PyValue(v) == Some(0.0); }
    case _ =>
  }

  /** They price a decision differently only when its recorded cost is negative. */
  lemma CostsAgreeIff(d: Decision)
    ensures Billed(d) == PyCost(d) <==> CostsAgree(d)
  {}

  lemma ByIdOfKeyed(m: map<string, Decision>)
    requires Keyed(m)
    ensures ById(m.Values) == m && DistinctIds(m.Values)
  {
    var ids := set d | d in m.Values :: d.id;
    assert ids == m.Keys by {
      forall id | id in m ensures id in ids { assert m[id] in m.Values; }
    }
    forall id | id in m
      ensures Named(m.Values, id) == m[id]
    {
      assert m[id] in m.Values;
    }
  }

  /** One tenant, no filters, values and costs in the range the product documents. */
  ghost predicate Comparable(log: seq<Decision>, os: seq<Outcome>, q: Query)
  {
    && (forall d :: d in log ==> d.id != "" && InScope(d, q) && d.actualCost >= 0.0 && d.incumbentCost >= 0.0)
    && (forall o :: o in os ==>
          o.tenant == q.tenant && o.createdAt >= q.since && (o.kind == q.primary ==> ValuesAgree(o.value)))
  }

  lemma {:induction false} BallotsAgree(os: seq<Outcome>, current: map<string, Decision>, q: Query)
    requires "" !in current
    requires forall o :: o in os ==>
               o.tenant == q.tenant && o.createdAt >= q.since && (o.kind == q.primary ==> ValuesAgree(o.value))
    ensures Ballot(os, current, q) == PyBallot(os, current, q.primary)
  {
    if os != [] {
      var n := |os| - 1;
      assert os == os[..n] + [os[n]];
      assert os[n] in os;
      BallotsAgree(os[..n], current, q);
      ValuesAgreeIff(os[n].value);
    }
  }

  ghost predicate SameReport(py: Report, go: Summary)
  {
    && py.treatment == go.treatment && py.control == go.control && py.delta == go.delta
    && py.actual == go.totals.actual && py.incumbent == go.totals.incumbent
    && py.savings == go.savings && py.savingsPercent == go.savingsPercent
    && forall m :: CountOf(py.models, m) == RowIn(go.byModel, m).requests
  }

  /** The online summary and the offline report of one log are equal, field by field. */
  lemma {:induction false} GoAndPythonAgree(log: seq<Decision>, os: seq<Outcome>, q: Query, tolerance: real,
                                            sqrt: real -> real)
    requires Comparable(log, os, q)
    ensures SameReport(ReportOf(Latest(log).Values, PyBallot(os, Latest(log), q.primary), tolerance, sqrt),
                       SummaryOf(Replay(log).Values, os, q, sqrt))
  {
    hide Replay, Latest, Ballot, PyBallot, ReportOf, SummaryOf, SameReport;
    ReadersAgree(log);
    LatestInLog(log);
    LatestSkipsAnonymous(log);
    ReplayIsKeyed(log);
    BallotsAgree(os, Latest(log), q);
    ReportsAgree(Latest(log), os, q, tolerance, sqrt);
  }

  lemma ReportsAgree(current: map<string, Decision>, os: seq<Outcome>, q: Query, tolerance: real, sqrt: real -> real)
    requires Keyed(current)
    requires forall id :: id in current ==>
               InScope(current[id], q) && current[id].actualCost >= 0.0 && current[id].incumbentCost >= 0.0
    ensures SameReport(ReportOf(current.Values, Ballot(os, current, q), tolerance, sqrt),
                       SummaryOf(current.Values, os, q, sqrt))
  {
    hide ArmsOf, Filter, Ballot, ArmInterval, RowsOf, BucketCounts, ModelCounts, Total, ById, InArm;
    var s := current.Values;
    ByIdOfKeyed(current);
    assert Scoped(s, q) == s;
    ProductionOf(s);
    TotalCongruence(Production(s), Billed, PyCost);
    TotalNonNegative(Production(s), Counterfactual);
    var py := ReportOf(s, Ballot(os, current, q), tolerance, sqrt);
    var go := SummaryOf(s, os, q, sqrt);
    forall m
      ensures CountOf(py.models, m) == RowIn(go.byModel, m).requests
    {
      ModelCountsAgree(s, os, q, sqrt, m);
    }
  }

  lemma ModelCountsAgree(s: set<Decision>, os: seq<Outcome>, q: Query, sqrt: real -> real, m: string)
    requires Scoped(s, q) == s
    ensures CountOf(ModelCounts(s), m) == RowIn(SummaryOf(s, os, q, sqrt).byModel, m).requests
  {
    hide Filter, ArmInterval, ArmsOf, Ballot, TotalsOf;
    if m !in ModelCounts(s) { NobodyAnswered(s, m); }
  }

  lemma ProductionOf(s: set<Decision>)
    ensures forall d :: d in Production(s) ==> d in s
  {}

  lemma NobodyAnswered(s: set<Decision>, m: string)
    requires m !in ModelCounts(s)
    ensures Filter(s, AnsweredBy(m)) == {}
  {
    assert forall d :: d in Filter(s, AnsweredBy(m)) ==> d in Production(s) && Answering(d) in ModelCounts(s);
  }
}
