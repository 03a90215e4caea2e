/** The offline report of python/src/outcome_router/evaluation.py: it groups the latest decisions
    by trace, then reduces group by group. */
module Evaluation {
  import opened Domain
  import opened FiniteSums
  import opened Sequences
  import opened Audit
  import opened Records
  import Wilson

  datatype Group = Group(successes: real, n: nat, cost: real, incumbent: real)

  datatype Report = Report(
    control: Interval, treatment: Interval, delta: real, conservativeDelta: real,
    nonInferiorObserved: bool, nonInferior95: bool, actual: real, incumbent: real,
    savings: real, savingsPercent: real, models: map<string, nat>, fewLabels: bool, noCounterfactual: bool)

  /** _numeric_outcome: numbers are clamped to [0, 1] and null is no outcome. */
  function PyValue(v: Json): Option<real>
  {
    match v
    case Bool(b) => Some(if b then 1.0 else 0.0)
    case Number(r) => Some(Min(1.0, Max(0.0, r)))
    case Null => None
    case NoNumber => None
  }

  /** `actual or estimated or 0`: only an absent or zero actual cost falls through. */
  function PyCost(d: Decision): real { if d.actualCost != 0.0 then d.actualCost else d.estimatedCost }

  function PyTrace(o: Outcome, current: map<string, Decision>): string
  {
    if o.trace != "" then o.trace else if o.decisionId in current then current[o.decisionId].trace else ""
  }

  ghost function PyBallot(os: seq<Outcome>, current: map<string, Decision>, kind: string): map<string, real>
  {
    if os == [] then map[] else
      var n := |os| - 1;
      var earlier := PyBallot(os[..n], current, kind);
      if os[n].kind == kind && PyValue(os[n].value).Some? && PyTrace(os[n], current) != ""
      then earlier[PyTrace(os[n], current) := PyValue(os[n].value).value] else earlier
  }

  function InArm(arms: map<string, Arm>, done: set<string>, arm: Arm): Decision -> bool
  {
    (d: Decision) => IsProduction(d) && d.trace in done && d.trace in arms && arms[d.trace] == arm
  }

  function OnTraces(done: set<string>): Decision -> bool { (d: Decision) => IsProduction(d) && d.trace in done }

  function OnTrace(t: string): Decision -> bool { (d: Decision) => IsProduction(d) && d.trace == t }

  ghost function GroupOf(s: set<Decision>, ballot: map<string, real>, done: set<string>, arm: Arm): Group
  {
    var mine := Filter(s, InArm(ArmsOf(s), done, arm));
    var voters := Voters(ballot, ArmsOf(s), arm) * done;
    Group(Total(voters, VoteIn(ballot)), |voters|, Total(mine, PyCost), Total(mine, Counterfactual))
  }

  ghost function ModelCounts(s: set<Decision>): map<string, nat>
  {
    map m | m in (set d | d in Production(s) :: Answering(d)) :: |Filter(s, AnsweredBy(m))|
  }

  ghost function ReportOf(s: set<Decision>, ballot: map<string, real>, tolerance: real, sqrt: real -> real): Report
  {
    var control := ArmInterval(ballot, ArmsOf(s), ControlArm, sqrt);
    var treatment := ArmInterval(ballot, ArmsOf(s), TreatmentArm, sqrt);
    var actual, incumbent := Total(Production(s), PyCost), Total(Production(s), Counterfactual);
    var savings := Max(0.0, incumbent - actual);
    Report(control, treatment, treatment.estimate - control.estimate, treatment.lower - control.upper,
           treatment.estimate - control.estimate >= -tolerance, treatment.lower - control.upper >= -tolerance,
           actual, incumbent, savings, if incumbent != 0.0 then savings / incumbent * 100.0 else 0.0,
           ModelCounts(s), control.n < 100 || treatment.n < 100,
           Total(Filter(s, InArm(ArmsOf(s), ArmsOf(s).Keys, ControlArm)), Counterfactual) == 0.0)
  }

  /** `traces` lists the production decisions of every trace, each once. */
  ghost predicate Grouped(traces: map<string, seq<Decision>>, s: set<Decision>)
  {
    && (forall t :: t in traces <==> t in ArmsOf(s))
    && (forall t :: t in traces ==> Lists(traces[t], s, t))
  }

  // ---------- grouping ----------

  method GroupByTrace(current: map<string, Decision>) returns (traces: map<string, seq<Decision>>)
    requires Keyed(current)
    ensures Grouped(traces, current.Values)
  {
    traces := map[];
    var remaining := current.Keys;
    ghost var seen: set<Decision> := {};
    Nothing(Query("", "", "", 0), map[]);
    while remaining != {}
      invariant remaining <= current.Keys
      invariant seen == (set id | id in current && id !in remaining :: current[id])
      invariant Grouped(traces, seen)
      decreases remaining
    {
      var id :| id in remaining;
      var decision := current[id];
      assert decision !in seen;
      GroupStep(traces, seen, decision);
      remaining := remaining - {id};
      seen := seen + {decision};
      if decision.bucket == Shadow { continue; }
      traces := traces[decision.trace := ListOf(traces, decision.trace) + [decision]];
    }
    assert seen == current.Values;
  }

  ghost predicate Lists(list: seq<Decision>, s: set<Decision>, t: string)
  {
    NoDuplicates(list) && Elements(list) == Filter(s, OnTrace(t))
  }

  function ListOf(traces: map<string, seq<Decision>>, t: string): seq<Decision>
  {
    if t in traces then traces[t] else []
  }

  lemma GroupStep(traces: map<string, seq<Decision>>, s: set<Decision>, d: Decision)
    requires Grouped(traces, s) && d !in s
    ensures d.bucket == Shadow ==> Grouped(traces, s + {d})
    ensures d.bucket != Shadow ==> Grouped(traces[d.trace := ListOf(traces, d.trace) + [d]], s + {d})
  {
    hide ArmsOf, Lists;
    ArmsStep(s, d);
    forall t
      ensures Lists(ListOf(traces, t) + (if OnTrace(t)(d) then [d] else []), s + {d}, t)
    {
      ListStep(traces, s, d, t);
    }
    forall t | t in traces
      ensures ListOf(traces, t) + [] == traces[t]
    {}
  }

  lemma ListStep(traces: map<string, seq<Decision>>, s: set<Decision>, d: Decision, t: string)
    requires Grouped(traces, s) && d !in s
    ensures Lists(ListOf(traces, t) + (if OnTrace(t)(d) then [d] else []), s + {d}, t)
  {
    hide Lists, Grouped, ListOf, OnTrace;
    ListOfTrace(traces, s, t);
    if OnTrace(t)(d) {
      AppendElement(ListOf(traces, t), s, d, t);
    } else {
      SameList(ListOf(traces, t), s, d, t);
      assert ListOf(traces, t) + [] == ListOf(traces, t);
    }
  }

  lemma ListOfTrace(traces: map<string, seq<Decision>>, s: set<Decision>, t: string)
    requires Grouped(traces, s)
    ensures Lists(ListOf(traces, t), s, t)
  {
    hide ArmsOf, Filter;
    if t !in traces { EmptyTrace(s, t); }
  }

  lemma EmptyTrace(s: set<Decision>, t: string)
    requires t !in ArmsOf(s)
    ensures Filter(s, OnTrace(t)) == {}
  {
    assert forall d :: d in Production(s) ==> d.trace in ArmsOf(s);
  }

  lemma AppendElement(ds: seq<Decision>, s: set<Decision>, d: Decision, t: string)
    requires Lists(ds, s, t) && d !in s && OnTrace(t)(d)
    ensures Lists(ds + [d], s + {d}, t)
  {
    hide Filter;
    FilterStep(s, d, OnTrace(t));
    FilterInside(s, OnTrace(t));
    assert d !in Elements(ds);
    assert Elements(ds + [d]) == Elements(ds) + {d};
  }

  lemma SameList(ds: seq<Decision>, s: set<Decision>, d: Decision, t: string)
    requires Lists(ds, s, t) && d !in s && !OnTrace(t)(d)
    ensures Lists(ds, s + {d}, t)
  {
    hide Filter;
    FilterStep(s, d, OnTrace(t));
  }

  lemma FilterInside(s: set<Decision>, p: Decision -> bool)
    ensures Filter(s, p) <= s
  {}

  // ---------- votes ----------

  method TraceOutcomes(outcomes: seq<Outcome>, current: map<string, Decision>, kind: string)
    returns (ballot: map<string, real>)
    ensures ballot == PyBallot(outcomes, current, kind)
  {
    ballot := map[];
    for i := 0 to |outcomes|
      invariant ballot == PyBallot(outcomes[..i], current, kind)
    {
      var outcome := outcomes[i];
      assert outcomes[..i + 1][..i] == outcomes[..i];
      if outcome.kind != kind { continue; }
      match PyValue(outcome.value) {
        case None =>
        case Some(value) =>
          var trace := outcome.trace;
          if trace == "" && outcome.decisionId in current { trace := current[outcome.decisionId].trace; }
          if trace != "" { ballot := ballot[trace := value]; }
      }
    }
    assert outcomes[..|outcomes|] == outcomes;
  }

  // ---------- reducing ----------

  function CountOf(counts: map<string, nat>, m: string): nat { if m in counts then counts[m] else 0 }

  ghost predicate CountsAdded(before: map<string, nat>, after: map<string, nat>, done: set<Decision>)
  {
    && (forall m :: CountOf(after, m) == CountOf(before, m) + |Filter(done, AnsweredBy(m))|)
    && after.Keys == before.Keys + set d | d in done :: Answering(d)
  }

  lemma CountsAddedStep(before: map<string, nat>, after: map<string, nat>, done: set<Decision>, d: Decision)
    requires CountsAdded(before, after, done) && d !in done && IsProduction(d)
    ensures CountsAdded(before, after[Answering(d) := CountOf(after, Answering(d)) + 1], done + {d})
  {
    forall m
      ensures |Filter(done + {d}, AnsweredBy(m))| == |Filter(done, AnsweredBy(m))| + if m == Answering(d) then 1 else 0
    {
      FilterStep(done, d, AnsweredBy(m));
    }
  }

  lemma NoElements(trace: seq<Decision>)
    ensures Elements(trace[..0]) == {} && Elements(trace[..|trace|]) == Elements(trace)
  {
    assert trace[..|trace|] == trace;
  }

  lemma PrefixElements(trace: seq<Decision>, i: nat)
    requires i < |trace| && NoDuplicates(trace)
    ensures trace[i] in trace && trace[i] !in Elements(trace[..i])
    ensures Elements(trace[..i + 1]) == Elements(trace[..i]) + {trace[i]}
  {
    assert trace[..i + 1] == trace[..i] + [trace[i]];
  }

  lemma NoCounts(counts: map<string, nat>)
    ensures CountsAdded(counts, counts, {})
  {
    assert forall m :: Filter({}, AnsweredBy(m)) == {};
  }

  /** The inner loop: one trace's decisions are charged to its group and counted by model. */
  method AddTrace(trace: seq<Decision>, group: Group, counts: map<string, nat>)
    returns (group': Group, counts': map<string, nat>)
    requires NoDuplicates(trace) && forall d :: d in trace ==> IsProduction(d)
    ensures group' == group.(cost := group.cost + Total(Elements(trace), PyCost),
                             incumbent := group.incumbent + Total(Elements(trace), Counterfactual))
    ensures CountsAdded(counts, counts', Elements(trace))
  {
    hide CountsAdded, Elements, Answering;
    group', counts' := group, counts;
    ghost var done: set<Decision> := {};
    NoCounts(counts);
    NoElements(trace);
    for i := 0 to |trace|
      invariant done == Elements(trace[..i])
      invariant group' == group.(cost := group.cost + Total(done, PyCost),
                                 incumbent := group.incumbent + Total(done, Counterfactual))
      invariant CountsAdded(counts, counts', done)
    {
      var decision := trace[i];
      PrefixElements(trace, i);
      TotalInsert(done, PyCost, decision);
      TotalInsert(done, Counterfactual, decision);
      CountsAddedStep(counts, counts', done, decision);
      done := done + {decision};
      group' := group'.(cost := group'.cost + PyCost(decision), incumbent := group'.incumbent + decision.incumbentCost);
      counts' := counts'[Answering(decision) := CountOf(counts', Answering(decision)) + 1];
    }
  }

  // ---------- one more trace ----------

  predicate AnyTreated(trace: seq<Decision>) { exists d :: d in trace && InTreatment(d) }

  ghost function Charged(g: Group, trace: seq<Decision>, t: string, ballot: map<string, real>): Group
  {
    Group(g.successes + VoteIn(ballot)(t), g.n + (if t in ballot then 1 else 0),
          g.cost + Total(Elements(trace), PyCost), g.incumbent + Total(Elements(trace), Counterfactual))
  }

  lemma ArmOfTrace(s: set<Decision>, t: string, trace: seq<Decision>)
    requires Lists(trace, s, t) && t in ArmsOf(s)
    ensures ArmsOf(s)[t] == if AnyTreated(trace) then TreatmentArm else ControlArm
  {
    assert Treated(s, t) <==> AnyTreated(trace) by {
      if AnyTreated(trace) {
        var d :| d in trace && InTreatment(d);
        assert d in Elements(trace);
      }
      if Treated(s, t) {
        var d :| d in s && d.trace == t && InTreatment(d);
        assert d in Filter(s, OnTrace(t));
        assert d in Elements(trace);
      }
    }
  }

  lemma ArmTotalStep(s: set<Decision>, arms: map<string, Arm>, done: set<string>, t: string, arm: Arm,
                     f: Decision -> real)
    requires t !in done && t in arms
    ensures Total(Filter(s, InArm(arms, done + {t}, arm)), f) ==
            Total(Filter(s, InArm(arms, done, arm)), f) +
                if arms[t] == arm then Total(Filter(s, OnTrace(t)), f) else 0.0
  {
    var before, after := Filter(s, InArm(arms, done, arm)), Filter(s, InArm(arms, done + {t}, arm));
    var mine := Filter(s, OnTrace(t));
    if arms[t] == arm {
      assert after == before + mine;
      assert before !! mine;
      TotalUnion(before, mine, f);
    } else {
      assert after == before;
    }
  }

  lemma ArmVotersStep(ballot: map<string, real>, arms: map<string, Arm>, done: set<string>, t: string, arm: Arm)
    requires t !in done && t in arms
    ensures var before, after := Voters(ballot, arms, arm) * done, Voters(ballot, arms, arm) * (done + {t});
            && |after| == |before| + (if arms[t] == arm && t in ballot then 1 else 0)
            && Total(after, VoteIn(ballot)) == Total(before, VoteIn(ballot)) +
                 if arms[t] == arm then VoteIn(ballot)(t) else 0.0
  {
    var before, after := Voters(ballot, arms, arm) * done, Voters(ballot, arms, arm) * (done + {t});
    if arms[t] == arm && t in ballot {
      assert after == before + {t};
      TotalInsert(before, VoteIn(ballot), t);
    } else {
      assert after == before;
    }
  }

  lemma GroupStepFor(s: set<Decision>, ballot: map<string, real>, done: set<string>, t: string, trace: seq<Decision>,
                     arm: Arm)
    requires Lists(trace, s, t) && t in ArmsOf(s) && t !in done
    ensures GroupOf(s, ballot, done + {t}, arm) ==
            if arm == (if AnyTreated(trace) then TreatmentArm else ControlArm)
            then Charged(GroupOf(s, ballot, done, arm), trace, t, ballot) else GroupOf(s, ballot, done, arm)
  {
    hide ArmsOf, Filter, Voters, AnyTreated, VoteIn;
    ArmOfTrace(s, t, trace);
    ArmTotalStep(s, ArmsOf(s), done, t, arm, PyCost);
    ArmTotalStep(s, ArmsOf(s), done, t, arm, Counterfactual);
    ArmVotersStep(ballot, ArmsOf(s), done, t, arm);
  }

  lemma NoGroup(s: set<Decision>, ballot: map<string, real>, arm: Arm)
    ensures GroupOf(s, ballot, {}, arm) == Group(0.0, 0, 0.0, 0.0)
  {
    assert Filter(s, InArm(ArmsOf(s), {}, arm)) == {};
    assert Voters(ballot, ArmsOf(s), arm) * {} == {};
  }

  ghost predicate CountsFor(counts: map<string, nat>, p: set<Decision>)
  {
    && (forall m :: CountOf(counts, m) == |Filter(p, AnsweredBy(m))|)
    && counts.Keys == set d | d in p :: Answering(d)
  }

  lemma NoCountsFor(s: set<Decision>)
    ensures CountsFor(map[], Filter(s, OnTraces({})))
  {
    assert Filter(s, OnTraces({})) == {};
    assert forall m :: Filter({}, AnsweredBy(m)) == {};
  }

  lemma CountsStep(before: map<string, nat>, after: map<string, nat>, s: set<Decision>, done: set<string>, t: string)
    requires t !in done && CountsFor(before, Filter(s, OnTraces(done)))
    requires CountsAdded(before, after, Filter(s, OnTrace(t)))
    ensures CountsFor(after, Filter(s, OnTraces(done + {t})))
  {
    var p, mine := Filter(s, OnTraces(done)), Filter(s, OnTrace(t));
    assert Filter(s, OnTraces(done + {t})) == p + mine;
    assert p !! mine;
    CountsUnion(before, after, p, mine);
  }

  lemma CountsUnion(before: map<string, nat>, after: map<string, nat>, p: set<Decision>, mine: set<Decision>)
    requires p !! mine && CountsFor(before, p) && CountsAdded(before, after, mine)
    ensures CountsFor(after, p + mine)
  {
    forall m
      ensures |Filter(p + mine, AnsweredBy(m))| == |Filter(p, AnsweredBy(m))| + |Filter(mine, AnsweredBy(m))|
    {
      FilterUnion(p, mine, AnsweredBy(m));
    }
  }

  lemma FilterUnion(a: set<Decision>, b: set<Decision>, p: Decision -> bool)
    requires a !! b
    ensures |Filter(a + b, p)| == |Filter(a, p)| + |Filter(b, p)|
  {
    assert Filter(a + b, p) == Filter(a, p) + Filter(b, p);
    assert Filter(a, p) !! Filter(b, p);
  }

  lemma AllTraces(s: set<Decision>, counts: map<string, nat>)
    requires CountsFor(counts, Filter(s, OnTraces(ArmsOf(s).Keys)))
    ensures counts == ModelCounts(s)
  {
    assert Filter(s, OnTraces(ArmsOf(s).Keys)) == Production(s);
    forall m
      ensures Filter(Production(s), AnsweredBy(m)) == Filter(s, AnsweredBy(m))
    {}
  }

  lemma ListFacts(trace: seq<Decision>, s: set<Decision>, t: string)
    requires Lists(trace, s, t)
    ensures NoDuplicates(trace) && Elements(trace) == Filter(s, OnTrace(t))
    ensures forall d :: d in trace ==> IsProduction(d)
  {
    forall d | d in trace
      ensures IsProduction(d)
    {
      assert d in Elements(trace);
    }
  }

  lemma GroupTotals(s: set<Decision>, ballot: map<string, real>)
    ensures var c := GroupOf(s, ballot, ArmsOf(s).Keys, ControlArm);
            var t := GroupOf(s, ballot, ArmsOf(s).Keys, TreatmentArm);
            && c.cost + t.cost == Total(Production(s), PyCost)
            && c.incumbent + t.incumbent == Total(Production(s), Counterfactual)
            && c.successes == Total(Voters(ballot, ArmsOf(s), ControlArm), VoteIn(ballot)) &&
               c.n == |Voters(ballot, ArmsOf(s), ControlArm)|
            && t.successes == Total(Voters(ballot, ArmsOf(s), TreatmentArm), VoteIn(ballot)) &&
               t.n == |Voters(ballot, ArmsOf(s), TreatmentArm)|
            && c.incumbent == Total(Filter(s, InArm(ArmsOf(s), ArmsOf(s).Keys, ControlArm)), Counterfactual)
  {
    VotersHaveArms(ballot, ArmsOf(s), ControlArm);
    VotersHaveArms(ballot, ArmsOf(s), TreatmentArm);
    GroupsCoverProduction(s, PyCost);
    GroupsCoverProduction(s, Counterfactual);
  }

  lemma VotersHaveArms(ballot: map<string, real>, arms: map<string, Arm>, arm: Arm)
    ensures Voters(ballot, arms, arm) * arms.Keys == Voters(ballot, arms, arm)
  {}

  /** The two groups together hold every production decision once. */
  lemma GroupsCoverProduction(s: set<Decision>, f: Decision -> real)
    ensures Total(Filter(s, InArm(ArmsOf(s), ArmsOf(s).Keys, ControlArm)), f) +
            Total(Filter(s, InArm(ArmsOf(s), ArmsOf(s).Keys, TreatmentArm)), f) == Total(Production(s), f)
  {
    var c := Filter(s, InArm(ArmsOf(s), ArmsOf(s).Keys, ControlArm));
    var t := Filter(s, InArm(ArmsOf(s), ArmsOf(s).Keys, TreatmentArm));
    assert Production(s) == c + t;
    assert c !! t;
    TotalUnion(c, t, f);
  }

  method Reduce(traces: map<string, seq<Decision>>, ballot: map<string, real>, ghost s: set<Decision>)
    returns (control: Group, treatment: Group, counts: map<string, nat>)
    requires Grouped(traces, s)
    ensures control == GroupOf(s, ballot, traces.Keys, ControlArm)
    ensures treatment == GroupOf(s, ballot, traces.Keys, TreatmentArm)
    ensures counts == ModelCounts(s)
  {
    hide GroupOf, ArmsOf, Lists, Filter, CountsFor, CountsAdded, ModelCounts, AnyTreated, Elements;
    control, treatment, counts := Group(0.0, 0, 0.0, 0.0), Group(0.0, 0, 0.0, 0.0), map[];
    var remaining := traces.Keys;
    ghost var done: set<string> := {};
    NoGroup(s, ballot, ControlArm);
    NoGroup(s, ballot, TreatmentArm);
    NoCountsFor(s);
    while remaining != {}
      invariant remaining <= traces.Keys && done == traces.Keys - remaining
      invariant control == GroupOf(s, ballot, done, ControlArm) && treatment == GroupOf(s, ballot, done, TreatmentArm)
      invariant CountsFor(counts, Filter(s, OnTraces(done)))
      decreases remaining
    {
      var t :| t in remaining;
      remaining := remaining - {t};
      var trace := traces[t];
      ListFacts(trace, s, t);
      GroupStepFor(s, ballot, done, t, trace, ControlArm);
      GroupStepFor(s, ballot, done, t, trace, TreatmentArm);
      ghost var before := counts;
      if AnyTreated(trace) {
        treatment, counts := AddTrace(trace, treatment, counts);
        if t in ballot { treatment := treatment.(successes := treatment.successes + ballot[t], n := treatment.n + 1); }
      } else {
        control, counts := AddTrace(trace, control, counts);
        if t in ballot { control := control.(successes := control.successes + ballot[t], n := control.n + 1); }
      }
      CountsStep(before, counts, s, done, t);
      done := done + {t};
    }
    assert done == traces.Keys && traces.Keys == ArmsOf(s).Keys;
    AllTraces(s, counts);
  }

  /** The report the function returns, from the two groups it accumulated. */
  function Conclude(c: Group, t: Group, models: map<string, nat>, tolerance: real, sqrt: real -> real): Report
  {
    var control := Wilson.Score(c.successes, c.n, Wilson.Z95, sqrt);
    var treatment := Wilson.Score(t.successes, t.n, Wilson.Z95, sqrt);
    var totalCost := c.cost + t.cost;
    var incumbentCost := c.incumbent + t.incumbent;
    var savings := Max(0.0, incumbentCost - totalCost);
    var delta := treatment.estimate - control.estimate;
    var conservative := treatment.lower - control.upper;
    Report(control, treatment, delta, conservative, delta >= -tolerance, conservative >= -tolerance,
           totalCost, incumbentCost, savings, if incumbentCost != 0.0 then savings / incumbentCost * 100.0 else 0.0,
           models, control.n < 100 || treatment.n < 100, c.incumbent == 0.0)
  }

  lemma ConcludedReport(s: set<Decision>, ballot: map<string, real>, tolerance: real, sqrt: real -> real)
    ensures var c := GroupOf(s, ballot, ArmsOf(s).Keys, ControlArm);
            var t := GroupOf(s, ballot, ArmsOf(s).Keys, TreatmentArm);
            Conclude(c, t, ModelCounts(s), tolerance, sqrt) == ReportOf(s, ballot, tolerance, sqrt)
  {
    hide ArmsOf, Filter, GroupOf, Voters, VoteIn, ModelCounts;
    GroupTotals(s, ballot);
    ScoreSize(s, ballot, ControlArm, sqrt);
    ScoreSize(s, ballot, TreatmentArm, sqrt);
  }

  lemma ScoreSize(s: set<Decision>, ballot: map<string, real>, arm: Arm, sqrt: real -> real)
    ensures ArmInterval(ballot, ArmsOf(s), arm, sqrt).n == |Voters(ballot, ArmsOf(s), arm)|
  {}

  method Evaluate(decisions: seq<Decision>, outcomes: seq<Outcome>, kind: string, tolerance: real, sqrt: real -> real)
    returns (report: Report)
    ensures var current := Latest(decisions);
            report == ReportOf(current.Values, PyBallot(outcomes, current, kind), tolerance, sqrt)
  {
    hide ArmsOf, Filter, PyBallot, GroupOf, Lists, Conclude, ReportOf, ModelCounts;
    var current := LatestById(decisions);
    ReplayIsKeyed(decisions);
    var traces := GroupByTrace(current);
    var ballot := TraceOutcomes(outcomes, current, kind);
    var control, treatment, models := Reduce(traces, ballot, current.Values);
    assert traces.Keys == ArmsOf(current.Values).Keys;
    ConcludedReport(current.Values, ballot, tolerance, sqrt);
    report := Conclude(control, treatment, models, tolerance, sqrt);
  }
}
