/** The audit summary of internal/store/store.go. The specification speaks about the *set* of
    decisions and about the last outcome of each trace; the methods below it are the loops of
    the program, proved to compute it whatever order the decisions come in. */
module Audit {
  import opened Domain
  import opened FiniteSums
  import Wilson

  datatype Query = Query(tenant: string, policy: string, primary: string, since: int)

  datatype ModelRow = ModelRow(requests: nat, cost: real, successes: real, outcomes: nat, rate: real)

  datatype Totals = Totals(
    requests: nat, routed: nat, control: nat, shadow: nat, actual: real, estimated: real, incumbent: real)

  datatype Arm = TreatmentArm | ControlArm

  datatype Summary = Summary(
    query: Query, totals: Totals, savings: real, savingsPercent: real,
    treatment: Interval, control: Interval, delta: real,
    byModel: map<string, ModelRow>, byBucket: map<Bucket, nat>)

  // ---------- reading one record ----------

  predicate InScope(d: Decision, q: Query)
  {
    d.tenant == q.tenant && d.createdAt >= q.since && (q.policy == "" || d.policyId == q.policy)
  }

  /** Cost charged for a decision: the measured cost, or the estimate when there is none. */
  function Billed(d: Decision): real { if d.actualCost <= 0.0 then d.estimatedCost else d.actualCost }

  function Estimated(d: Decision): real { d.estimatedCost }

  function Counterfactual(d: Decision): real { d.incumbentCost }

  function Answering(d: Decision): string { if d.final == "" then d.selected else d.final }

  predicate InTreatment(d: Decision) { d.bucket == Treatment || d.bucket == Exploration }

  /** Outcome.NumericValue: JSON null decodes into a Go number as 0. */
  function GoValue(v: Json): Option<real>
  {
    match v
    case Null => Some(0.0)
    case Bool(b) => Some(if b then 1.0 else 0.0)
    case Number(r) => Some(r)
    case NoNumber => None
  }

  predicate Relevant(o: Outcome, q: Query)
  {
    o.tenant == q.tenant && o.createdAt >= q.since && o.kind == q.primary && GoValue(o.value).Some?
  }

  function Value(o: Outcome): real
  {
    match GoValue(o.value) case Some(r) => r case None => 0.0
  }

  /** The trace an outcome votes for: its own, else that of the decision it names. */
  function VoteTrace(o: Outcome, byId: map<string, Decision>): string
  {
    if o.trace != "" then o.trace
    else if o.decisionId != "" && o.decisionId in byId then byId[o.decisionId].trace
    else ""
  }

  /** An outcome that names a decision in scope also counts for the model that answered it. */
  predicate IsLabel(o: Outcome, byId: map<string, Decision>, q: Query)
  {
    Relevant(o, q) && o.decisionId != "" && o.decisionId in byId
  }

  predicate Labels(o: Outcome, byId: map<string, Decision>, q: Query, model: string)
  {
    IsLabel(o, byId, q) && Answering(byId[o.decisionId]) == model
  }

  // ---------- the specification ----------

  function Elements(s: seq<Decision>): set<Decision> { set d | d in s }

  ghost predicate DistinctIds(ds: set<Decision>)
  {
    forall d, e :: d in ds && e in ds && d.id == e.id ==> d == e
  }

  ghost predicate Distinct(s: seq<Decision>)
  {
    forall i, j :: 0 <= i < j < |s| ==> s[i].id != s[j].id
  }

  ghost function Filter(s: set<Decision>, p: Decision -> bool): set<Decision> { set d | d in s && p(d) }

  ghost function Scoped(ds: set<Decision>, q: Query): set<Decision> { set d | d in ds && InScope(d, q) }

  predicate IsShadow(d: Decision) { d.bucket == Shadow }

  predicate IsProduction(d: Decision) { d.bucket != Shadow }

  predicate IsRouted(d: Decision) { d.bucket != Shadow && d.selected != d.incumbent }

  predicate IsControl(d: Decision) { d.bucket == Control }

  function InBucket(b: Bucket): Decision -> bool { (d: Decision) => d.bucket == b }

  function AnsweredBy(model: string): Decision -> bool { (d: Decision) => IsProduction(d) && Answering(d) == model }

  ghost function Production(s: set<Decision>): set<Decision> { Filter(s, IsProduction) }

  ghost function TotalsOf(s: set<Decision>): Totals
  {
    Totals(|Production(s)|, |Filter(s, IsRouted)|, |Filter(s, IsControl)|, |Filter(s, IsShadow)|,
           Total(Production(s), Billed), Total(Production(s), Estimated), Total(Production(s), Counterfactual))
  }

  ghost function BucketsOf(s: set<Decision>): set<Bucket> { set d | d in s :: d.bucket }

  ghost function BucketCounts(s: set<Decision>): map<Bucket, nat>
  {
    map b | b in BucketsOf(s) :: |Filter(s, InBucket(b))|
  }

  ghost predicate Treated(s: set<Decision>, trace: string)
  {
    exists d :: d in s && d.trace == trace && InTreatment(d)
  }

  ghost function ArmsOf(s: set<Decision>): map<string, Arm>
  {
    map t | t in (set d | d in Production(s) :: d.trace) :: if Treated(s, t) then TreatmentArm else ControlArm
  }

  ghost function Named(s: set<Decision>, id: string): Decision
    requires exists d :: d in s && d.id == id
  {
    var d :| d in s && d.id == id; d
  }

  ghost function ById(s: set<Decision>): map<string, Decision>
  {
    map id | id in (set d | d in s :: d.id) :: Named(s, id)
  }

  ghost function LabelSum(os: seq<Outcome>, byId: map<string, Decision>, q: Query, model: string): real
  {
    if os == [] then 0.0 else
      var n := |os| - 1;
      LabelSum(os[..n], byId, q, model) + if Labels(os[n], byId, q, model) then Value(os[n]) else 0.0
  }

  ghost function LabelCount(os: seq<Outcome>, byId: map<string, Decision>, q: Query, model: string): nat
  {
    if os == [] then 0 else
      var n := |os| - 1;
      LabelCount(os[..n], byId, q, model) + if Labels(os[n], byId, q, model) then 1 else 0
  }

  ghost function ModelsOf(s: set<Decision>, os: seq<Outcome>, byId: map<string, Decision>, q: Query): set<string>
  {
    (set d | d in Production(s) :: Answering(d)) +
    (set i | 0 <= i < |os| && IsLabel(os[i], byId, q) :: Answering(byId[os[i].decisionId]))
  }

  ghost function RowOf(s: set<Decision>, os: seq<Outcome>, byId: map<string, Decision>, q: Query, model: string)
    : ModelRow
  {
    ModelRow(|Filter(s, AnsweredBy(model))|, Total(Filter(s, AnsweredBy(model)), Billed),
             LabelSum(os, byId, q, model), LabelCount(os, byId, q, model), 0.0)
  }

  ghost function RowsOf(s: set<Decision>, os: seq<Outcome>, byId: map<string, Decision>, q: Query)
    : map<string, ModelRow>
  {
    map m | m in ModelsOf(s, os, byId, q) :: RowOf(s, os, byId, q, m)
  }

  function WithRate(row: ModelRow): ModelRow
  {
    if row.outcomes > 0 then row.(rate := row.successes / row.outcomes as real) else row
  }

  predicate Votes(o: Outcome, byId: map<string, Decision>, q: Query, trace: string)
  {
    Relevant(o, q) && trace != "" && VoteTrace(o, byId) == trace
  }

  /** One vote per trace: that of its last outcome in log order. */
  ghost function Ballot(os: seq<Outcome>, byId: map<string, Decision>, q: Query): map<string, real>
  {
    if os == [] then map[] else
      var n := |os| - 1;
      var earlier := Ballot(os[..n], byId, q);
      var trace := VoteTrace(os[n], byId);
      if Votes(os[n], byId, q, trace) then earlier[trace := Value(os[n])] else earlier
  }

  ghost function Voters(ballot: map<string, real>, arms: map<string, Arm>, arm: Arm): set<string>
  {
    set t | t in ballot && t in arms && arms[t] == arm
  }

  function VoteIn(ballot: map<string, real>): string -> real { t => if t in ballot then ballot[t] else 0.0 }

  ghost function ArmInterval(ballot: map<string, real>, arms: map<string, Arm>, arm: Arm, sqrt: real -> real): Interval
  {
    var voters := Voters(ballot, arms, arm);
    Wilson.Score(Total(voters, VoteIn(ballot)), |voters|, Wilson.Z95, sqrt)
  }

  function Savings(t: Totals): real { Max(0.0, t.incumbent - t.actual) }

  function SavingsPercent(t: Totals): real
  {
    if t.incumbent > 0.0 then Savings(t) / t.incumbent * 100.0 else 0.0
  }

  ghost function SummaryOf(ds: set<Decision>, os: seq<Outcome>, q: Query, sqrt: real -> real): Summary
  {
    var s := Scoped(ds, q);
    var byId := ById(s);
    var ballot, arms, totals := Ballot(os, byId, q), ArmsOf(s), TotalsOf(s);
    var treatment := ArmInterval(ballot, arms, TreatmentArm, sqrt);
    var control := ArmInterval(ballot, arms, ControlArm, sqrt);
    var rows := RowsOf(s, os, byId, q);
    Summary(q, totals, Savings(totals), SavingsPercent(totals), treatment, control,
            treatment.estimate - control.estimate, map m | m in rows :: WithRate(rows[m]), BucketCounts(s))
  }

  // ---------- one more decision ----------

  lemma FilterStep(s: set<Decision>, d: Decision, p: Decision -> bool)
    requires d !in s
    ensures d !in Filter(s, p)
    ensures Filter(s + {d}, p) == if p(d) then Filter(s, p) + {d} else Filter(s, p)
    ensures |Filter(s + {d}, p)| == |Filter(s, p)| + if p(d) then 1 else 0
  {
    assert Filter(s + {d}, p) == if p(d) then Filter(s, p) + {d} else Filter(s, p);
  }

  lemma FilterTotalStep(s: set<Decision>, d: Decision, p: Decision -> bool, f: Decision -> real)
    requires d !in s
    ensures Total(Filter(s + {d}, p), f) == Total(Filter(s, p), f) + if p(d) then f(d) else 0.0
  {
    FilterStep(s, d, p);
    if p(d) { TotalInsert(Filter(s, p), f, d); }
  }

  lemma TotalsStep(s: set<Decision>, d: Decision)
    requires d !in s
    ensures TotalsOf(s + {d}) ==
            var t := TotalsOf(s);
            if d.bucket == Shadow then t.(shadow := t.shadow + 1) else
              t.(requests := t.requests + 1,
                 routed := t.routed + (if d.selected != d.incumbent then 1 else 0),
                 control := t.control + (if d.bucket == Control then 1 else 0),
                 actual := t.actual + Billed(d), estimated := t.estimated + d.estimatedCost,
                 incumbent := t.incumbent + d.incumbentCost)
  {
    hide Filter;
    FilterStep(s, d, IsProduction);
    FilterStep(s, d, IsRouted);
    FilterStep(s, d, IsControl);
    FilterStep(s, d, IsShadow);
    FilterTotalStep(s, d, IsProduction, Billed);
    FilterTotalStep(s, d, IsProduction, Estimated);
    FilterTotalStep(s, d, IsProduction, Counterfactual);
  }

  lemma SameMap<K, V>(a: map<K, V>, b: map<K, V>)
    requires a.Keys == b.Keys && forall k :: k in a ==> a[k] == b[k]
    ensures a == b
  {}

  function CountIn(c: map<Bucket, nat>, b: Bucket): nat { if b in c then c[b] else 0 }

  lemma BucketCountStep(s: set<Decision>, d: Decision, b: Bucket)
    requires d !in s
    ensures CountIn(BucketCounts(s + {d}), b) == CountIn(BucketCounts(s), b) + if b == d.bucket then 1 else 0
    ensures b in BucketCounts(s + {d}) <==> b in BucketCounts(s) || b == d.bucket
  {
    FilterStep(s, d, InBucket(b));
    assert BucketsOf(s + {d}) == BucketsOf(s) + {d.bucket};
    if b !in BucketsOf(s) { assert Filter(s, InBucket(b)) == {}; }
  }

  lemma BucketStep(s: set<Decision>, d: Decision)
    requires d !in s
    ensures var c := BucketCounts(s); BucketCounts(s + {d}) == c[d.bucket := CountIn(c, d.bucket) + 1]
  {
    hide BucketCounts;
    var c, c' := BucketCounts(s), BucketCounts(s + {d});
    forall b
      ensures CountIn(c', b) == CountIn(c, b) + (if b == d.bucket then 1 else 0)
      ensures b in c' <==> b in c || b == d.bucket
    {
      BucketCountStep(s, d, b);
    }
    SameMap(c', c[d.bucket := CountIn(c, d.bucket) + 1]);
  }

  lemma ArmsStep(s: set<Decision>, d: Decision)
    ensures var a := ArmsOf(s);
            ArmsOf(s + {d}) ==
            if d.bucket == Shadow then a
            else if InTreatment(d) then a[d.trace := TreatmentArm]
            else if d.trace in a then a else a[d.trace := ControlArm]
  {
    forall t
      ensures Treated(s + {d}, t) <==> Treated(s, t) || (InTreatment(d) && d.trace == t)
    {
      if InTreatment(d) && d.trace == t { assert d in s + {d}; }
    }
    if Treated(s, d.trace) {
      var e :| e in s && e.trace == d.trace && InTreatment(e);
      assert e in Production(s);
    }
  }

  lemma ByIdStep(s: set<Decision>, d: Decision)
    requires DistinctIds(s) && forall e :: e in s ==> e.id != d.id
    ensures ById(s + {d}) == ById(s)[d.id := d]
  {
    forall id | id in ById(s)
      ensures Named(s + {d}, id) == Named(s, id)
    {}
    assert d in s + {d};
  }

  const NoRow := ModelRow(0, 0.0, 0.0, 0, 0.0)

  function RowIn(rows: map<string, ModelRow>, m: string): ModelRow { if m in rows then rows[m] else NoRow }

  lemma AnsweringModelsStep(s: set<Decision>, d: Decision, byId: map<string, Decision>, q: Query)
    requires d !in s
    ensures ModelsOf(s + {d}, [], byId, q) == ModelsOf(s, [], byId, q) + if IsProduction(d) then {Answering(d)} else {}
  {
    FilterStep(s, d, IsProduction);
  }

  lemma RowStep(s: set<Decision>, d: Decision, byId: map<string, Decision>, q: Query, m: string)
    requires d !in s
    ensures var row := RowIn(RowsOf(s, [], byId, q), m);
            RowIn(RowsOf(s + {d}, [], byId, q), m) ==
            if AnsweredBy(m)(d) then row.(requests := row.requests + 1, cost := row.cost + Billed(d)) else row
    ensures m in RowsOf(s + {d}, [], byId, q) <==> m in RowsOf(s, [], byId, q) || AnsweredBy(m)(d)
  {
    hide Filter, ModelsOf, RowsOf, RowIn, Total, Billed;
    FilterStep(s, d, AnsweredBy(m));
    FilterTotalStep(s, d, AnsweredBy(m), Billed);
    AnsweringModelsStep(s, d, byId, q);
    RowOfModel(s, [], byId, q, m);
    RowOfModel(s + {d}, [], byId, q, m);
  }

  /** A model without a row of its own has the empty row. */
  lemma RowOfModel(s: set<Decision>, os: seq<Outcome>, byId: map<string, Decision>, q: Query, m: string)
    ensures RowIn(RowsOf(s, os, byId, q), m) == RowOf(s, os, byId, q, m)
    ensures m in RowsOf(s, os, byId, q) <==> m in ModelsOf(s, os, byId, q)
  {
    hide RowOf, ModelsOf;
    if m !in ModelsOf(s, os, byId, q) { Unlabelled(s, os, byId, q, m); }
  }

  lemma RowsStep(s: set<Decision>, d: Decision, byId: map<string, Decision>, q: Query)
    requires d !in s
    ensures var r := RowsOf(s, [], byId, q);
            RowsOf(s + {d}, [], byId, q) ==
            if d.bucket == Shadow then r else
              var row := RowIn(r, Answering(d));
              r[Answering(d) := row.(requests := row.requests + 1, cost := row.cost + Billed(d))]
  {
    hide RowsOf;
    var r, r' := RowsOf(s, [], byId, q), RowsOf(s + {d}, [], byId, q);
    forall m
      ensures RowIn(r', m) == var row := RowIn(r, m);
              if AnsweredBy(m)(d) then row.(requests := row.requests + 1, cost := row.cost + Billed(d)) else row
      ensures m in r' <==> m in r || AnsweredBy(m)(d)
    {
      RowStep(s, d, byId, q, m);
    }
    var row := RowIn(r, Answering(d));
    SameMap(r', if d.bucket == Shadow then r else
                  r[Answering(d) := row.(requests := row.requests + 1, cost := row.cost + Billed(d))]);
  }

  /** A model without a row has answered nothing and has no label. */
  lemma {:induction false} Unlabelled(s: set<Decision>, os: seq<Outcome>, byId: map<string, Decision>, q: Query,
                                      m: string)
    requires m !in ModelsOf(s, os, byId, q)
    ensures RowOf(s, os, byId, q, m) == NoRow
  {
    assert Filter(s, AnsweredBy(m)) == {};
    NoLabelNoSum(os, byId, q, m);
  }

  lemma {:induction false} NoLabelNoSum(os: seq<Outcome>, byId: map<string, Decision>, q: Query, m: string)
    requires forall i :: 0 <= i < |os| ==> !Labels(os[i], byId, q, m)
    ensures LabelSum(os, byId, q, m) == 0.0 && LabelCount(os, byId, q, m) == 0
  {
    if os != [] { NoLabelNoSum(os[..|os| - 1], byId, q, m); }
  }

  // ---------- one more outcome ----------

  lemma LabelRowStep(s: set<Decision>, os: seq<Outcome>, o: Outcome, byId: map<string, Decision>, q: Query, m: string)
    ensures var row := RowIn(RowsOf(s, os, byId, q), m);
            RowIn(RowsOf(s, os + [o], byId, q), m) ==
            if Labels(o, byId, q, m) then row.(successes := row.successes + Value(o), outcomes := row.outcomes + 1)
            else row
    ensures m in RowsOf(s, os + [o], byId, q) <==> m in RowsOf(s, os, byId, q) || Labels(o, byId, q, m)
  {
    hide Filter, ModelsOf, RowsOf, RowIn, LabelSum, LabelCount, Total;
    ModelsStep(s, os, o, byId, q);
    LabelCountStep(os, o, byId, q, m);
    RowOfModel(s, os, byId, q, m);
    RowOfModel(s, os + [o], byId, q, m);
  }

  lemma LabelStep(s: set<Decision>, os: seq<Outcome>, o: Outcome, byId: map<string, Decision>, q: Query)
    ensures var r := RowsOf(s, os, byId, q);
            RowsOf(s, os + [o], byId, q) ==
            if !IsLabel(o, byId, q) then r else
              var m := Answering(byId[o.decisionId]);
              var row := RowIn(r, m);
              r[m := row.(successes := row.successes + Value(o), outcomes := row.outcomes + 1)]
  {
    hide RowsOf, IsLabel, Value;
    var r, r' := RowsOf(s, os, byId, q), RowsOf(s, os + [o], byId, q);
    forall m
      ensures RowIn(r', m) == var row := RowIn(r, m);
              if Labels(o, byId, q, m) then row.(successes := row.successes + Value(o), outcomes := row.outcomes + 1)
              else row
      ensures m in r' <==> m in r || Labels(o, byId, q, m)
    {
      LabelRowStep(s, os, o, byId, q, m);
    }
    if IsLabel(o, byId, q) {
      IsLabelNamesDecision(o, byId, q);
      var m := Answering(byId[o.decisionId]);
      var row := RowIn(r, m);
      SameMap(r', r[m := row.(successes := row.successes + Value(o), outcomes := row.outcomes + 1)]);
    } else {
      SameMap(r', r);
    }
  }

  lemma IsLabelNamesDecision(o: Outcome, byId: map<string, Decision>, q: Query)
    requires IsLabel(o, byId, q)
    ensures o.decisionId in byId
  {}

  lemma LabelCountStep(os: seq<Outcome>, o: Outcome, byId: map<string, Decision>, q: Query, n: string)
    ensures LabelCount(os + [o], byId, q, n) == LabelCount(os, byId, q, n) + if Labels(o, byId, q, n) then 1 else 0
    ensures LabelSum(os + [o], byId, q, n) == LabelSum(os, byId, q, n) + if Labels(o, byId, q, n) then Value(o) else 0.0
  {
    assert (os + [o])[..|os|] == os;
  }

  lemma ModelsStep(s: set<Decision>, os: seq<Outcome>, o: Outcome, byId: map<string, Decision>, q: Query)
    ensures ModelsOf(s, os + [o], byId, q) ==
            ModelsOf(s, os, byId, q) + if IsLabel(o, byId, q) then {Answering(byId[o.decisionId])} else {}
  {
    var os' := os + [o];
    forall m | m in ModelsOf(s, os, byId, q)
      ensures m in ModelsOf(s, os', byId, q)
    {
      if m !in (set d | d in Production(s) :: Answering(d)) {
        var i :| 0 <= i < |os| && IsLabel(os[i], byId, q) && m == Answering(byId[os[i].decisionId]);
        assert os'[i] == os[i];
      }
    }
    if IsLabel(o, byId, q) { assert os'[|os|] == o; }
  }

  /** Nothing has happened yet. */
  lemma Nothing(q: Query, byId: map<string, Decision>)
    ensures Elements([]) == {} && Scoped({}, q) == {}
    ensures TotalsOf({}) == Totals(0, 0, 0, 0, 0.0, 0.0, 0.0) && BucketCounts({}) == map[] && ArmsOf({}) == map[]
    ensures ById({}) == map[] && RowsOf({}, [], byId, q) == map[]
  {
    assert Production({}) == {} && Filter({}, IsRouted) == {} && Filter({}, IsControl) == {} &&
           Filter({}, IsShadow) == {};
  }

  // ---------- the program ----------

  method TallyDecisions(all: seq<Decision>, q: Query)
    returns (decisions: map<string, Decision>, totals: Totals, byBucket: map<Bucket, nat>,
             byModel: map<string, ModelRow>, traceBuckets: map<string, Arm>)
    requires Distinct(all)
    ensures var s := Scoped(Elements(all), q);
            && decisions == ById(s) && totals == TotalsOf(s) && byBucket == BucketCounts(s)
            && byModel == RowsOf(s, [], decisions, q) && traceBuckets == ArmsOf(s)
  {
    hide TotalsOf, BucketCounts, RowsOf, ArmsOf, ById, Scoped, Elements;
    Nothing(q, map[]);
    assert all[..0] == [];
    decisions, totals, byBucket, byModel, traceBuckets := map[], Totals(0, 0, 0, 0, 0.0, 0.0, 0.0), map[], map[], map[];
    for i := 0 to |all|
      invariant var s := Scoped(Elements(all[..i]), q);
        && decisions == ById(s) && totals == TotalsOf(s) && byBucket == BucketCounts(s)
        && byModel == RowsOf(s, [], map[], q) && traceBuckets == ArmsOf(s)
    {
      var decision := all[i];
      ghost var s := Scoped(Elements(all[..i]), q);
      ScopedStep(all, i, q);
      if !InScope(decision, q) { continue; }
      TotalsStep(s, decision);
      BucketStep(s, decision);
      RowsStep(s, decision, map[], q);
      ArmsStep(s, decision);
      ByIdStep(s, decision);
      decisions := decisions[decision.id := decision];
      byBucket := byBucket[decision.bucket := CountIn(byBucket, decision.bucket) + 1];
      if decision.bucket == Shadow {
        totals := totals.(shadow := totals.shadow + 1);
        continue;
      }
      totals := totals.(requests := totals.requests + 1);
      if decision.bucket == Control { totals := totals.(control := totals.control + 1); }
      if decision.selected != decision.incumbent { totals := totals.(routed := totals.routed + 1); }
      var cost := decision.actualCost;
      if cost <= 0.0 { cost := decision.estimatedCost; }
      totals := totals.(actual := totals.actual + cost, estimated := totals.estimated + decision.estimatedCost,
                        incumbent := totals.incumbent + decision.incumbentCost);
      var modelId := decision.final;
      if modelId == "" { modelId := decision.selected; }
      var row := RowIn(byModel, modelId);
      byModel := byModel[modelId := row.(requests := row.requests + 1, cost := row.cost + cost)];
      if decision.bucket == Treatment || decision.bucket == Exploration {
        traceBuckets := traceBuckets[decision.trace := TreatmentArm];
      } else if decision.trace !in traceBuckets {
        traceBuckets := traceBuckets[decision.trace := ControlArm];
      }
    }
    assert all[..|all|] == all;
    RowsWithoutOutcomes(Scoped(Elements(all), q), map[], decisions, q);
  }

  lemma RowsWithoutOutcomes(s: set<Decision>, byId: map<string, Decision>, byId': map<string, Decision>, q: Query)
    ensures RowsOf(s, [], byId, q) == RowsOf(s, [], byId', q)
  {}

  lemma ScopedStep(all: seq<Decision>, i: nat, q: Query)
    requires i < |all| && Distinct(all)
    ensures var s := Scoped(Elements(all[..i]), q);
            && DistinctIds(s) && (forall e :: e in s ==> e.id != all[i].id)
            && Scoped(Elements(all[..i + 1]), q) == if InScope(all[i], q) then s + {all[i]} else s
  {
    assert all[..i + 1] == all[..i] + [all[i]];
    assert Elements(all[..i + 1]) == Elements(all[..i]) + {all[i]};
  }

  method TallyOutcomes(outcomes: seq<Outcome>, q: Query, decisions: map<string, Decision>,
                       rows: map<string, ModelRow>, ghost s: set<Decision>)
    returns (byModel: map<string, ModelRow>, primaryByTrace: map<string, real>)
    requires rows == RowsOf(s, [], decisions, q)
    ensures byModel == RowsOf(s, outcomes, decisions, q) && primaryByTrace == Ballot(outcomes, decisions, q)
  {
    hide RowsOf;
    byModel, primaryByTrace := rows, map[];
    for i := 0 to |outcomes|
      invariant byModel == RowsOf(s, outcomes[..i], decisions, q)
      invariant primaryByTrace == Ballot(outcomes[..i], decisions, q)
    {
      var outcome := outcomes[i];
      assert outcomes[..i + 1] == outcomes[..i] + [outcome] && outcomes[..i + 1][..i] == outcomes[..i];
      LabelStep(s, outcomes[..i], outcome, decisions, q);
      if outcome.tenant != q.tenant || outcome.createdAt < q.since || outcome.kind != q.primary { continue; }
      var value;
      match GoValue(outcome.value) {
        case None => continue;
        case Some(v) => value := v;
      }
      var trace := outcome.trace;
      if outcome.decisionId != "" {
        if outcome.decisionId in decisions {
          var decision := decisions[outcome.decisionId];
          if trace == "" { trace := decision.trace; }
          var modelId := decision.final;
          if modelId == "" { modelId := decision.selected; }
          var row := RowIn(byModel, modelId);
          byModel := byModel[modelId := row.(successes := row.successes + value, outcomes := row.outcomes + 1)];
        }
      }
      if trace != "" { primaryByTrace := primaryByTrace[trace := value]; }
    }
    assert outcomes[..|outcomes|] == outcomes;
  }

  method CountArms(primaryByTrace: map<string, real>, traceBuckets: map<string, Arm>)
    returns (treatmentSuccess: real, treatmentN: nat, controlSuccess: real, controlN: nat)
    ensures var tv := Voters(primaryByTrace, traceBuckets, TreatmentArm);
            var cv := Voters(primaryByTrace, traceBuckets, ControlArm);
            && treatmentSuccess == Total(tv, VoteIn(primaryByTrace)) && treatmentN == |tv|
            && controlSuccess == Total(cv, VoteIn(primaryByTrace)) && controlN == |cv|
  {
    hide Voters;
    treatmentSuccess, treatmentN, controlSuccess, controlN := 0.0, 0, 0.0, 0;
    var remaining := primaryByTrace.Keys;
    ghost var counted := map[];
    NoVoters(traceBuckets, TreatmentArm, VoteIn(primaryByTrace));
    NoVoters(traceBuckets, ControlArm, VoteIn(primaryByTrace));
    while remaining != {}
      invariant remaining <= primaryByTrace.Keys
      invariant counted == primaryByTrace - remaining
      invariant Tallied(counted, traceBuckets, TreatmentArm, VoteIn(primaryByTrace), treatmentSuccess, treatmentN)
      invariant Tallied(counted, traceBuckets, ControlArm, VoteIn(primaryByTrace), controlSuccess, controlN)
      decreases remaining
    {
      var trace :| trace in remaining;
      VotersStep(counted, traceBuckets, TreatmentArm, VoteIn(primaryByTrace), treatmentSuccess, treatmentN,
                 trace, primaryByTrace[trace]);
      VotersStep(counted, traceBuckets, ControlArm, VoteIn(primaryByTrace), controlSuccess, controlN,
                 trace, primaryByTrace[trace]);
      counted := counted[trace := primaryByTrace[trace]];
      remaining := remaining - {trace};
      if trace in traceBuckets {
        match traceBuckets[trace] {
          case TreatmentArm =>
            treatmentSuccess, treatmentN := treatmentSuccess + primaryByTrace[trace], treatmentN + 1;
          case ControlArm =>
            controlSuccess, controlN := controlSuccess + primaryByTrace[trace], controlN + 1;
        }
      }
    }
    assert counted == primaryByTrace;
  }

  ghost predicate Tallied(ballot: map<string, real>, arms: map<string, Arm>, arm: Arm, vote: string -> real, sum: real,
                          n: nat)
  {
    sum == Total(Voters(ballot, arms, arm), vote) && n == |Voters(ballot, arms, arm)|
  }

  lemma NoVoters(arms: map<string, Arm>, arm: Arm, vote: string -> real)
    ensures Tallied(map[], arms, arm, vote, 0.0, 0)
  {
    assert Voters(map[], arms, arm) == {};
  }

  lemma VotersStep(ballot: map<string, real>, arms: map<string, Arm>, arm: Arm, vote: string -> real, sum: real, n: nat,
                   t: string, v: real)
    requires t !in ballot && vote(t) == v
    requires Tallied(ballot, arms, arm, vote, sum, n)
    ensures if t in arms && arms[t] == arm then Tallied(ballot[t := v], arms, arm, vote, sum + v, n + 1)
            else Tallied(ballot[t := v], arms, arm, vote, sum, n)
  {
    hide Total;
    var before := Voters(ballot, arms, arm);
    if t in arms && arms[t] == arm {
      assert Voters(ballot[t := v], arms, arm) == before + {t};
      TotalInsert(before, vote, t);
    } else {
      assert Voters(ballot[t := v], arms, arm) == before;
    }
  }

  method FillRates(rows: map<string, ModelRow>) returns (byModel: map<string, ModelRow>)
    ensures byModel == map m | m in rows :: WithRate(rows[m])
  {
    byModel := rows;
    var remaining := rows.Keys;
    while remaining != {}
      invariant remaining <= rows.Keys && byModel.Keys == rows.Keys
      invariant forall m :: m in rows ==> byModel[m] == if m in remaining then rows[m] else WithRate(rows[m])
      decreases remaining
    {
      var m :| m in remaining;
      remaining := remaining - {m};
      var row := byModel[m];
      if row.outcomes > 0 {
        byModel := byModel[m := row.(rate := row.successes / row.outcomes as real)];
      }
    }
  }

  method Summarize(all: seq<Decision>, outcomes: seq<Outcome>, q: Query, sqrt: real -> real) returns (summary: Summary)
    requires Distinct(all)
    ensures summary == SummaryOf(Elements(all), outcomes, q, sqrt)
  {
    var decisions, totals, byBucket, rows, traceBuckets := TallyDecisions(all, q);
    var labelled, primaryByTrace := TallyOutcomes(outcomes, q, decisions, rows, Scoped(Elements(all), q));
    var treatmentSuccess, treatmentN, controlSuccess, controlN := CountArms(primaryByTrace, traceBuckets);
    var treatment := Wilson.Score(treatmentSuccess, treatmentN, Wilson.Z95, sqrt);
    var control := Wilson.Score(controlSuccess, controlN, Wilson.Z95, sqrt);
    var savings := Max(0.0, totals.incumbent - totals.actual);
    var percent := 0.0;
    if totals.incumbent > 0.0 { percent := savings / totals.incumbent * 100.0; }
    var byModel := FillRates(labelled);
    summary := Summary(q, totals, savings, percent, treatment, control,
                       treatment.estimate - control.estimate, byModel, byBucket);
  }
}
