/** An independent definition of the audit: what each number of the Go summary and of the Python report
    counts, said about the records themselves, and a proof that both specifications mean it. */
module AuditReference {
  import opened Domain
  import opened FiniteSums
  import opened Audit
  import opened AuditLaws
  import Wilson

  // ---------- the records that count ----------

  ghost predicate InWindow(d: Decision, q: Query)
  {
    d.tenant == q.tenant && q.since <= d.createdAt && (q.policy == "" || q.policy == d.policyId)
  }

  ghost function Window(ds: set<Decision>, q: Query): set<Decision> { set d | d in ds && InWindow(d, q) }

  ghost function Served(s: set<Decision>): set<Decision> { set d | d in s && d.bucket != Shadow }

  /** The model credited with a decision: the final one or, without one, the selected one. */
  ghost predicate Credits(d: Decision, m: string)
  {
    (d.final != "" && d.final == m) || (d.final == "" && d.selected == m)
  }

  ghost function AnswersOf(s: set<Decision>, m: string): set<Decision>
  {
    set d | d in s && d.bucket != Shadow && Credits(d, m)
  }

  function Charge(): Decision -> real { (d: Decision) => if d.actualCost > 0.0 then d.actualCost else d.estimatedCost }

  function Estimate(): Decision -> real { (d: Decision) => d.estimatedCost }

  function AsIncumbent(): Decision -> real { (d: Decision) => d.incumbentCost }

  /** The value of an outcome as Go reads it. */
  ghost predicate GoReads(v: Json, x: real)
  {
    (v == Null && x == 0.0) || (v == Bool(true) && x == 1.0) || (v == Bool(false) && x == 0.0) || v == Number(x)
  }

  /** An outcome of the queried kind with a value. */
  ghost predicate Counts(o: Outcome, q: Query)
  {
    o.tenant == q.tenant && q.since <= o.createdAt && o.kind == q.primary && o.value != NoNumber
  }

  /** The outcome names this decision. */
  ghost predicate Names(o: Outcome, d: Decision) { o.decisionId != "" && o.decisionId == d.id }

  /** The outcome speaks for this trace: by its own trace or, without one, by the decision it names. */
  ghost predicate SpeaksFor(o: Outcome, s: set<Decision>, t: string)
  {
    t != "" && (o.trace == t || (o.trace == "" && exists d :: d in s && Names(o, d) && d.trace == t))
  }

  /** The traces with an optimised decision, and the other traces with a production decision. */
  ghost function TreatedTraces(s: set<Decision>): set<string>
  {
    set d | d in s && (d.bucket == Treatment || d.bucket == Exploration) :: d.trace
  }

  ghost function ControlTraces(s: set<Decision>): set<string>
  {
    (set d | d in s && d.bucket != Shadow :: d.trace) - TreatedTraces(s)
  }

  ghost predicate Averages(i: Interval, total: real) { i.estimate * i.n as real == total }

  /** The votes of one arm: how many, and what they add up to. */
  ghost predicate ArmIs(i: Interval, traces: set<string>, votes: map<string, real>)
  {
    i.n == |traces * votes.Keys| && Averages(i, Total(traces * votes.Keys, VoteIn(votes)))
  }

  // ---------- totals ----------

  lemma WindowIsScope(ds: set<Decision>, q: Query)
    ensures Window(ds, q) == Scoped(ds, q)
  {}

  /** Every total of the summary, as a count or a sum over records. */
  lemma TotalsMean(ds: set<Decision>, os: seq<Outcome>, q: Query, sqrt: real -> real)
    ensures var s := Window(ds, q); var t := SummaryOf(ds, os, q, sqrt).totals;
            && t.requests == |Served(s)|
            && t.routed == |set d | d in s && d.bucket != Shadow && d.selected != d.incumbent|
            && t.control == |set d | d in s && d.bucket == Control|
            && t.shadow == |set d | d in s && d.bucket == Shadow|
            && t.actual == Total(Served(s), Charge()) && t.estimated == Total(Served(s), Estimate())
            && t.incumbent == Total(Served(s), AsIncumbent())
  {
    hide ArmsOf, ArmInterval, Ballot, ById, RowsOf, BucketCounts;
    WindowIsScope(ds, q);
    ScopeTotalsMean(Window(ds, q));
  }

  lemma ScopeTotalsMean(s: set<Decision>)
    ensures var t := TotalsOf(s);
            && t.requests == |Served(s)|
            && t.routed == |set d | d in s && d.bucket != Shadow && d.selected != d.incumbent|
            && t.control == |set d | d in s && d.bucket == Control|
            && t.shadow == |set d | d in s && d.bucket == Shadow|
            && t.actual == Total(Served(s), Charge()) && t.estimated == Total(Served(s), Estimate())
            && t.incumbent == Total(Served(s), AsIncumbent())
  {
    assert Filter(s, IsProduction) == Served(s);
    assert Filter(s, IsRouted) == set d | d in s && d.bucket != Shadow && d.selected != d.incumbent;
    assert Filter(s, IsControl) == set d | d in s && d.bucket == Control;
    assert Filter(s, IsShadow) == set d | d in s && d.bucket == Shadow;
    TotalCongruence(Served(s), Billed, Charge());
    TotalCongruence(Served(s), Estimated, Estimate());
    TotalCongruence(Served(s), Counterfactual, AsIncumbent());
  }

  /** Savings are what the incumbent would have cost beyond what was charged, never negative; the
      percentage is their share of the incumbent's cost. */
  lemma SavingsMean(ds: set<Decision>, os: seq<Outcome>, q: Query, sqrt: real -> real)
    ensures var s := Window(ds, q); var r := SummaryOf(ds, os, q, sqrt);
            var charged, counterfactual := Total(Served(s), Charge()), Total(Served(s), AsIncumbent());
            && r.savings == (if counterfactual > charged then counterfactual - charged else 0.0)
            && (counterfactual > 0.0 ==> r.savingsPercent * counterfactual == r.savings * 100.0)
            && (counterfactual <= 0.0 ==> r.savingsPercent == 0.0)
  {
    hide ArmsOf, ArmInterval, Ballot, ById, RowsOf, BucketCounts, Total;
    TotalsMean(ds, os, q, sqrt);
  }

  lemma BucketsMean(ds: set<Decision>, os: seq<Outcome>, q: Query, sqrt: real -> real, b: Bucket)
    ensures var counts := SummaryOf(ds, os, q, sqrt).byBucket; var mine := set d | d in Window(ds, q) && d.bucket == b;
            (b in counts <==> mine != {}) && (b in counts ==> counts[b] == |mine|)
  {
    hide ArmsOf, ArmInterval, Ballot, ById, RowsOf, TotalsOf;
    WindowIsScope(ds, q);
    ScopeBucketsMean(Window(ds, q), b);
  }

  lemma ScopeBucketsMean(s: set<Decision>, b: Bucket)
    ensures var mine := set d | d in s && d.bucket == b;
            (b in BucketCounts(s) <==> mine != {}) && (b in BucketCounts(s) ==> BucketCounts(s)[b] == |mine|)
  {
    assert Filter(s, InBucket(b)) == set d | d in s && d.bucket == b;
    if d :| d in s && d.bucket == b { assert d in Filter(s, InBucket(b)); }
  }

  // ---------- one model ----------

  ghost predicate CountsFor(o: Outcome, s: set<Decision>, q: Query, m: string)
  {
    Counts(o, q) && exists d :: d in s && Names(o, d) && Credits(d, m)
  }

  /** The outcomes that count for a model: those naming a decision it answered. */
  ghost function LabelsFor(os: seq<Outcome>, s: set<Decision>, q: Query, m: string): set<int>
  {
    set i | 0 <= i < |os| && CountsFor(os[i], s, q, m)
  }

  ghost predicate ReadsAll(os: seq<Outcome>, q: Query, f: int -> real)
  {
    forall i :: 0 <= i < |os| && Counts(os[i], q) ==> GoReads(os[i].value, f(i))
  }

  /** A row of the model table: the decisions the model answered and what they were charged, and the
      outcomes naming those decisions, their sum (read by any `f` that reads them right) and their mean. */
  lemma RowMeans(ds: set<Decision>, os: seq<Outcome>, q: Query, sqrt: real -> real, m: string, f: int -> real)
    requires DistinctIds(ds) && ReadsAll(os, q, f)
    ensures var s := Window(ds, q); var row := RowIn(SummaryOf(ds, os, q, sqrt).byModel, m);
            && row.requests == |AnswersOf(s, m)| && row.cost == Total(AnswersOf(s, m), Charge())
            && row.outcomes == |LabelsFor(os, s, q, m)| && row.successes == Total(LabelsFor(os, s, q, m), f)
            && row.rate * row.outcomes as real == (if row.outcomes > 0 then row.successes else 0.0)
  {
    hide ArmsOf, ArmInterval, Ballot, BucketCounts, TotalsOf, RowOf, ModelsOf, LabelsFor, AnswersOf, Total, ById;
    WindowIsScope(ds, q);
    var s := Window(ds, q);
    RowOfModel(s, os, ById(s), q, m);
    NoRatesYet(s, os, ById(s), q);
    RateOfRow(RowsOf(s, os, ById(s), q), m);
    RowOfMeans(s, os, q, m, f);
  }

  lemma NoRatesYet(s: set<Decision>, os: seq<Outcome>, byId: map<string, Decision>, q: Query)
    ensures forall k :: k in RowsOf(s, os, byId, q) ==> RowsOf(s, os, byId, q)[k].rate == 0.0
  {}

  lemma RateOfRow(rows: map<string, ModelRow>, m: string)
    requires forall k :: k in rows ==> rows[k].rate == 0.0
    ensures var row := RowIn(map k | k in rows :: WithRate(rows[k]), m); var plain := RowIn(rows, m);
            && row.requests == plain.requests && row.cost == plain.cost && row.outcomes == plain.outcomes
            && row.successes == plain.successes
            && row.rate * row.outcomes as real == if row.outcomes > 0 then row.successes else 0.0
  {}

  lemma RowOfMeans(s: set<Decision>, os: seq<Outcome>, q: Query, m: string, f: int -> real)
    requires DistinctIds(s) && ReadsAll(os, q, f)
    ensures var row := RowOf(s, os, ById(s), q, m);
            && row.requests == |AnswersOf(s, m)| && row.cost == Total(AnswersOf(s, m), Charge()) && row.rate == 0.0
            && row.outcomes == |LabelsFor(os, s, q, m)| && row.successes == Total(LabelsFor(os, s, q, m), f)
  {
    assert Filter(s, AnsweredBy(m)) == AnswersOf(s, m);
    TotalCongruence(AnswersOf(s, m), Billed, Charge());
    hide Filter, AnswersOf, LabelsFor, ById, Total;
    LabelsMean(os, s, q, m, f);
  }

  lemma {:induction false} LabelsMean(os: seq<Outcome>, s: set<Decision>, q: Query, m: string, f: int -> real)
    requires DistinctIds(s) && ReadsAll(os, q, f)
    ensures LabelCount(os, ById(s), q, m) == |LabelsFor(os, s, q, m)|
    ensures LabelSum(os, ById(s), q, m) == Total(LabelsFor(os, s, q, m), f)
  {
    hide Labels, Value, ById, CountsFor, LabelsFor, DistinctIds, GoReads, Total;
    LabelsGrow(os, s, q, m, f);
    if os != [] {
      var n := |os| - 1;
      assert ReadsAll(os[..n], q, f);
      LabelsMean(os[..n], s, q, m, f);
      LabelMeans(os[n], s, q, m);
      ValueMeans(os[n], ById(s), q, m, f(n));
    }
  }

  lemma LabelsGrow(os: seq<Outcome>, s: set<Decision>, q: Query, m: string, f: int -> real)
    ensures os == [] ==> LabelsFor(os, s, q, m) == {} && Total(LabelsFor(os, s, q, m), f) == 0.0
    ensures os != [] ==>
              var n := |os| - 1; var before := LabelsFor(os[..n], s, q, m); var mine := CountsFor(os[n], s, q, m);
              && |LabelsFor(os, s, q, m)| == |before| + (if mine then 1 else 0)
              && Total(LabelsFor(os, s, q, m), f) == Total(before, f) + (if mine then f(n) else 0.0)
  {
    hide CountsFor;
    if os == [] {
      assert LabelsFor(os, s, q, m) == {};
    } else {
      var n := |os| - 1;
      var before := LabelsFor(os[..n], s, q, m);
      assert LabelsFor(os, s, q, m) == if CountsFor(os[n], s, q, m) then before + {n} else before;
      if CountsFor(os[n], s, q, m) { TotalInsert(before, f, n); }
    }
  }

  lemma LabelMeans(o: Outcome, s: set<Decision>, q: Query, m: string)
    requires DistinctIds(s)
    ensures Labels(o, ById(s), q, m) <==> CountsFor(o, s, q, m)
  {}

  lemma ValueMeans(o: Outcome, byId: map<string, Decision>, q: Query, m: string, x: real)
    requires Counts(o, q) ==> GoReads(o.value, x)
    ensures Labels(o, byId, q, m) ==> Value(o) == x
  {}

  // ---------- votes and arms ----------

  /** The votes: a trace has one iff some counting outcome speaks for it, and it is the last one's value. */
  ghost predicate VotesAre(votes: map<string, real>, os: seq<Outcome>, s: set<Decision>, q: Query)
  {
    && (forall t :: t in votes <==> exists i :: 0 <= i < |os| && Counts(os[i], q) && SpeaksFor(os[i], s, t))
    && (forall t, i :: 0 <= i < |os| && Counts(os[i], q) && SpeaksFor(os[i], s, t) &&
                       (forall j :: i < j < |os| && Counts(os[j], q) ==> !SpeaksFor(os[j], s, t))
                       ==> t in votes && GoReads(os[i].value, votes[t]))
  }

  lemma VoteMeans(o: Outcome, s: set<Decision>, q: Query, t: string)
    requires DistinctIds(s)
    ensures Votes(o, ById(s), q, t) <==> Counts(o, q) && SpeaksFor(o, s, t)
    ensures Votes(o, ById(s), q, t) ==> GoReads(o.value, Value(o))
  {}

  lemma BallotMeans(os: seq<Outcome>, s: set<Decision>, q: Query)
    requires DistinctIds(s)
    ensures VotesAre(Ballot(os, ById(s), q), os, s, q)
  {
    hide Ballot, Votes, Value, Counts, SpeaksFor, GoReads, ById, DistinctIds;
    forall t, i | 0 <= i < |os|
      ensures Votes(os[i], ById(s), q, t) <==> Counts(os[i], q) && SpeaksFor(os[i], s, t)
      ensures Votes(os[i], ById(s), q, t) ==> GoReads(os[i].value, Value(os[i]))
    {
      VoteMeans(os[i], s, q, t);
    }
    forall t
      ensures t in Ballot(os, ById(s), q) <==> exists i :: 0 <= i < |os| && Votes(os[i], ById(s), q, t)
      ensures forall i :: 0 <= i < |os| && Votes(os[i], ById(s), q, t)
                && (forall j :: i < j < |os| ==> !Votes(os[j], ById(s), q, t))
                ==> Ballot(os, ById(s), q)[t] == Value(os[i])
    {
      LastOutcomeWins(os, ById(s), q, t);
    }
  }

  lemma ArmMeans(s: set<Decision>, votes: map<string, real>, arm: Arm, sqrt: real -> real)
    ensures var traces := if arm == TreatmentArm then TreatedTraces(s) else ControlTraces(s);
            ArmIs(ArmInterval(votes, ArmsOf(s), arm, sqrt), traces, votes)
  {
    hide ArmsOf, TreatedTraces, ControlTraces, Voters, Total, Averages, Wilson.Score;
    var voters := Voters(votes, ArmsOf(s), arm);
    VotersMean(s, votes, arm);
    ScoreMeans(Total(voters, VoteIn(votes)), |voters|, sqrt);
    NoVotes(voters, VoteIn(votes));
  }

  lemma NoVotes(voters: set<string>, f: string -> real)
    ensures |voters| == 0 ==> Total(voters, f) == 0.0
  {
    if |voters| == 0 { assert voters == {}; }
  }

  lemma VotersMean(s: set<Decision>, votes: map<string, real>, arm: Arm)
    ensures Voters(votes, ArmsOf(s), arm) ==
            (if arm == TreatmentArm then TreatedTraces(s) else ControlTraces(s)) * votes.Keys
  {
    forall t
      ensures t in Voters(votes, ArmsOf(s), arm) <==>
                t in votes && t in if arm == TreatmentArm then TreatedTraces(s) else ControlTraces(s)
    {
      TraceArm(s, t);
    }
  }

  lemma TraceArm(s: set<Decision>, t: string)
    ensures t in TreatedTraces(s) <==> t in ArmsOf(s) && ArmsOf(s)[t] == TreatmentArm
    ensures t in ControlTraces(s) <==> t in ArmsOf(s) && ArmsOf(s)[t] == ControlArm
  {
    assert Treated(s, t) <==> t in TreatedTraces(s);
    if Treated(s, t) {
      var d :| d in s && d.trace == t && InTreatment(d);
      assert d in Production(s);
    }
  }

  lemma ScoreMeans(successes: real, n: nat, sqrt: real -> real)
    ensures var i := Wilson.Score(successes, n, Wilson.Z95, sqrt);
            i.n == n && Averages(i, if n == 0 then 0.0 else successes)
  {
    hide Wilson.Low, Wilson.High, Wilson.Radicand;
  }

  /** A trace votes in the treatment arm iff one of its decisions in scope was bucketed as treatment or
      exploration, in the control arm iff it has other production decisions only. Sizes, vote totals and
      the reported difference follow. */
  lemma ArmsMean(ds: set<Decision>, os: seq<Outcome>, q: Query, sqrt: real -> real) returns (votes: map<string, real>)
    requires DistinctIds(ds)
    ensures var s := Window(ds, q); var r := SummaryOf(ds, os, q, sqrt);
            && VotesAre(votes, os, s, q)
            && ArmIs(r.treatment, TreatedTraces(s), votes) && ArmIs(r.control, ControlTraces(s), votes)
            && r.delta == r.treatment.estimate - r.control.estimate
  {
    hide ArmsOf, ArmInterval, Ballot, ById, BucketCounts, TotalsOf, RowsOf, VotesAre, ArmIs;
    hide TreatedTraces, ControlTraces;
    WindowIsScope(ds, q);
    var s := Window(ds, q);
    votes := Ballot(os, ById(s), q);
    BallotMeans(os, s, q);
    ArmMeans(s, votes, TreatmentArm, sqrt);
    ArmMeans(s, votes, ControlArm, sqrt);
  }
}
