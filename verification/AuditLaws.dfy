/** What the audit summary means: totals are conserved, a trace votes once and its last outcome
    counts, and neither the order of decisions nor (when no trace contradicts itself) the order of
    outcomes can change the answer. */
module AuditLaws {
  import opened Domain
  import opened FiniteSums
  import opened Sequences
  import opened Audit
  import Wilson

  /** The store hands decisions over in map order. The program gives the same summary for any two orders. */
  method DecisionOrderIsIrrelevant(a: seq<Decision>, b: seq<Decision>, os: seq<Outcome>, q: Query, sqrt: real -> real)
    returns (one: Summary, other: Summary)
    requires Distinct(a) && multiset(a) == multiset(b)
    ensures one == other
  {
    SameMembers(a, b);
    StillDistinct(a, b);
    assert Elements(a) == Elements(b);
    one := Summarize(a, os, q, sqrt);
    other := Summarize(b, os, q, sqrt);
  }

  lemma StillDistinct(a: seq<Decision>, b: seq<Decision>)
    requires Distinct(a) && multiset(a) == multiset(b)
    ensures Distinct(b)
  {
    SameMembers(a, b);
    StillNoDuplicates(a, b);
    forall i, j | 0 <= i < j < |b|
      ensures b[i].id != b[j].id
    {
      assert b[i] in a && b[j] in a;
    }
  }

  // ---------- conservation ----------

  function RequestsAt(rows: map<string, ModelRow>): string -> real { m => RowIn(rows, m).requests as real }

  function CostAt(rows: map<string, ModelRow>): string -> real { m => RowIn(rows, m).cost }

  function CountAt(counts: map<Bucket, nat>): Bucket -> real { b => CountIn(counts, b) as real }

  /** Every production request and every dollar appears under exactly one model, and every
      decision in scope under exactly one bucket. */
  lemma TotalsAreConserved(ds: set<Decision>, os: seq<Outcome>, q: Query, sqrt: real -> real)
    ensures var r := SummaryOf(ds, os, q, sqrt);
            && Total(r.byModel.Keys, RequestsAt(r.byModel)) == r.totals.requests as real
            && Total(r.byModel.Keys, CostAt(r.byModel)) == r.totals.actual
            && Total(r.byBucket.Keys, CountAt(r.byBucket)) == (r.totals.requests + r.totals.shadow) as real
  {
    hide ArmsOf, ArmInterval, Ballot, ById, Filter, Scoped, RowOf, WithRate;
    var s := Scoped(ds, q);
    var r := SummaryOf(ds, os, q, sqrt);
    ModelsPartitionRequests(s, os, ById(s), q, r.byModel);
    BucketsPartitionDecisions(s);
  }

  lemma ModelsPartitionRequests(s: set<Decision>, os: seq<Outcome>, byId: map<string, Decision>, q: Query,
                                byModel: map<string, ModelRow>)
    requires byModel.Keys == ModelsOf(s, os, byId, q)
    requires forall m :: m in byModel ==> byModel[m] == WithRate(RowOf(s, os, byId, q, m))
    ensures Total(byModel.Keys, RequestsAt(byModel)) == |Production(s)| as real
    ensures Total(byModel.Keys, CostAt(byModel)) == Total(Production(s), Billed)
  {
    forall m | m in byModel.Keys
      ensures RequestsAt(byModel)(m) == Total(Fiber(Production(s), Answering, m), One)
      ensures CostAt(byModel)(m) == Total(Fiber(Production(s), Answering, m), Billed)
    {
      AnsweredFiber(s, m);
    }
    TotalByKey(Production(s), Answering, One, byModel.Keys, RequestsAt(byModel));
    TotalByKey(Production(s), Answering, Billed, byModel.Keys, CostAt(byModel));
    TotalOfOnes(Production(s));
  }

  lemma AnsweredFiber(s: set<Decision>, m: string)
    ensures Fiber(Production(s), Answering, m) == Filter(s, AnsweredBy(m))
    ensures Total(Fiber(Production(s), Answering, m), One) == |Filter(s, AnsweredBy(m))| as real
  {
    assert Fiber(Production(s), Answering, m) == Filter(s, AnsweredBy(m));
    TotalOfOnes(Filter(s, AnsweredBy(m)));
  }

  function BucketOf(d: Decision): Bucket { d.bucket }

  lemma BucketsPartitionDecisions(s: set<Decision>)
    ensures Total(BucketCounts(s).Keys, CountAt(BucketCounts(s))) == (|Production(s)| + |Filter(s, IsShadow)|) as real
  {
    hide Filter;
    var counts := BucketCounts(s);
    forall b | b in counts.Keys
      ensures CountAt(counts)(b) == Total(Fiber(s, BucketOf, b), One)
    {
      BucketFiber(s, b);
    }
    TotalByKey(s, BucketOf, One, counts.Keys, CountAt(counts));
    TotalOfOnes(s);
    ShadowOrProduction(s);
  }

  lemma BucketFiber(s: set<Decision>, b: Bucket)
    ensures Total(Fiber(s, BucketOf, b), One) == |Filter(s, InBucket(b))| as real
  {
    assert Fiber(s, BucketOf, b) == Filter(s, InBucket(b));
    TotalOfOnes(Filter(s, InBucket(b)));
  }

  lemma ShadowOrProduction(s: set<Decision>)
    ensures |s| == |Production(s)| + |Filter(s, IsShadow)|
  {
    assert s == Production(s) + Filter(s, IsShadow);
    assert Production(s) !! Filter(s, IsShadow);
  }

  function LabelsAt(rows: map<string, ModelRow>): string -> real { m => RowIn(rows, m).outcomes as real }

  function SuccessesAt(rows: map<string, ModelRow>): string -> real { m => RowIn(rows, m).successes }

  /** Outcomes that name a decision in scope: how many, and their sum. */
  ghost function LabelTotal(os: seq<Outcome>, byId: map<string, Decision>, q: Query): (nat, real)
  {
    if os == [] then (0, 0.0) else
      var n := |os| - 1;
      var before := LabelTotal(os[..n], byId, q);
      if IsLabel(os[n], byId, q) then (before.0 + 1, before.1 + Value(os[n])) else before
  }

  /** Every such outcome counts once, for exactly one model. */
  lemma LabelsAreConserved(ds: set<Decision>, os: seq<Outcome>, q: Query, sqrt: real -> real)
    ensures var r := SummaryOf(ds, os, q, sqrt); var total := LabelTotal(os, ById(Scoped(ds, q)), q);
            Total(r.byModel.Keys, LabelsAt(r.byModel)) == total.0 as real &&
              Total(r.byModel.Keys, SuccessesAt(r.byModel)) == total.1
  {
    hide ArmsOf, ArmInterval, Ballot, ById, Filter, Scoped, RowOf, WithRate, TotalsOf, BucketCounts, LabelTotal;
    var s := Scoped(ds, q);
    ModelsPartitionLabels(s, os, ById(s), q, SummaryOf(ds, os, q, sqrt).byModel);
  }

  lemma ModelsPartitionLabels(s: set<Decision>, os: seq<Outcome>, byId: map<string, Decision>, q: Query,
                              byModel: map<string, ModelRow>)
    requires byModel.Keys == ModelsOf(s, os, byId, q)
    requires forall m :: m in byModel ==> byModel[m] == WithRate(RowOf(s, os, byId, q, m))
    ensures Total(byModel.Keys, LabelsAt(byModel)) == LabelTotal(os, byId, q).0 as real
    ensures Total(byModel.Keys, SuccessesAt(byModel)) == LabelTotal(os, byId, q).1
  {
    hide Filter, LabelSum, LabelCount, IsLabel, ModelsOf, LabelTotal;
    LabelledModels(s, os, byId, q);
    LabelsSpread(byModel.Keys, os, byId, q);
    TotalCongruence(byModel.Keys, LabelsAt(byModel), CountFor(os, byId, q));
    TotalCongruence(byModel.Keys, SuccessesAt(byModel), SumFor(os, byId, q));
  }

  lemma LabelledModels(s: set<Decision>, os: seq<Outcome>, byId: map<string, Decision>, q: Query)
    ensures forall i :: 0 <= i < |os| && IsLabel(os[i], byId, q) ==>
              os[i].decisionId in byId && Answering(byId[os[i].decisionId]) in ModelsOf(s, os, byId, q)
  {}

  ghost function CountFor(os: seq<Outcome>, byId: map<string, Decision>, q: Query): string -> real
  {
    m => LabelCount(os, byId, q, m) as real
  }

  ghost function SumFor(os: seq<Outcome>, byId: map<string, Decision>, q: Query): string -> real
  {
    m => LabelSum(os, byId, q, m)
  }

  lemma {:induction false} LabelsSpread(keys: set<string>, os: seq<Outcome>, byId: map<string, Decision>, q: Query)
    requires forall i :: 0 <= i < |os| && IsLabel(os[i], byId, q) ==>
               os[i].decisionId in byId && Answering(byId[os[i].decisionId]) in keys
    ensures Total(keys, CountFor(os, byId, q)) == LabelTotal(os, byId, q).0 as real
    ensures Total(keys, SumFor(os, byId, q)) == LabelTotal(os, byId, q).1
  {
    hide IsLabel, Value;
    if os == [] {
      TotalOfZero(keys, CountFor(os, byId, q));
      TotalOfZero(keys, SumFor(os, byId, q));
    } else {
      var n := |os| - 1;
      LabelsSpread(keys, os[..n], byId, q);
      var o := os[n];
      if IsLabel(o, byId, q) {
        var m := Answering(byId[o.decisionId]);
        TotalBump(keys, CountFor(os[..n], byId, q), CountFor(os, byId, q), m, 1.0);
        TotalBump(keys, SumFor(os[..n], byId, q), SumFor(os, byId, q), m, Value(o));
      } else {
        TotalCongruence(keys, CountFor(os[..n], byId, q), CountFor(os, byId, q));
        TotalCongruence(keys, SumFor(os[..n], byId, q), SumFor(os, byId, q));
      }
    }
  }

  lemma {:induction false} TotalOfZero<T>(s: set<T>, f: T -> real)
    requires forall x :: x in s ==> f(x) == 0.0
    ensures Total(s, f) == 0.0
    decreases s
  {
    if s != {} {
      var x :| x in s;
      TotalRemove(s, f, x);
      TotalOfZero(s - {x}, f);
    }
  }

  lemma TotalBump<T>(s: set<T>, f: T -> real, g: T -> real, at: T, step: real)
    requires at in s && g(at) == f(at) + step && forall x :: x in s && x != at ==> g(x) == f(x)
    ensures Total(s, g) == Total(s, f) + step
  {
    TotalRemove(s, f, at);
    TotalRemove(s, g, at);
    TotalCongruence(s - {at}, f, g);
  }

  // ---------- one vote per trace ----------

  /** A trace has a vote iff some outcome resolves to it, and the last such outcome decides. */
  lemma {:induction false} LastOutcomeWins(os: seq<Outcome>, byId: map<string, Decision>, q: Query, trace: string)
    ensures trace in Ballot(os, byId, q) <==> exists i :: 0 <= i < |os| && Votes(os[i], byId, q, trace)
    ensures forall i :: 0 <= i < |os| && Votes(os[i], byId, q, trace)
              && (forall j :: i < j < |os| ==> !Votes(os[j], byId, q, trace))
              ==> Ballot(os, byId, q)[trace] == Value(os[i])
  {
    hide Relevant, VoteTrace, Value;
    if os != [] {
      var n := |os| - 1;
      LastOutcomeWins(os[..n], byId, q, trace);
      if Votes(os[n], byId, q, trace) {
        assert VoteTrace(os[n], byId) == trace;
      } else if trace in Ballot(os[..n], byId, q) {
        var i :| 0 <= i < n && Votes(os[..n][i], byId, q, trace);
        assert Votes(os[i], byId, q, trace);
      }
      forall i | 0 <= i < n && Votes(os[i], byId, q, trace) &&
        (forall j :: i < j < |os| ==> !Votes(os[j], byId, q, trace))
        ensures Ballot(os, byId, q)[trace] == Value(os[i])
      {
        assert !Votes(os[n], byId, q, trace);
        assert Votes(os[..n][i], byId, q, trace);
      }
    }
  }

  ghost predicate Proportions(os: seq<Outcome>, q: Query)
  {
    forall o :: o in os && Relevant(o, q) ==> 0.0 <= Value(o) <= 1.0
  }

  lemma {:induction false} VotesAreProportions(os: seq<Outcome>, byId: map<string, Decision>, q: Query)
    requires Proportions(os, q)
    ensures forall t :: t in Ballot(os, byId, q) ==> 0.0 <= Ballot(os, byId, q)[t] <= 1.0
  {
    if os != [] {
      assert os[|os| - 1] in os;
      VotesAreProportions(os[..|os| - 1], byId, q);
    }
  }

  lemma {:induction false} TotalAtMostCount<T>(s: set<T>, f: T -> real)
    requires forall x :: x in s ==> 0.0 <= f(x) <= 1.0
    ensures 0.0 <= Total(s, f) <= |s| as real
    decreases s
  {
    if s != {} {
      var x :| x in s;
      TotalRemove(s, f, x);
      TotalAtMostCount(s - {x}, f);
    }
  }

  /** The two arms split the traces that have both a production decision and a vote, so a trace
      counts once however many decisions it made; and each reported interval brackets its rate. */
  lemma ArmsAreDisjointAndBracketed(ds: set<Decision>, os: seq<Outcome>, q: Query, sqrt: real -> real)
    requires Proportions(os, q)
    requires forall x :: x >= 0.0 ==> Wilson.IsRoot(sqrt(x), x)
    ensures var s := Scoped(ds, q);
            var r := SummaryOf(ds, os, q, sqrt);
            && r.treatment.n + r.control.n == |set t | t in Ballot(os, ById(s), q) && t in ArmsOf(s)|
            && 0.0 <= r.treatment.lower <= r.treatment.estimate <= r.treatment.upper <= 1.0
            && 0.0 <= r.control.lower <= r.control.estimate <= r.control.upper <= 1.0
  {
    var s := Scoped(ds, q);
    var ballot, arms := Ballot(os, ById(s), q), ArmsOf(s);
    var tv, cv := Voters(ballot, arms, TreatmentArm), Voters(ballot, arms, ControlArm);
    assert (set t | t in ballot && t in arms) == tv + cv;
    VotesAreProportions(os, ById(s), q);
    ArmBracketed(ballot, arms, TreatmentArm, sqrt);
    ArmBracketed(ballot, arms, ControlArm, sqrt);
  }

  lemma ArmBracketed(ballot: map<string, real>, arms: map<string, Arm>, arm: Arm, sqrt: real -> real)
    requires forall t :: t in ballot ==> 0.0 <= ballot[t] <= 1.0
    requires forall x :: x >= 0.0 ==> Wilson.IsRoot(sqrt(x), x)
    ensures var i := ArmInterval(ballot, arms, arm, sqrt);
            i.n == |Voters(ballot, arms, arm)| && 0.0 <= i.lower <= i.estimate <= i.upper <= 1.0
  {
    var voters := Voters(ballot, arms, arm);
    TotalAtMostCount(voters, VoteIn(ballot));
    if |voters| > 0 {
      Wilson.HonestRoot(Total(voters, VoteIn(ballot)), |voters|, Wilson.Z95, sqrt);
      Wilson.EstimateInside(Total(voters, VoteIn(ballot)), |voters|, Wilson.Z95, sqrt);
    }
  }

  // ---------- the order of outcomes ----------

  /** All outcomes that resolve to one trace carry the same value. */
  ghost predicate Unanimous(os: seq<Outcome>, byId: map<string, Decision>, q: Query)
  {
    forall i, j, t :: 0 <= i < |os| && 0 <= j < |os| && Votes(os[i], byId, q, t) && Votes(os[j], byId, q, t)
      ==> Value(os[i]) == Value(os[j])
  }

  /** A database returns outcome rows in no particular order. The ballot survives every
      reordering exactly when no trace has two outcomes that disagree. */
  lemma OutcomeOrderIsIrrelevantIff(os: seq<Outcome>, byId: map<string, Decision>, q: Query)
    ensures Unanimous(os, byId, q) <==>
            forall other :: multiset(other) == multiset(os) ==> Ballot(other, byId, q) == Ballot(os, byId, q)
  {
    hide Ballot, Votes, Value;
    if Unanimous(os, byId, q) {
      forall other | multiset(other) == multiset(os)
        ensures Ballot(other, byId, q) == Ballot(os, byId, q)
      {
        UnanimousReorder(os, other, byId, q);
      }
    } else {
      var i, j, t :| 0 <= i < |os| && 0 <= j < |os| && Votes(os[i], byId, q, t) && Votes(os[j], byId, q, t)
        && Value(os[i]) != Value(os[j]);
      var other := DisagreementShows(os, i, j, byId, q, t);
    }
  }

  /** Moving one or the other of two disagreeing outcomes to the end changes the ballot. */
  lemma DisagreementShows(os: seq<Outcome>, i: nat, j: nat, byId: map<string, Decision>, q: Query, t: string)
    returns (other: seq<Outcome>)
    requires i < |os| && j < |os| && Votes(os[i], byId, q, t) && Votes(os[j], byId, q, t) &&
             Value(os[i]) != Value(os[j])
    ensures multiset(other) == multiset(os) && Ballot(other, byId, q) != Ballot(os, byId, q)
  {
    hide Ballot, Votes, Value, RemoveAt;
    RemovedMembers(os, i);
    RemovedMembers(os, j);
    MovedVoteWins(os, i, byId, q, t);
    MovedVoteWins(os, j, byId, q, t);
    other := MoveLast(os, if Ballot(MoveLast(os, i), byId, q) != Ballot(os, byId, q) then i else j);
  }

  function MoveLast(os: seq<Outcome>, i: nat): seq<Outcome>
    requires i < |os|
  {
    RemoveAt(os, i) + [os[i]]
  }

  lemma MovedVoteWins(os: seq<Outcome>, i: nat, byId: map<string, Decision>, q: Query, t: string)
    requires i < |os| && Votes(os[i], byId, q, t)
    ensures t in Ballot(MoveLast(os, i), byId, q) && Ballot(MoveLast(os, i), byId, q)[t] == Value(os[i])
  {
    LastOutcomeWins(MoveLast(os, i), byId, q, t);
    assert MoveLast(os, i)[|os| - 1] == os[i];
  }

  lemma UnanimousReorder(os: seq<Outcome>, other: seq<Outcome>, byId: map<string, Decision>, q: Query)
    requires Unanimous(os, byId, q) && multiset(other) == multiset(os)
    ensures Ballot(other, byId, q) == Ballot(os, byId, q)
  {
    SameMembers(os, other);
    forall t
      ensures t in Ballot(os, byId, q) <==> t in Ballot(other, byId, q)
      ensures t in Ballot(os, byId, q) ==> Ballot(os, byId, q)[t] == Ballot(other, byId, q)[t]
    {
      SameVote(os, other, byId, q, t);
      SameVote(other, os, byId, q, t);
    }
    SameMap(Ballot(other, byId, q), Ballot(os, byId, q));
  }

  lemma SameVote(os: seq<Outcome>, other: seq<Outcome>, byId: map<string, Decision>, q: Query, t: string)
    requires Unanimous(os, byId, q) && forall x :: x in os <==> x in other
    ensures t in Ballot(os, byId, q) ==>
            t in Ballot(other, byId, q) && Ballot(os, byId, q)[t] == Ballot(other, byId, q)[t]
    ensures Unanimous(other, byId, q)
  {
    hide Ballot, Votes;
    LastOutcomeWins(os, byId, q, t);
    LastOutcomeWins(other, byId, q, t);
    if t in Ballot(os, byId, q) {
      var i := LastVote(os, byId, q, t);
      assert os[i] in other;
      var k :| 0 <= k < |other| && other[k] == os[i];
      var j := LastVote(other, byId, q, t);
      assert other[j] in os;
    }
    forall i, j, u | 0 <= i < |other| && 0 <= j < |other| && Votes(other[i], byId, q, u) && Votes(other[j], byId, q, u)
      ensures Value(other[i]) == Value(other[j])
    {
      assert other[i] in os && other[j] in os;
    }
  }

  lemma {:induction false} LastVote(os: seq<Outcome>, byId: map<string, Decision>, q: Query, t: string) returns (i: nat)
    requires exists k :: 0 <= k < |os| && Votes(os[k], byId, q, t)
    ensures i < |os| && Votes(os[i], byId, q, t) && forall j :: i < j < |os| ==> !Votes(os[j], byId, q, t)
  {
    i := |os| - 1;
    while !Votes(os[i], byId, q, t)
      invariant i < |os| && forall j :: i < j < |os| ==> !Votes(os[j], byId, q, t)
      decreases i
    {
      i := i - 1;
    }
  }

  // ---------- which outcome rows, in which order ----------

  lemma {:induction false} LabelRemove(os: seq<Outcome>, i: nat, byId: map<string, Decision>, q: Query, m: string)
    requires i < |os|
    ensures LabelSum(os, byId, q, m) == LabelSum(RemoveAt(os, i), byId, q, m) +
              if Labels(os[i], byId, q, m) then Value(os[i]) else 0.0
    ensures LabelCount(os, byId, q, m) == LabelCount(RemoveAt(os, i), byId, q, m) +
              if Labels(os[i], byId, q, m) then 1 else 0
  {
    hide Labels, Value, RemoveAt;
    var n := |os| - 1;
    RemoveAtParts(os, i);
    if i < n { LabelRemove(os[..n], i, byId, q, m); }
  }

  lemma RemoveAtParts(os: seq<Outcome>, i: nat)
    requires i < |os|
    ensures var n := |os| - 1; var rest := RemoveAt(os, i);
            if i == n then rest == os[..n]
            else |rest| == n && n > 0 && rest[..n - 1] == RemoveAt(os[..n], i) && rest[n - 1] == os[n]
  {}

  lemma {:induction false} LabelsReorder(os: seq<Outcome>, other: seq<Outcome>, byId: map<string, Decision>, q: Query,
                                         m: string)
    requires multiset(os) == multiset(other)
    ensures LabelSum(os, byId, q, m) == LabelSum(other, byId, q, m)
    ensures LabelCount(os, byId, q, m) == LabelCount(other, byId, q, m)
    decreases |os|
  {
    hide LabelSum, LabelCount, Labels, Value, RemoveAt;
    SameMembers(os, other);
    if os == [] {
      assert other == [];
    } else {
      var n := |os| - 1;
      assert os[n] in other;
      var i :| 0 <= i < |other| && other[i] == os[n];
      RemovedMembers(other, i);
      RemovedMembers(os, n);
      LabelsReorder(RemoveAt(os, n), RemoveAt(other, i), byId, q, m);
      LabelRemove(os, n, byId, q, m);
      LabelRemove(other, i, byId, q, m);
    }
  }

  lemma ModelsDependOnMembers(s: set<Decision>, os: seq<Outcome>, other: seq<Outcome>, byId: map<string, Decision>,
                              q: Query)
    requires forall o :: IsLabel(o, byId, q) ==> (o in os <==> o in other)
    ensures ModelsOf(s, os, byId, q) == ModelsOf(s, other, byId, q)
  {
    ModelsSubset(s, os, other, byId, q);
    ModelsSubset(s, other, os, byId, q);
  }

  lemma ModelsSubset(s: set<Decision>, os: seq<Outcome>, other: seq<Outcome>, byId: map<string, Decision>, q: Query)
    requires forall o :: IsLabel(o, byId, q) && o in os ==> o in other
    ensures ModelsOf(s, os, byId, q) <= ModelsOf(s, other, byId, q)
  {
    forall m | m in ModelsOf(s, os, byId, q)
      ensures m in ModelsOf(s, other, byId, q)
    {
      if m !in (set d | d in Production(s) :: Answering(d)) {
        var i :| 0 <= i < |os| && IsLabel(os[i], byId, q) && Answering(byId[os[i].decisionId]) == m;
        var k :| 0 <= k < |other| && other[k] == os[i];
      }
    }
  }

  function Matching(os: seq<Outcome>, q: Query): seq<Outcome>
  {
    if os == [] then [] else
      var o := os[|os| - 1];
      Matching(os[..|os| - 1], q) +
      if o.tenant == q.tenant && o.createdAt >= q.since && o.kind == q.primary then [o] else []
  }

  /** Outcomes the WHERE clause drops could not have mattered. */
  lemma {:induction false} FilteredVotesDoNotMatter(os: seq<Outcome>, byId: map<string, Decision>, q: Query)
    ensures Ballot(Matching(os, q), byId, q) == Ballot(os, byId, q)
  {
    hide VoteTrace, Value, Votes;
    if os != [] {
      var n := |os| - 1;
      FilteredVotesDoNotMatter(os[..n], byId, q);
      BallotAppend(Matching(os[..n], q), os[n], byId, q);
      VotesMatch(os[n], byId, q);
      assert Matching(os[..n], q) + [] == Matching(os[..n], q);
    }
  }

  lemma BallotAppend(os: seq<Outcome>, o: Outcome, byId: map<string, Decision>, q: Query)
    ensures var before := Ballot(os, byId, q); var trace := VoteTrace(o, byId);
            Ballot(os + [o], byId, q) == if Votes(o, byId, q, trace) then before[trace := Value(o)] else before
  {
    hide VoteTrace, Value, Votes;
    assert (os + [o])[..|os|] == os;
  }

  lemma VotesMatch(o: Outcome, byId: map<string, Decision>, q: Query)
    ensures Votes(o, byId, q, VoteTrace(o, byId)) ==>
              o.tenant == q.tenant && o.createdAt >= q.since && o.kind == q.primary
  {}

  lemma {:induction false} MatchingKeepsLabels(os: seq<Outcome>, byId: map<string, Decision>, q: Query, o: Outcome)
    requires IsLabel(o, byId, q)
    ensures o in os <==> o in Matching(os, q)
  {
    hide IsLabel;
    if os != [] {
      var n := |os| - 1;
      MatchingKeepsLabels(os[..n], byId, q, o);
      LabelIsRelevant(o, byId, q);
      assert os == os[..n] + [os[n]];
    }
  }

  lemma LabelIsRelevant(o: Outcome, byId: map<string, Decision>, q: Query)
    requires IsLabel(o, byId, q)
    ensures Relevant(o, q)
  {}

  lemma {:induction false} FilteredLabelsDoNotMatter(os: seq<Outcome>, byId: map<string, Decision>, q: Query, m: string)
    ensures LabelSum(Matching(os, q), byId, q, m) == LabelSum(os, byId, q, m)
    ensures LabelCount(Matching(os, q), byId, q, m) == LabelCount(os, byId, q, m)
  {
    hide Labels, Value;
    if os != [] {
      var n := |os| - 1;
      FilteredLabelsDoNotMatter(os[..n], byId, q, m);
      var kept := Matching(os[..n], q);
      assert kept + [] == kept;
      LabelCountStep(kept, os[n], byId, q, m);
      LabelsMatch(os[n], byId, q, m);
    }
  }

  lemma LabelsMatch(o: Outcome, byId: map<string, Decision>, q: Query, m: string)
    ensures Labels(o, byId, q, m) ==> o.tenant == q.tenant && o.createdAt >= q.since && o.kind == q.primary
  {}

  /** What the summary takes from the outcomes is the ballot and the label totals. */
  lemma SummaryFromBallotAndLabels(ds: set<Decision>, os: seq<Outcome>, other: seq<Outcome>, q: Query,
                                   sqrt: real -> real)
    requires var byId := ById(Scoped(ds, q));
             && Ballot(os, byId, q) == Ballot(other, byId, q)
             && (forall m :: LabelSum(os, byId, q, m) == LabelSum(other, byId, q, m))
             && (forall m :: LabelCount(os, byId, q, m) == LabelCount(other, byId, q, m))
             && (forall o :: IsLabel(o, byId, q) ==> (o in os <==> o in other))
    ensures SummaryOf(ds, os, q, sqrt) == SummaryOf(ds, other, q, sqrt)
  {
    hide Ballot, LabelSum, LabelCount, ModelsOf, ById, ArmsOf, TotalsOf, BucketCounts, IsLabel, ArmInterval, WithRate;
    var s := Scoped(ds, q);
    var byId := ById(s);
    ModelsDependOnMembers(s, os, other, byId, q);
    assert forall m :: RowOf(s, os, byId, q, m) == RowOf(s, other, byId, q, m);
    assert RowsOf(s, os, byId, q) == RowsOf(s, other, byId, q);
  }

  /** If no trace contradicts itself, any WHERE-filtered, arbitrarily ordered result set of the
      outcome table gives the summary of the whole outcome log. */
  lemma OutcomeQueryIsExact(ds: set<Decision>, os: seq<Outcome>, rows: seq<Outcome>, q: Query, sqrt: real -> real)
    requires multiset(rows) == multiset(Matching(os, q))
    requires Unanimous(os, ById(Scoped(ds, q)), q)
    ensures SummaryOf(ds, rows, q, sqrt) == SummaryOf(ds, os, q, sqrt)
  {
    var byId := ById(Scoped(ds, q));
    var kept := Matching(os, q);
    FilteredVotesDoNotMatter(os, byId, q);
    forall o | IsLabel(o, byId, q)
      ensures o in os <==> o in kept
    {
      MatchingKeepsLabels(os, byId, q, o);
    }
    forall m
      ensures LabelSum(kept, byId, q, m) == LabelSum(os, byId, q, m) &&
              LabelCount(kept, byId, q, m) == LabelCount(os, byId, q, m)
    {
      FilteredLabelsDoNotMatter(os, byId, q, m);
    }
    SummaryFromBallotAndLabels(ds, kept, os, q, sqrt);
    UnanimousSubset(os, kept, byId, q);
    UnanimousReorder(kept, rows, byId, q);
    forall m
      ensures LabelSum(rows, byId, q, m) == LabelSum(kept, byId, q, m) &&
              LabelCount(rows, byId, q, m) == LabelCount(kept, byId, q, m)
    {
      LabelsReorder(rows, kept, byId, q, m);
    }
    SameMembers(kept, rows);
    SummaryFromBallotAndLabels(ds, rows, kept, q, sqrt);
  }

  lemma UnanimousSubset(os: seq<Outcome>, kept: seq<Outcome>, byId: map<string, Decision>, q: Query)
    requires Unanimous(os, byId, q) && kept == Matching(os, q)
    ensures Unanimous(kept, byId, q)
  {
    MatchingInside(os, q);
    forall i, j, t | 0 <= i < |kept| && 0 <= j < |kept| && Votes(kept[i], byId, q, t) && Votes(kept[j], byId, q, t)
      ensures Value(kept[i]) == Value(kept[j])
    {
      assert kept[i] in os && kept[j] in os;
    }
  }

  lemma {:induction false} MatchingInside(os: seq<Outcome>, q: Query)
    ensures forall o :: o in Matching(os, q) ==> o in os
  {
    if os != [] {
      MatchingInside(os[..|os| - 1], q);
      assert os == os[..|os| - 1] + [os[|os| - 1]];
    }
  }
}
