/** What a routing decision guarantees, and where the documented contract is stronger than the code. */
module RoutingLaws {
  import opened Domain
  import opened Sequences
  import opened Policies
  import opened Selection
  import opened Routing

  // ---------- request limits against policy limits ----------

  /** The three limits for which the request's value replaces the policy's. */
  predicate WithinLimits(c: Constraints, m: Metadata, model: Model, cost: real)
  {
    && PrivacySatisfies(model.privacy, EffectivePrivacy(c, m))
    && WithinDeadline(model.p95Latency, EffectiveDeadline(c, m))
    && WithinCost(cost, EffectiveMaxCost(c, m))
  }

  predicate WithinPolicy(c: Constraints, model: Model, cost: real)
  {
    PrivacySatisfies(model.privacy, c.privacy) && WithinDeadline(model.p95Latency, c.maxLatency) &&
      WithinCost(cost, c.maxCost)
  }

  function Strength(p: Privacy): nat
  {
    match p
    case Unset => 0
    case Standard => 0
    case ZDR => 1
    case Local => 2
    case OtherPrivacy(_) => 2
  }

  /** The request asks for nothing looser than the policy: a check a caller can make up front. */
  predicate RequestTightens(c: Constraints, m: Metadata)
  {
    && (m.requiredPrivacy == Unset || Strength(m.requiredPrivacy) >= Strength(c.privacy))
    && (m.deadline == 0 || c.maxLatency <= 0 || 0 < m.deadline <= c.maxLatency)
    && (m.maxCost == 0.0 || c.maxCost <= 0.0 || 0.0 < m.maxCost <= c.maxCost)
  }

  /** The policy specification says that request requirements cannot weaken a policy. That is so
      exactly for requests that do not ask for something weaker: a request's privacy level,
      deadline and cost limit take the place of the policy's. */
  lemma PolicyHoldsIff(c: Constraints, m: Metadata)
    ensures RequestTightens(c, m) <==>
            forall model, cost :: WithinLimits(c, m, model, cost) ==> WithinPolicy(c, model, cost)
  {
    if !RequestTightens(c, m) {
      var model, cost := WeakeningWitness(c, m);
      assert WithinLimits(c, m, model, cost) && !WithinPolicy(c, model, cost);
    }
  }

  lemma WeakeningWitness(c: Constraints, m: Metadata) returns (model: Model, cost: real)
    requires !RequestTightens(c, m)
    ensures WithinLimits(c, m, model, cost) && !WithinPolicy(c, model, cost)
  {
    var latency := Smallest(EffectiveDeadline(c, m), c.maxLatency);
    model := Model("", "", "", Local, 0, true, true, true, 0.0, 0.0, latency, 0.0, true);
    cost := Min(0.0, c.maxCost);
    if m.requiredPrivacy != Unset && Strength(m.requiredPrivacy) < Strength(c.privacy) {
      model := model.(privacy := if Strength(m.requiredPrivacy) == 0 then Standard else ZDR);
      cost := if EffectiveMaxCost(c, m) > 0.0 then EffectiveMaxCost(c, m) else 0.0;
    } else if m.deadline != 0 && c.maxLatency > 0 && !(0 < m.deadline <= c.maxLatency) {
      model := model.(p95Latency := if m.deadline > 0 then m.deadline else c.maxLatency + 1);
      cost := if EffectiveMaxCost(c, m) > 0.0 then EffectiveMaxCost(c, m) else 0.0;
    } else {
      cost := if m.maxCost > 0.0 then m.maxCost else c.maxCost + 1.0;
    }
  }

  function Smallest(a: int, b: int): int { if a < b then a else b }

  /** Regions, unlike the other limits, do intersect; the rest is unconditional. */
  lemma EligibleModelsAreFeasible(e: Engine, p: Policy, model: Model, r: Request)
    requires PredictionOf(e, p, model, r).eligible
    ensures model.enabled && model.id !in e.open
    ensures model.contextWindow > 0 ==> r.features.inputTokens + r.features.expectedOutputTokens <= model.contextWindow
    ensures (r.features.toolCount > 0 ==> model.supportsTools) && (r.features.hasVision ==> model.supportsVision)
    ensures r.features.hasStructuredOutput ==> model.supportsStructured
    ensures r.metadata.requiredRegion != "" ==> EqualFold(e.fold, model.region, r.metadata.requiredRegion)
    ensures RegionAllowed(e.fold, p.constraints.allowedRegions, model.region)
    ensures RequestTightens(p.constraints, r.metadata) ==>
              WithinPolicy(p.constraints, model, EstimateCost(model, r.features))
  {
    assert InfeasibleReason(e, p, model, r, EstimateCost(model, r.features)) == "";
    PolicyHoldsIff(p.constraints, r.metadata);
  }

  // ---------- what is selected ----------

  predicate Chosen(d: Decision) { d.bucket == Treatment || d.bucket == Exploration }

  lemma PredictionsAreKeyed(e: Engine, p: Policy, r: Request)
    requires ValidCatalog(e.catalog)
    ensures forall id :: id in PredictionsOf(e, p, r) ==> PredictionsOf(e, p, r)[id].modelId == id
  {}

  /** Every prediction is a proportion with a bound below it, whatever the trained weights are. */
  lemma PredictionsAreBounded(e: Engine, p: Policy, model: Model, r: Request)
    requires p.confidenceZ > 0.0
    ensures var x := PredictionOf(e, p, model, r);
            0.0 <= x.lowerBound <= x.success <= 1.0 && 0.005 <= x.uncertainty <= 0.5
  {
    hide InfeasibleReason, Vector, ScoreFor, EstimateCost;
    var x := PredictionOf(e, p, model, r);
    assert p.confidenceZ * x.uncertainty >= 0.0;
  }

  lemma {:induction false} QualifiedMembers(p: Policy, ids: seq<string>, predictions: map<string, Prediction>)
    ensures forall x :: x in QualifiedIn(p, ids, predictions) <==>
              exists id :: id in ids && Qualifies(p, predictions, id) && x == At(predictions, id)
    ensures |QualifiedIn(p, ids, predictions)| <= |ids|
  {
    if ids != [] {
      var n := |ids| - 1;
      QualifiedMembers(p, ids[..n], predictions);
      assert ids == ids[..n] + [ids[n]];
    }
  }

  lemma {:induction false} EligibleMembers(ids: seq<string>, predictions: map<string, Prediction>)
    ensures forall id :: id in EligibleIn(ids, predictions) <==> id in ids && At(predictions, id).eligible
  {
    if ids != [] {
      var n := |ids| - 1;
      EligibleMembers(ids[..n], predictions);
      assert ids == ids[..n] + [ids[n]];
    }
  }

  /** When a candidate is served: which one, and under which conditions. */
  lemma DecidedCandidate(c: Context, p: Policy, r: Request, blueprint: Decision, shadows: seq<string>,
                         candidates: seq<Prediction>)
    returns (k: nat)
    requires blueprint.bucket == Incumbent && blueprint.trace == TraceOf(c, r)
    requires Chosen(Decide(c, p, r, blueprint, shadows, candidates))
    ensures var d := Decide(c, p, r, blueprint, shadows, candidates); var sorted := Sorted(candidates);
            && k < |sorted| && (d.bucket == Treatment ==> k == 0)
            && d.selected == sorted[k].modelId && d.estimatedCost == sorted[k].estimatedCost
            && d == blueprint.(shadowModels := shadows, selected := d.selected, estimatedCost := d.estimatedCost,
                               bucket := d.bucket, fallbackReason := d.fallbackReason)
    ensures !p.drifted && p.mode != ObserveMode && p.mode != ShadowMode
    ensures Draw(c, TraceOf(c, r) + "|" + p.version) >= p.controlPercent
    ensures p.mode == CanaryMode ==> Draw(c, TraceOf(c, r) + "|" + p.version) < p.controlPercent + p.canaryPercent
  {
    hide Sorted, Draw;
    SortedPermutes(candidates);
    k := if Decide(c, p, r, blueprint, shadows, candidates).bucket == Treatment then 0
         else Arm(c, TraceOf(c, r), |Sorted(candidates)|);
  }

  /** Otherwise the incumbent is served, at the incumbent's price. */
  lemma DecidedIncumbent(c: Context, p: Policy, r: Request, blueprint: Decision, shadows: seq<string>,
                         candidates: seq<Prediction>)
    requires blueprint.bucket == Incumbent
    requires !Chosen(Decide(c, p, r, blueprint, shadows, candidates))
    ensures var d := Decide(c, p, r, blueprint, shadows, candidates);
            && d == blueprint.(shadowModels := d.shadowModels, bucket := d.bucket, fallbackReason := d.fallbackReason)
            && (d.shadowModels == blueprint.shadowModels || d.shadowModels == shadows)
            && (d.bucket == Incumbent || d.bucket == Control)
  {
    hide Sorted, Draw;
  }

  lemma ServedCandidate(e: Engine, c: Context, p: Policy, r: Request) returns (sorted: seq<Prediction>, k: nat)
    requires Chosen(RouteOf(e, c, p, r))
    ensures sorted == Sorted(QualifiedIn(p, p.candidates, PredictionsOf(e, p, r)))
    ensures k < |sorted| && (RouteOf(e, c, p, r).bucket == Treatment ==> k == 0)
    ensures RouteOf(e, c, p, r).selected == sorted[k].modelId &&
            RouteOf(e, c, p, r).estimatedCost == sorted[k].estimatedCost
    ensures !p.drifted && p.mode != ObserveMode && p.mode != ShadowMode
  {
    hide PredictionsOf, EligibleIn, Unique, ShadowCandidates, Sorted, QualifiedIn, Draw, Decide;
    var predictions := PredictionsOf(e, p, r);
    var blueprint := Blueprint(c, p, r, EligibleIn(Unique(Considered(p)), predictions), predictions);
    sorted := Sorted(QualifiedIn(p, p.candidates, predictions));
    k := DecidedCandidate(c, p, r, blueprint, ShadowCandidates(p, predictions),
                          QualifiedIn(p, p.candidates, predictions));
  }

  /** Whenever anything but the incumbent is selected, it is a listed candidate that satisfies the
      hard constraints, has enough samples, and is within tolerance of the incumbent's quality. */
  lemma OnlySafeModelsReplaceTheIncumbent(e: Engine, c: Context, p: Policy, r: Request)
    requires ValidCatalog(e.catalog)
    requires RouteOf(e, c, p, r).selected != p.incumbent
    ensures var d := RouteOf(e, c, p, r);
            && Chosen(d) && !p.drifted && p.mode != ObserveMode && p.mode != ShadowMode
            && d.selected in p.candidates && d.selected in d.predictions
            && Qualifies(p, d.predictions, d.selected)
  {
    hide RouteOf, PredictionsOf, Qualifies, Sorted, QualifiedIn;
    var d := RouteOf(e, c, p, r);
    if !Chosen(d) { UnchosenShape(e, c, p, r); }
    ChosenShape(e, c, p, r);
    var sorted, k := ServedCandidate(e, c, p, r);
    SelectedQualifies(e, p, r, sorted, k);
  }

  lemma SelectedQualifies(e: Engine, p: Policy, r: Request, sorted: seq<Prediction>, k: nat)
    requires ValidCatalog(e.catalog)
    requires sorted == Sorted(QualifiedIn(p, p.candidates, PredictionsOf(e, p, r))) && k < |sorted|
    ensures var predictions := PredictionsOf(e, p, r); var id := sorted[k].modelId;
            id in p.candidates && id in predictions && Qualifies(p, predictions, id) && sorted[k] == predictions[id]
  {
    hide Sorted, QualifiedIn, PredictionsOf, Qualifies;
    var predictions := PredictionsOf(e, p, r);
    var qualified := QualifiedIn(p, p.candidates, predictions);
    SortedPermutes(qualified);
    SameMembers(sorted, qualified);
    assert sorted[k] in qualified;
    QualifiedMembers(p, p.candidates, predictions);
    var id :| id in p.candidates && Qualifies(p, predictions, id) && sorted[k] == At(predictions, id);
    QualifiedIsPredicted(p, predictions, id);
    PredictionsAreKeyed(e, p, r);
  }

  lemma QualifiedIsPredicted(p: Policy, predictions: map<string, Prediction>, id: string)
    requires Qualifies(p, predictions, id)
    ensures id in predictions
  {}

  /** Outside exploration, the served candidate costs at most (n - 1) tolerances of 1e-12 more than any
      qualified candidate, despite the intransitive comparator. */
  lemma TreatmentIsNearlyCheapest(e: Engine, c: Context, p: Policy, r: Request, rival: string)
    requires RouteOf(e, c, p, r).bucket == Treatment
    requires rival in p.candidates && Qualifies(p, PredictionsOf(e, p, r), rival)
    ensures RouteOf(e, c, p, r).estimatedCost <=
            PredictionsOf(e, p, r)[rival].estimatedCost + (|p.candidates| - 1) as real * 0.000_000_000_001
  {
    hide Sorted, QualifiedIn, PredictionsOf, Qualifies;
    var sorted, k := ServedCandidate(e, c, p, r);
    var predictions := PredictionsOf(e, p, r);
    var qualified := QualifiedIn(p, p.candidates, predictions);
    QualifiedMembers(p, p.candidates, predictions);
    QualifiedIsPredicted(p, predictions, rival);
    assert predictions[rival] in qualified;
    SortedPermutes(qualified);
    SortedHasNoInversion(qualified);
    SameMembers(sorted, qualified);
    var j :| 0 <= j < |sorted| && sorted[j] == predictions[rival];
    if j > 0 {
      HeadIsNearlyCheapest(sorted, j);
      assert j as real * EPSILON <= (|p.candidates| - 1) as real * EPSILON;
    }
  }

  ghost function QualifiedFor(e: Engine, p: Policy, r: Request): seq<Prediction>
  {
    QualifiedIn(p, p.candidates, PredictionsOf(e, p, r))
  }

  /** And when no other qualified cost lies within the tolerance of the minimum, it is a cheapest one,
      and of those one with the highest lower bound. */
  lemma TreatmentIsCheapest(e: Engine, c: Context, p: Policy, r: Request)
    requires ValidCatalog(e.catalog)
    requires RouteOf(e, c, p, r).bucket == Treatment && IsolatedMinimum(Costs(QualifiedFor(e, p, r)))
    ensures var d := RouteOf(e, c, p, r); var chosen := At(PredictionsOf(e, p, r), d.selected);
            && chosen in QualifiedFor(e, p, r) && chosen.estimatedCost == d.estimatedCost
            && CostIsMinimal(Costs(QualifiedFor(e, p, r)), d.estimatedCost)
            && forall rival :: rival in QualifiedFor(e, p, r) && rival.estimatedCost == d.estimatedCost ==>
                 rival.lowerBound <= chosen.lowerBound
  {
    hide Sorted, QualifiedIn, PredictionsOf, RouteOf, Qualifies;
    var sorted, k := ServedCandidate(e, c, p, r);
    var qualified := QualifiedFor(e, p, r);
    SortedPermutes(qualified);
    SameMembers(sorted, qualified);
    SelectedQualifies(e, p, r, sorted, k);
    SortedHasNoInversion(qualified);
    BestComesFirst(qualified, sorted);
  }

  /** Two listings of the same candidates are served alike: the same bucket at the same cost and bound. */
  lemma ListingIsIrrelevant(e: Engine, c: Context, p: Policy, p': Policy, r: Request)
    requires ValidCatalog(e.catalog)
    requires p' == p.(candidates := p'.candidates) && multiset(p'.candidates) == multiset(p.candidates)
    requires RouteOf(e, c, p, r).bucket == Treatment && IsolatedMinimum(Costs(QualifiedFor(e, p, r)))
    ensures var d, d' := RouteOf(e, c, p, r), RouteOf(e, c, p', r); var predictions := PredictionsOf(e, p, r);
            && d'.bucket == Treatment && d'.estimatedCost == d.estimatedCost
            && At(predictions, d'.selected).lowerBound == At(predictions, d.selected).lowerBound
  {
    hide RouteOf, PredictionsOf, QualifiedIn, IsolatedMinimum, Costs, CostIsMinimal;
    RelistedPredictions(e, p, p', r);
    RelistedQualified(p, p', p.candidates, p'.candidates, PredictionsOf(e, p, r));
    RelistedBucket(e, c, p, p', r);
    SameMembers(QualifiedFor(e, p, r), QualifiedFor(e, p', r));
    SameCostMembers(QualifiedFor(e, p, r), QualifiedFor(e, p', r));
    SameIsolation(Costs(QualifiedFor(e, p, r)), Costs(QualifiedFor(e, p', r)));
    TreatmentIsCheapest(e, c, p, r);
    TreatmentIsCheapest(e, c, p', r);
    MinimaAgree(QualifiedFor(e, p, r), QualifiedFor(e, p', r), RouteOf(e, c, p, r).estimatedCost,
                RouteOf(e, c, p', r).estimatedCost);
  }

  lemma RelistedPrediction(e: Engine, p: Policy, p': Policy, model: Model, r: Request)
    requires p' == p.(candidates := p'.candidates)
    ensures PredictionOf(e, p', model, r) == PredictionOf(e, p, model, r)
  {
    hide Vector, EstimateCost, EqualFold, RegionAllowed;
    assert InfeasibleReason(e, p', model, r, EstimateCost(model, r.features)) ==
           InfeasibleReason(e, p, model, r, EstimateCost(model, r.features));
  }

  lemma RelistedPredictions(e: Engine, p: Policy, p': Policy, r: Request)
    requires p' == p.(candidates := p'.candidates) && multiset(p'.candidates) == multiset(p.candidates)
    ensures PredictionsOf(e, p', r) == PredictionsOf(e, p, r)
  {
    hide PredictionOf;
    SameMembers(p.candidates, p'.candidates);
    forall id | id in e.catalog
      ensures PredictionOf(e, p', e.catalog[id], r) == PredictionOf(e, p, e.catalog[id], r)
    {
      RelistedPrediction(e, p, p', e.catalog[id], r);
    }
  }

  lemma {:induction false} QualifiedAppend(p: Policy, ids: seq<string>, id: string,
                                           predictions: map<string, Prediction>)
    ensures QualifiedIn(p, ids + [id], predictions) ==
            QualifiedIn(p, ids, predictions) + if Qualifies(p, predictions, id) then [predictions[id]] else []
  {
    assert (ids + [id])[..|ids|] == ids;
  }

  lemma {:induction false} QualifiedSplit(p: Policy, a: seq<string>, b: seq<string>,
                                          predictions: map<string, Prediction>)
    ensures QualifiedIn(p, a + b, predictions) == QualifiedIn(p, a, predictions) + QualifiedIn(p, b, predictions)
  {
    hide Qualifies;
    if b == [] {
      assert a + b == a;
    } else {
      var n := |b| - 1;
      QualifiedSplit(p, a, b[..n], predictions);
      QualifiedAppend(p, a + b[..n], b[n], predictions);
      assert a + b == a + b[..n] + [b[n]];
    }
  }

  /** Reordering the candidates reorders the qualified ones. */
  lemma {:induction false} RelistedQualified(p: Policy, p': Policy, ids: seq<string>, ids': seq<string>,
                                             predictions: map<string, Prediction>)
    requires p' == p.(candidates := p'.candidates) && multiset(ids) == multiset(ids')
    ensures multiset(QualifiedIn(p', ids', predictions)) == multiset(QualifiedIn(p, ids, predictions))
    decreases |ids|
  {
    hide Qualifies, QualifiedIn, RemoveAt;
    SameMembers(ids, ids');
    if ids == [] {
      NoneQualified(p, predictions);
      NoneQualified(p', predictions);
    } else {
      var n := |ids| - 1;
      assert ids[n] in ids';
      var i :| 0 <= i < |ids'| && ids'[i] == ids[n];
      RemovedMembers(ids', i);
      RemovedMembers(ids, n);
      RelistedQualified(p, p', RemoveAt(ids, n), RemoveAt(ids', i), predictions);
      TakenOut(p', ids', i, predictions);
      TakenOut(p, ids, n, predictions);
      SameFloor(p, p', predictions, ids[n]);
    }
  }

  lemma NoneQualified(p: Policy, predictions: map<string, Prediction>)
    ensures QualifiedIn(p, [], predictions) == []
  {}

  lemma TakenOut(p: Policy, ids: seq<string>, i: nat, predictions: map<string, Prediction>)
    requires i < |ids|
    ensures multiset(QualifiedIn(p, ids, predictions)) ==
            multiset(QualifiedIn(p, RemoveAt(ids, i), predictions)) +
            if Qualifies(p, predictions, ids[i]) then multiset{predictions[ids[i]]} else multiset{}
  {
    hide Qualifies, QualifiedIn;
    assert ids == (ids[..i] + [ids[i]]) + ids[i + 1..];
    QualifiedSplit(p, ids[..i] + [ids[i]], ids[i + 1..], predictions);
    QualifiedSplit(p, ids[..i], ids[i + 1..], predictions);
    QualifiedAppend(p, ids[..i], ids[i], predictions);
  }

  lemma SameFloor(p: Policy, p': Policy, predictions: map<string, Prediction>, id: string)
    requires p' == p.(candidates := p'.candidates)
    ensures Qualifies(p', predictions, id) <==> Qualifies(p, predictions, id)
  {}

  lemma RelistedBucket(e: Engine, c: Context, p: Policy, p': Policy, r: Request)
    requires p' == p.(candidates := p'.candidates)
    requires multiset(QualifiedFor(e, p', r)) == multiset(QualifiedFor(e, p, r))
    requires RouteOf(e, c, p, r).bucket == Treatment
    ensures RouteOf(e, c, p', r).bucket == Treatment
  {
    hide PredictionsOf, QualifiedIn, Unique, EligibleIn, ShadowCandidates, Decide, Considered;
    SameMembers(QualifiedFor(e, p', r), QualifiedFor(e, p, r));
    var predictions, predictions' := PredictionsOf(e, p, r), PredictionsOf(e, p', r);
    RelistedDecision(c, p, p', r, Blueprint(c, p, r, EligibleIn(Unique(Considered(p)), predictions), predictions),
                     Blueprint(c, p', r, EligibleIn(Unique(Considered(p')), predictions'), predictions'),
                     ShadowCandidates(p, predictions), ShadowCandidates(p', predictions'),
                     QualifiedFor(e, p, r), QualifiedFor(e, p', r));
  }

  lemma RelistedDecision(c: Context, p: Policy, p': Policy, r: Request, blueprint: Decision, blueprint': Decision,
                         shadows: seq<string>, shadows': seq<string>, candidates: seq<Prediction>,
                         candidates': seq<Prediction>)
    requires p' == p.(candidates := p'.candidates) && |candidates'| == |candidates|
    requires blueprint.bucket == Incumbent && blueprint'.trace == blueprint.trace == TraceOf(c, r)
    requires Decide(c, p, r, blueprint, shadows, candidates).bucket == Treatment
    ensures Decide(c, p', r, blueprint', shadows', candidates').bucket == Treatment
  {
    hide Sorted, Draw, Arm;
    SortedPermutes(candidates);
    SortedPermutes(candidates');
  }

  // ---------- rolling out ----------

  /** The same policy at a later stage of its rollout. */
  predicate LaterStage(p: Policy, later: Policy)
  {
    p.mode == CanaryMode && later == p.(mode := later.mode, canaryPercent := later.canaryPercent) &&
    (later.mode == ActiveMode || (later.mode == CanaryMode && later.canaryPercent >= p.canaryPercent))
  }

  /** Two runs of one trace: identity, clock and tenant may differ, the randomisation may not. */
  ghost predicate SameTrace(c: Context, c': Context, r: Request)
  {
    c.hash == c'.hash && TraceOf(c, r) == TraceOf(c', r)
  }

  function RolloutDraw(c: Context, p: Policy, r: Request): real { Draw(c, TraceOf(c, r) + "|" + p.version) }

  predicate Optimises(p: Policy) { !p.drifted && p.mode != ObserveMode && p.mode != ShadowMode }

  /** The policy optimises, and the trace is neither in its control group nor outside its canary. */
  predicate ReachesSelection(c: Context, p: Policy, r: Request)
  {
    Optimises(p) && p.controlPercent <= RolloutDraw(c, p, r) &&
    (p.mode == CanaryMode ==> RolloutDraw(c, p, r) < p.controlPercent + p.canaryPercent)
  }

  /** The decision of one run, as the run under another identity would have made it. */
  function Rerun(d: Decision, c: Context): Decision { d.(id := c.id, tenant := c.tenant, createdAt := c.now) }

  /** Across runs with the same health: a request whose trace reaches selection at some canary share
      reaches it at every larger share and in active mode, and is decided alike in everything but
      identity, whether or not a candidate qualifies. The control group never moves either. */
  lemma RolloutIsMonotone(e: Engine, c: Context, c': Context, p: Policy, later: Policy, r: Request)
    requires LaterStage(p, later) && SameTrace(c, c', r)
    ensures ReachesSelection(c, p, r) ==>
              ReachesSelection(c', later, r) && RouteOf(e, c', later, r) == Rerun(RouteOf(e, c, p, r), c')
    ensures RouteOf(e, c, p, r).bucket == Control <==> RouteOf(e, c', later, r).bucket == Control
    ensures RouteOf(e, c, p, r).bucket == Control ==> RouteOf(e, c', later, r) == Rerun(RouteOf(e, c, p, r), c')
  {
    hide PredictionsOf, EligibleIn, Unique, ShadowCandidates, QualifiedIn, Decide, Considered;
    SamePredictions(e, p, later, r);
    var predictions := PredictionsOf(e, p, r);
    SameQualified(p, later, p.candidates, predictions);
    SameShadows(p, later, predictions);
    var feasible := EligibleIn(Unique(Considered(p)), predictions);
    assert Blueprint(c', later, r, feasible, predictions) == Rerun(Blueprint(c, p, r, feasible, predictions), c');
    DecideIsMonotone(c, c', p, later, r, Blueprint(c, p, r, feasible, predictions),
                     ShadowCandidates(p, predictions), QualifiedIn(p, p.candidates, predictions));
  }

  lemma DecideIsMonotone(c: Context, c': Context, p: Policy, later: Policy, r: Request, blueprint: Decision,
                         shadows: seq<string>, candidates: seq<Prediction>)
    requires LaterStage(p, later) && SameTrace(c, c', r)
    requires blueprint.bucket == Incumbent && blueprint.trace == TraceOf(c, r)
    ensures var d := Decide(c, p, r, blueprint, shadows, candidates);
            var d' := Decide(c', later, r, Rerun(blueprint, c'), shadows, candidates);
            && (ReachesSelection(c, p, r) ==> ReachesSelection(c', later, r) && d' == Rerun(d, c'))
            && (d.bucket == Control <==> d'.bucket == Control) && (d.bucket == Control ==> d' == Rerun(d, c'))
  {
    hide Sorted;
    SortedPermutes(candidates);
    SameDraws(c, c', TraceOf(c, r) + "|" + p.version);
    if candidates != [] { SameChoice(c, c', p, later, r, Sorted(candidates)); }
  }

  lemma SameDraws(c: Context, c': Context, key: string)
    requires c.hash == c'.hash
    ensures Draw(c, key) == Draw(c', key)
  {}

  lemma SameChoice(c: Context, c': Context, p: Policy, later: Policy, r: Request, sorted: seq<Prediction>)
    requires LaterStage(p, later) && SameTrace(c, c', r) && sorted != []
    ensures Choose(c', later, r, sorted) == Choose(c, p, r, sorted)
  {}

  lemma SameShadows(p: Policy, later: Policy, predictions: map<string, Prediction>)
    requires later == p.(mode := later.mode, canaryPercent := later.canaryPercent)
    ensures ShadowCandidates(later, predictions) == ShadowCandidates(p, predictions)
  {}

  lemma SamePrediction(e: Engine, p: Policy, later: Policy, model: Model, r: Request)
    requires later == p.(mode := later.mode, canaryPercent := later.canaryPercent)
    ensures PredictionOf(e, later, model, r) == PredictionOf(e, p, model, r)
  {
    hide Vector, EstimateCost, EqualFold, RegionAllowed;
    assert InfeasibleReason(e, later, model, r, EstimateCost(model, r.features)) ==
           InfeasibleReason(e, p, model, r, EstimateCost(model, r.features));
  }

  lemma SamePredictions(e: Engine, p: Policy, later: Policy, r: Request)
    requires later == p.(mode := later.mode, canaryPercent := later.canaryPercent)
    ensures PredictionsOf(e, later, r) == PredictionsOf(e, p, r)
    ensures Considered(later) == Considered(p)
  {
    hide PredictionOf;
    forall id | id in e.catalog
      ensures PredictionOf(e, later, e.catalog[id], r) == PredictionOf(e, p, e.catalog[id], r)
    {
      SamePrediction(e, p, later, e.catalog[id], r);
    }
  }

  lemma {:induction false} SameQualified(p: Policy, later: Policy, ids: seq<string>,
                                         predictions: map<string, Prediction>)
    requires later == p.(mode := later.mode, canaryPercent := later.canaryPercent)
    ensures QualifiedIn(later, ids, predictions) == QualifiedIn(p, ids, predictions)
  {
    if ids != [] { SameQualified(p, later, ids[..|ids| - 1], predictions); }
  }

  // ---------- facts the request protocol relies on ----------

  /** Identity of a decision is fixed by the call; only treatments and explorations leave the incumbent; a
      decision for the incumbent is priced as the incumbent; shadows are eligible candidates of a
      policy that pays for them. */
  lemma RoutedDecision(e: Engine, c: Context, p: Policy, r: Request)
    requires ValidCatalog(e.catalog)
    ensures var d := RouteOf(e, c, p, r);
            && HasIdentity(d, e, c, p, r) && d.bucket != Shadow
            && (d.selected != p.incumbent ==> d.bucket == Treatment || d.bucket == Exploration)
            && (d.selected == p.incumbent ==> d.estimatedCost == d.incumbentCost)
            && (d.selected == p.incumbent || d.selected in p.candidates)
            && forall id :: id in d.shadowModels ==>
                 id in p.candidates && At(d.predictions, id).eligible && p.shadowBudget > 0.0
  {
    hide PredictionsOf, EligibleIn, Sorted, QualifiedIn, RouteOf, Qualifies;
    var d := RouteOf(e, c, p, r);
    EligibleMembers(p.candidates, d.predictions);
    if Chosen(d) {
      var sorted, k := ServedCandidate(e, c, p, r);
      SelectedQualifies(e, p, r, sorted, k);
      ChosenShape(e, c, p, r);
    } else {
      UnchosenShape(e, c, p, r);
    }
  }

  /** The fields no branch of the decision touches. */
  ghost predicate HasIdentity(d: Decision, e: Engine, c: Context, p: Policy, r: Request)
  {
    && d.id == c.id && d.tenant == c.tenant && d.policyId == p.id && d.createdAt == c.now && d.trace == TraceOf(c, r)
    && d.risk == r.metadata.risk && d.attempted == [] && d.incumbent == p.incumbent && d.final == "" &&
       d.actualCost == 0.0 && d.parentId == "" && d.completedAt == None
    && d.incumbentCost == At(d.predictions, p.incumbent).estimatedCost && d.predictions == PredictionsOf(e, p, r)
  }

  lemma ChosenShape(e: Engine, c: Context, p: Policy, r: Request)
    requires Chosen(RouteOf(e, c, p, r))
    ensures var d := RouteOf(e, c, p, r);
            HasIdentity(d, e, c, p, r) && d.shadowModels == ShadowCandidates(p, d.predictions)
  {
    hide PredictionsOf, EligibleIn, Unique, Sorted, Draw, QualifiedIn, ShadowCandidates, Decide;
    var predictions := PredictionsOf(e, p, r);
    var blueprint := Blueprint(c, p, r, EligibleIn(Unique(Considered(p)), predictions), predictions);
    var k := DecidedCandidate(c, p, r, blueprint, ShadowCandidates(p, predictions),
                              QualifiedIn(p, p.candidates, predictions));
  }

  lemma UnchosenShape(e: Engine, c: Context, p: Policy, r: Request)
    requires !Chosen(RouteOf(e, c, p, r))
    ensures var d := RouteOf(e, c, p, r);
            && HasIdentity(d, e, c, p, r) && d.bucket != Shadow && d.selected == p.incumbent &&
               d.estimatedCost == d.incumbentCost
            && (d.shadowModels == [] || d.shadowModels == ShadowCandidates(p, d.predictions))
  {
    hide PredictionsOf, EligibleIn, Unique, Sorted, Draw, QualifiedIn, ShadowCandidates, Decide;
    var predictions := PredictionsOf(e, p, r);
    var blueprint := Blueprint(c, p, r, EligibleIn(Unique(Considered(p)), predictions), predictions);
    DecidedIncumbent(c, p, r, blueprint, ShadowCandidates(p, predictions), QualifiedIn(p, p.candidates, predictions));
  }
}
