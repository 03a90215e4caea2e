/** An independent definition of a routing decision: which models are eligible and what is predicted for
    them, how a trace is randomised, and which bucket a decision falls into, said about requests, policies
    and hashes themselves. */
module RoutingReference {
  import opened Domain
  import opened FiniteSums
  import opened Policies
  import opened Routing
  import opened RoutingLaws
  import opened Selection
  import opened Sequences
  import Buckets
  import Fitting

  // ---------- randomisation ----------

  function TraceFor(c: Context, r: Request): string
  {
    if r.metadata.trace != "" then r.metadata.trace else c.freshTrace
  }

  /** A hash as a percentage: one of a million residues, ten thousand to the percent. */
  function Share(c: Context, key: string): real { (c.hash(key) % 1_000_000) as real / 10_000.0 }

  function RolloutShare(c: Context, p: Policy, r: Request): real { Share(c, TraceFor(c, r) + "|" + p.version) }

  function ExploreKey(c: Context, p: Policy, r: Request): string { TraceFor(c, r) + "|explore|" + p.version }

  predicate Live(p: Policy) { !p.drifted && p.mode != ObserveMode && p.mode != ShadowMode }

  predicate InControl(c: Context, p: Policy, r: Request) { Live(p) && RolloutShare(c, p, r) < p.controlPercent }

  /** The trace is optimised: past the control group and, in canary mode, inside the canary. */
  predicate InRollout(c: Context, p: Policy, r: Request)
  {
    && Live(p) && RolloutShare(c, p, r) >= p.controlPercent
    && (p.mode == CanaryMode ==> RolloutShare(c, p, r) < p.controlPercent + p.canaryPercent)
  }

  predicate InExploration(c: Context, p: Policy, r: Request)
  {
    r.metadata.risk == LowRisk && Share(c, ExploreKey(c, p, r)) < p.explorationPercent
  }

  // ---------- predictions ----------

  /** Everything a model must satisfy for a request, in any order. */
  ghost predicate Feasible(e: Engine, p: Policy, m: Model, r: Request)
  {
    var f, k := r.features, p.constraints;
    var cost := (f.inputTokens as real * m.inputPrice + f.expectedOutputTokens as real * m.outputPrice) / 1_000_000.0;
    var privacy := if r.metadata.requiredPrivacy != Unset then r.metadata.requiredPrivacy else k.privacy;
    var deadline := if r.metadata.deadline != 0 then r.metadata.deadline else k.maxLatency;
    var limit := if r.metadata.maxCost != 0.0 then r.metadata.maxCost else k.maxCost;
    && m.enabled && m.id !in e.open
    && (m.contextWindow <= 0 || f.inputTokens + f.expectedOutputTokens <= m.contextWindow)
    && (f.toolCount <= 0 || m.supportsTools) && (!f.hasStructuredOutput || m.supportsStructured)
    && (!f.hasVision || m.supportsVision)
    && (r.metadata.requiredRegion == "" || SameText(e.fold, m.region, r.metadata.requiredRegion))
    && (k.allowedRegions == [] || exists a :: a in k.allowedRegions && SameText(e.fold, a, m.region))
    && (privacy == Unset || privacy == Standard || m.privacy == Local || (privacy == ZDR && m.privacy == ZDR))
    && (deadline <= 0 || m.p95Latency <= deadline)
    && (limit <= 0.0 || cost <= limit)
  }

  ghost predicate SameText(fold: char -> char, a: string, b: string)
  {
    |a| == |b| && forall i :: 0 <= i < |a| ==> fold(a[i]) == fold(b[i])
  }

  /** A model is eligible iff it is feasible. */
  lemma EligibleIffFeasible(e: Engine, p: Policy, m: Model, r: Request)
    ensures PredictionOf(e, p, m, r).eligible <==> Feasible(e, p, m, r)
  {
    hide Vector, ScoreFor, Total;
    AllowedRegions(e.fold, p.constraints.allowedRegions, m.region);
  }

  /** The constraint a reason names is one the model breaks. */
  ghost predicate Violates(e: Engine, p: Policy, m: Model, r: Request, reason: string)
  {
    var f, k := r.features, p.constraints;
    var cost := (f.inputTokens as real * m.inputPrice + f.expectedOutputTokens as real * m.outputPrice) / 1_000_000.0;
    var privacy := if r.metadata.requiredPrivacy != Unset then r.metadata.requiredPrivacy else k.privacy;
    var deadline := if r.metadata.deadline != 0 then r.metadata.deadline else k.maxLatency;
    var limit := if r.metadata.maxCost != 0.0 then r.metadata.maxCost else k.maxCost;
    || (reason == "model_disabled" && !m.enabled)
    || (reason == "provider_circuit_open" && m.id in e.open)
    || (reason == "context_window" && 0 < m.contextWindow < f.inputTokens + f.expectedOutputTokens)
    || (reason == "tools_unsupported" && f.toolCount > 0 && !m.supportsTools)
    || (reason == "structured_output_unsupported" && f.hasStructuredOutput && !m.supportsStructured)
    || (reason == "vision_unsupported" && f.hasVision && !m.supportsVision)
    || (reason == "region" && !SameText(e.fold, m.region, r.metadata.requiredRegion))
    || (reason == "policy_region" && forall a :: a in k.allowedRegions ==> !SameText(e.fold, a, m.region))
    || (reason == "privacy" && m.privacy != Local && (privacy == ZDR ==> m.privacy != ZDR))
    || (reason == "latency" && 0 < deadline < m.p95Latency)
    || (reason == "cost" && 0.0 < limit < cost)
  }

  lemma ReasonIsViolated(e: Engine, p: Policy, m: Model, r: Request)
    ensures var x := PredictionOf(e, p, m, r);
            (x.eligible <==> x.reason == "") && (!x.eligible ==> Violates(e, p, m, r, x.reason))
  {
    hide Vector, ScoreFor, Total;
    AllowedRegions(e.fold, p.constraints.allowedRegions, m.region);
  }

  lemma AllowedRegions(fold: char -> char, allowed: seq<string>, region: string)
    ensures RegionAllowed(fold, allowed, region) <==>
            allowed == [] || exists a :: a in allowed && SameText(fold, a, region)
  {
    if a :| a in allowed && SameText(fold, a, region) {
      var i :| 0 <= i < |allowed| && allowed[i] == a;
      assert EqualFold(fold, allowed[i], region);
    }
    if i :| 0 <= i < |allowed| && EqualFold(fold, allowed[i], region) { assert allowed[i] in allowed; }
  }

  /** The score a prediction starts from: that of the workflow, else the overall one, else the prior. */
  ghost predicate StartsFrom(p: Policy, m: Model, r: Request, score: ModelScore)
  {
    var s, w := p.snapshot, r.metadata.workflow;
    if w in s.byWorkflow && m.id in s.byWorkflow[w] then score == s.byWorkflow[w][m.id]
    else if m.id in s.overall then score == s.overall[m.id]
    else score.successRate == m.qualityPrior && score.bias == 0.0 && score.samples == 0 && score.uncertainty == 0.25 &&
         score.weights == map[]
  }

  /** What one feature contributes: nothing if the score has no weight for it. */
  function Weighted(weights: map<string, real>, name: string, value: real): real
  {
    if name in weights then weights[name] * value else 0.0
  }

  function Bit(b: bool): real { if b then 1.0 else 0.0 }

  function WeightedFeatures(w: map<string, real>, f: Features): real
  {
    Weighted(w, "input_tokens_k", f.inputTokens as real / 1000.0)
    + Weighted(w, "expected_output_tokens_k", f.expectedOutputTokens as real / 1000.0)
    + Weighted(w, "message_count", f.messageCount as real) + Weighted(w, "tool_count", f.toolCount as real)
    + Weighted(w, "has_vision", Bit(f.hasVision)) + Weighted(w, "has_structured_output", Bit(f.hasStructuredOutput))
    + Weighted(w, "risk", f.risk)
  }

  function Into(x: real, low: real, high: real): real { if x < low then low else if x > high then high else x }

  /** Every number of a prediction, from the score it starts from. */
  lemma PredictionMeans(e: Engine, p: Policy, m: Model, r: Request) returns (score: ModelScore)
    ensures StartsFrom(p, m, r, score)
    ensures var x := PredictionOf(e, p, m, r);
            && x.modelId == m.id && x.samples == score.samples && x.p95Latency == m.p95Latency
            && x.success == Into(score.successRate + score.bias + WeightedFeatures(score.weights, r.features), 0.0, 1.0)
            && x.uncertainty == Into(score.uncertainty, 0.005, 0.5)
            && x.lowerBound == Into(x.success - p.confidenceZ * x.uncertainty, 0.0, 1.0)
            && x.estimatedCost * 1_000_000.0 ==
                 r.features.inputTokens as real * m.inputPrice + r.features.expectedOutputTokens as real * m.outputPrice
  {
    score := ScoreFor(p, m, r);
    SumOfTerms(score.weights, r.features);
    assert StartsFrom(p, m, r, score);
    hide InfeasibleReason, Vector, ScoreFor, Total, WeightedFeatures, StartsFrom;
  }

  lemma SumOfTerms(weights: map<string, real>, f: Features)
    ensures Total(Vector(f).Keys, Term(weights, Vector(f))) == WeightedFeatures(weights, f)
  {
    var names, term := Fitting.NAMES, Term(weights, Vector(f));
    Fitting.NamesAreDistinct();
    Fitting.VectorNames(f);
    TotalOfList(names, term);
    EachTerm(weights, f);
    hide Total, Weighted, Term, SumList, Vector;
    SevenTerms(names, term);
  }

  lemma EachTerm(weights: map<string, real>, f: Features)
    ensures |Fitting.NAMES| == 7
    ensures var t, names := Term(weights, Vector(f)), Fitting.NAMES;
            && t(names[0]) == Weighted(weights, "input_tokens_k", f.inputTokens as real / 1000.0)
            && t(names[1]) == Weighted(weights, "expected_output_tokens_k", f.expectedOutputTokens as real / 1000.0)
            && t(names[2]) == Weighted(weights, "message_count", f.messageCount as real)
            && t(names[3]) == Weighted(weights, "tool_count", f.toolCount as real)
            && t(names[4]) == Weighted(weights, "has_vision", Bit(f.hasVision))
            && t(names[5]) == Weighted(weights, "has_structured_output", Bit(f.hasStructuredOutput))
            && t(names[6]) == Weighted(weights, "risk", f.risk)
  {
    Fitting.NamesAreDistinct();
  }

  lemma SevenTerms(names: seq<string>, term: string -> real)
    requires |names| == 7
    ensures SumList(names, term) ==
            term(names[0]) + term(names[1]) + term(names[2]) + term(names[3]) + term(names[4]) + term(names[5]) +
            term(names[6])
  {
    hide SumList;
    NoTerms(names, term);
    for k := 0 to 7
      invariant SumList(names[..k], term) ==
                (if k > 0 then term(names[0]) else 0.0) + (if k > 1 then term(names[1]) else 0.0) +
                (if k > 2 then term(names[2]) else 0.0) + (if k > 3 then term(names[3]) else 0.0) +
                (if k > 4 then term(names[4]) else 0.0) + (if k > 5 then term(names[5]) else 0.0) +
                (if k > 6 then term(names[6]) else 0.0)
    {
      OneMoreTerm(names, term, k);
    }
    assert names[..7] == names;
  }

  lemma NoTerms(names: seq<string>, term: string -> real)
    ensures SumList(names[..0], term) == 0.0
  {}

  lemma OneMoreTerm(names: seq<string>, term: string -> real, k: nat)
    requires k < |names|
    ensures SumList(names[..k + 1], term) == SumList(names[..k], term) + term(names[k])
  {
    assert names[..k + 1][..k] == names[..k];
  }

  // ---------- the bucket ----------

  /** Some candidate may replace the incumbent. */
  ghost predicate SomeQualifies(p: Policy, predictions: map<string, Prediction>)
  {
    exists id :: id in p.candidates && MayReplace(p, predictions, id)
  }

  ghost predicate MayReplace(p: Policy, predictions: map<string, Prediction>, id: string)
  {
    && id in predictions && predictions[id].eligible && predictions[id].samples >= p.minimumSamples
    && predictions[id].lowerBound + 0.000_000_000_001 >= IncumbentSuccess(p, predictions) - p.qualityTolerance
  }

  function IncumbentSuccess(p: Policy, predictions: map<string, Prediction>): real
  {
    if p.incumbent in predictions then predictions[p.incumbent].success else 0.0
  }

  /** Exactly when a decision is an exploration, a treatment, a control or none of them. */
  lemma BucketIff(e: Engine, c: Context, p: Policy, r: Request)
    ensures var bucket := RouteOf(e, c, p, r).bucket; var some := SomeQualifies(p, PredictionsOf(e, p, r));
            && (bucket == Exploration <==> InRollout(c, p, r) && some && InExploration(c, p, r))
            && (bucket == Treatment <==> InRollout(c, p, r) && some && !InExploration(c, p, r))
            && (bucket == Control <==> InControl(c, p, r))
            && (bucket == Incumbent <==> !InControl(c, p, r) && !(InRollout(c, p, r) && some))
  {
    hide PredictionsOf, EligibleIn, Unique, ShadowCandidates, QualifiedIn, Decide, Considered, SomeQualifies;
    var predictions := PredictionsOf(e, p, r);
    var blueprint := Blueprint(c, p, r, EligibleIn(Unique(Considered(p)), predictions), predictions);
    NoneQualifies(p, predictions);
    DecisionIff(c, p, r, blueprint, ShadowCandidates(p, predictions), QualifiedIn(p, p.candidates, predictions));
  }

  lemma NoneQualifies(p: Policy, predictions: map<string, Prediction>)
    ensures QualifiedIn(p, p.candidates, predictions) != [] <==> SomeQualifies(p, predictions)
  {
    QualifiedMembers(p, p.candidates, predictions);
    var qualified := QualifiedIn(p, p.candidates, predictions);
    hide QualifiedIn;
    if qualified != [] {
      assert qualified[0] in qualified;
      var id :| id in p.candidates && Qualifies(p, predictions, id) && qualified[0] == At(predictions, id);
      assert MayReplace(p, predictions, id);
    }
    if SomeQualifies(p, predictions) {
      var id :| id in p.candidates && MayReplace(p, predictions, id);
      assert Qualifies(p, predictions, id);
      assert At(predictions, id) in qualified;
    }
  }

  lemma DecisionIff(c: Context, p: Policy, r: Request, blueprint: Decision, shadows: seq<string>,
                    candidates: seq<Prediction>)
    requires blueprint.bucket == Incumbent && blueprint.trace == TraceFor(c, r)
    ensures var bucket := Decide(c, p, r, blueprint, shadows, candidates).bucket;
            && (bucket == Exploration <==> InRollout(c, p, r) && candidates != [] && InExploration(c, p, r))
            && (bucket == Treatment <==> InRollout(c, p, r) && candidates != [] && !InExploration(c, p, r))
            && (bucket == Control <==> InControl(c, p, r))
            && (bucket == Incumbent <==> !InControl(c, p, r) && !(InRollout(c, p, r) && candidates != []))
  {
    hide Sorted, Arm, Draw, Share;
    SharesAreDraws(c, TraceFor(c, r) + "|" + p.version);
    SharesAreDraws(c, ExploreKey(c, p, r));
    SortedPermutes(candidates);
  }

  lemma SharesAreDraws(c: Context, key: string)
    ensures Draw(c, key) == Share(c, key) >= 0.0
  {}

  /** Why a request was not optimised, or that its fallback reason is not yet known. */
  lemma ReasonIff(e: Engine, c: Context, p: Policy, r: Request)
    ensures var d := RouteOf(e, c, p, r); var some := SomeQualifies(p, PredictionsOf(e, p, r));
            d.fallbackReason ==
              if p.drifted then "policy_drifted"
              else if p.mode == ObserveMode then "observe_only"
              else if p.mode == ShadowMode then "shadow_only"
              else if InControl(c, p, r) then "randomized_control"
              else if !InRollout(c, p, r) then "outside_canary"
              else if !some then "no_candidate_meets_quality_floor"
              else if d.selected == p.incumbent then "incumbent_is_optimal"
              else ""
  {
    hide PredictionsOf, EligibleIn, Unique, ShadowCandidates, QualifiedIn, Considered, SomeQualifies, Sorted, Arm;
    hide Draw, Share;
    var predictions := PredictionsOf(e, p, r);
    NoneQualifies(p, predictions);
    SharesAreDraws(c, TraceFor(c, r) + "|" + p.version);
    SortedPermutes(QualifiedIn(p, p.candidates, predictions));
  }

  /** The arm a trace is hashed to, among n. */
  function HashedArm(c: Context, r: Request, n: nat): nat
  {
    c.hash(TraceFor(c, r) + "|arm") % 1_000_000 * n / 1_000_000
  }

  ghost predicate Serves(d: Decision, sorted: seq<Prediction>, k: nat)
  {
    k < |sorted| && d.selected == sorted[k].modelId && d.estimatedCost == sorted[k].estimatedCost
  }

  /** What a decision serves: the incumbent, or the head of the sorted candidates, or for an exploration
      the arm its trace is hashed to; always at that model's own estimate. */
  lemma ServesWhat(e: Engine, c: Context, p: Policy, r: Request, sorted: seq<Prediction>)
    requires sorted == Sorted(QualifiedIn(p, p.candidates, PredictionsOf(e, p, r)))
    ensures var d := RouteOf(e, c, p, r);
            && (d.bucket == Exploration ==> Serves(d, sorted, HashedArm(c, r, |sorted|)))
            && (d.bucket == Treatment ==> Serves(d, sorted, 0))
            && (d.bucket == Control || d.bucket == Incumbent ==>
                  d.selected == p.incumbent && d.estimatedCost == d.incumbentCost)
  {
    hide PredictionsOf, EligibleIn, Unique, ShadowCandidates, QualifiedIn, Decide, Considered, Sorted;
    hide Serves, HashedArm;
    var predictions := PredictionsOf(e, p, r);
    var qualified := QualifiedIn(p, p.candidates, predictions);
    var blueprint := Blueprint(c, p, r, EligibleIn(Unique(Considered(p)), predictions), predictions);
    DecisionServes(c, p, r, blueprint, ShadowCandidates(p, predictions), qualified);
  }

  lemma DecisionServes(c: Context, p: Policy, r: Request, blueprint: Decision, shadows: seq<string>,
                       candidates: seq<Prediction>)
    requires blueprint.bucket == Incumbent && blueprint.trace == TraceFor(c, r)
    requires blueprint.selected == p.incumbent && blueprint.estimatedCost == blueprint.incumbentCost
    ensures var d := Decide(c, p, r, blueprint, shadows, candidates); var sorted := Sorted(candidates);
            && (d.bucket == Exploration ==> Serves(d, sorted, HashedArm(c, r, |sorted|)))
            && (d.bucket == Treatment ==> Serves(d, sorted, 0))
            && (d.bucket == Control || d.bucket == Incumbent ==>
                  d.selected == p.incumbent && d.estimatedCost == d.incumbentCost)
  {
    hide Sorted, Draw, Arm;
    SortedPermutes(candidates);
    if candidates != [] { ArmIsHashed(c, r, |Sorted(candidates)|); }
  }

  lemma ArmIsHashed(c: Context, r: Request, n: nat)
    requires n > 0
    ensures Arm(c, TraceFor(c, r), n) == HashedArm(c, r, n) < n
  {
    hide Buckets.ArmIndex, Buckets.Percent;
    Buckets.ArmIndexIsDivision(c.hash(TraceFor(c, r) + "|arm"), n);
    Buckets.ArmIndexInRange(c.hash(TraceFor(c, r) + "|arm"), n);
  }

  // ---------- how often ----------

  /** The same context with one hash set to a residue. */
  function Redrawn(c: Context, key: string, x: nat): Context { c.(hash := HashWith(c.hash, key, x)) }

  function HashWith(hash: string -> nat, key: string, x: nat): string -> nat
  {
    (k: string) => if k == key then x else hash(k)
  }

  ghost function ExploringResidues(e: Engine, c: Context, p: Policy, r: Request): set<int>
  {
    set x | 0 <= x < 1_000_000 && RouteOf(e, Redrawn(c, ExploreKey(c, p, r), x), p, r).bucket == Exploration
  }

  /** Under a valid policy at most 30000 of the million draws of a request explore. */
  lemma RoutedExplorationIsRare(e: Engine, c: Context, p: Policy, r: Request)
    requires ValidPolicy(p, e.catalog)
    ensures |ExploringResidues(e, c, p, r)| <= 30_000
  {
    hide RouteOf, Buckets.Percent;
    Buckets.ExplorationIsRare(p.explorationPercent);
    forall x | x in ExploringResidues(e, c, p, r)
      ensures x in Buckets.Below(p.explorationPercent)
    {
      BucketIff(e, Redrawn(c, ExploreKey(c, p, r), x), p, r);
      RedrawnShare(c, p, r, x);
    }
    SubsetIsSmaller(ExploringResidues(e, c, p, r), Buckets.Below(p.explorationPercent));
  }

  lemma RedrawnShare(c: Context, p: Policy, r: Request, x: int)
    requires 0 <= x < 1_000_000
    ensures var c' := Redrawn(c, ExploreKey(c, p, r), x);
            ExploreKey(c', p, r) == ExploreKey(c, p, r) && Share(c', ExploreKey(c', p, r)) == Buckets.Percent(x)
  {}

  lemma SubsetIsSmaller(a: set<int>, b: set<int>)
    requires a <= b
    ensures |a| <= |b|
  {
    assert b == a + (b - a);
  }

  ghost function ControlResidues(e: Engine, c: Context, p: Policy, r: Request): set<int>
  {
    set x | 0 <= x < 1_000_000 &&
            RouteOf(e, Redrawn(c, TraceFor(c, r) + "|" + p.version, x), p, r).bucket == Control
  }

  /** Under a live valid policy the control group has exactly the size the policy asks for. */
  lemma RoutedControlIsExact(e: Engine, c: Context, p: Policy, r: Request)
    requires ValidPolicy(p, e.catalog) && Live(p)
    ensures |ControlResidues(e, c, p, r)| == Buckets.Ceiling(10_000.0 * p.controlPercent)
  {
    hide RouteOf, Buckets.Percent;
    Buckets.BelowSize(p.controlPercent);
    forall x | 0 <= x < 1_000_000
      ensures x in ControlResidues(e, c, p, r) <==> x in Buckets.Below(p.controlPercent)
    {
      BucketIff(e, Redrawn(c, TraceFor(c, r) + "|" + p.version, x), p, r);
      RedrawnRollout(c, p, r, x);
    }
    assert ControlResidues(e, c, p, r) == Buckets.Below(p.controlPercent);
  }

  lemma RedrawnRollout(c: Context, p: Policy, r: Request, x: int)
    requires 0 <= x < 1_000_000
    ensures RolloutShare(Redrawn(c, TraceFor(c, r) + "|" + p.version, x), p, r) == Buckets.Percent(x)
  {}

  // ---------- the rest of the record ----------

  /** The fields a decision copies, and the models it lists: feasible ones among incumbent, candidates and
      fallbacks, and as shadows the feasible candidates, unless the policy is drifted, only observes or pays
      for none. */
  lemma RecordMeans(e: Engine, c: Context, p: Policy, r: Request)
    ensures var d := RouteOf(e, c, p, r); var predictions := PredictionsOf(e, p, r);
            && d.workflow == r.metadata.workflow && d.step == r.metadata.step && d.features == r.features
            && d.policyVersion == p.version && d.snapshotVersion == p.snapshot.version
            && d.catalogVersion == p.snapshot.catalogVersion && d.predictions == predictions
            && d.inputTokens == 0 && d.outputTokens == 0 && d.error == "" && d.upstreamStatus == 0
            && NoDuplicates(d.feasible)
            && (forall id :: id in d.feasible <==> id in predictions && predictions[id].eligible)
            && (forall id :: id in d.shadowModels <==>
                  && !p.drifted && p.mode != ObserveMode && p.shadowBudget > 0.0
                  && id in p.candidates && id in predictions && predictions[id].eligible)
  {
    hide PredictionsOf, QualifiedIn, Decide;
    var predictions := PredictionsOf(e, p, r);
    FeasibleModels(e, p, r);
    EligibleMembers(p.candidates, predictions);
    var blueprint := Blueprint(c, p, r, EligibleIn(Unique(Considered(p)), predictions), predictions);
    DecisionCopies(c, p, r, blueprint, ShadowCandidates(p, predictions), QualifiedIn(p, p.candidates, predictions));
  }

  lemma DecisionCopies(c: Context, p: Policy, r: Request, blueprint: Decision, shadows: seq<string>,
                       candidates: seq<Prediction>)
    ensures var d := Decide(c, p, r, blueprint, shadows, candidates);
            && d == blueprint.(shadowModels := d.shadowModels, selected := d.selected, bucket := d.bucket,
                               estimatedCost := d.estimatedCost, fallbackReason := d.fallbackReason)
            && d.shadowModels == if p.drifted || p.mode == ObserveMode then blueprint.shadowModels else shadows
  {
    hide Sorted, Draw, Arm;
    SortedPermutes(candidates);
  }

  lemma FeasibleModels(e: Engine, p: Policy, r: Request)
    ensures var predictions := PredictionsOf(e, p, r); var feasible := EligibleIn(Unique(Considered(p)), predictions);
            NoDuplicates(feasible) && forall id :: id in feasible <==> id in predictions && predictions[id].eligible
  {
    hide PredictionOf, EligibleIn, Unique;
    UniqueMembers(Considered(p));
    EligibleMembers(Unique(Considered(p)), PredictionsOf(e, p, r));
    EligibleOnce(Unique(Considered(p)), PredictionsOf(e, p, r));
  }

  lemma {:induction false} EligibleOnce(ids: seq<string>, predictions: map<string, Prediction>)
    requires NoDuplicates(ids)
    ensures NoDuplicates(EligibleIn(ids, predictions))
  {
    if ids != [] {
      var n := |ids| - 1;
      EligibleOnce(ids[..n], predictions);
      EligibleMembers(ids[..n], predictions);
      assert ids[n] !in ids[..n];
    }
  }
}
