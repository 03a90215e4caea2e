/** The decision engine of internal/routing/engine.go. Provider health may change while a request is
    routed: it is the set of models whose provider's circuit was open when they were assessed. Fresh
    identifiers, the clock, the hash and Unicode case folding are parameters. */
module Routing {
  import opened Domain
  import opened Sequences
  import opened FiniteSums
  import opened Selection
  import Buckets

  /** `fold` maps the characters that differ only in case to one of them. */
  datatype Engine = Engine(catalog: Catalog, open: set<string>, fold: char -> char)

  // ---------- hard constraints ----------

  /** strings.EqualFold: equal character by character, up to case. */
  predicate EqualFold(fold: char -> char, a: string, b: string)
  {
    |a| == |b| && forall i :: 0 <= i < |a| ==> fold(a[i]) == fold(b[i])
  }

  predicate PrivacySatisfies(actual: Privacy, required: Privacy)
  {
    if required == Unset || required == Standard then true
    else if required == ZDR then actual == ZDR || actual == Local
    else actual == Local
  }

  function EstimateCost(m: Model, f: Features): real
  {
    (f.inputTokens as real * m.inputPrice + f.expectedOutputTokens as real * m.outputPrice) / 1_000_000.0
  }

  predicate RegionAllowed(fold: char -> char, allowed: seq<string>, region: string)
  {
    allowed == [] || exists i :: 0 <= i < |allowed| && EqualFold(fold, allowed[i], region)
  }

  function EffectivePrivacy(c: Constraints, m: Metadata): Privacy
  {
    if m.requiredPrivacy == Unset then c.privacy else m.requiredPrivacy
  }

  function EffectiveDeadline(c: Constraints, m: Metadata): int { if m.deadline == 0 then c.maxLatency else m.deadline }

  function EffectiveMaxCost(c: Constraints, m: Metadata): real { if m.maxCost == 0.0 then c.maxCost else m.maxCost }

  predicate WithinDeadline(latency: int, deadline: int) { deadline <= 0 || latency <= deadline }

  predicate WithinCost(cost: real, maxCost: real) { maxCost <= 0.0 || cost <= maxCost }

  /** The first constraint a model breaks, or the empty string. */
  function InfeasibleReason(e: Engine, p: Policy, model: Model, r: Request, cost: real): string
  {
    var m, f := r.metadata, r.features;
    if !model.enabled then "model_disabled"
    else if model.id in e.open then "provider_circuit_open"
    else if model.contextWindow > 0 && f.inputTokens + f.expectedOutputTokens > model.contextWindow
         then "context_window"
    else if f.toolCount > 0 && !model.supportsTools then "tools_unsupported"
    else if f.hasStructuredOutput && !model.supportsStructured then "structured_output_unsupported"
    else if f.hasVision && !model.supportsVision then "vision_unsupported"
    else if m.requiredRegion != "" && !EqualFold(e.fold, model.region, m.requiredRegion) then "region"
    else if !RegionAllowed(e.fold, p.constraints.allowedRegions, model.region) then "policy_region"
    else if !PrivacySatisfies(model.privacy, EffectivePrivacy(p.constraints, m)) then "privacy"
    else if !WithinDeadline(model.p95Latency, EffectiveDeadline(p.constraints, m)) then "latency"
    else if !WithinCost(cost, EffectiveMaxCost(p.constraints, m)) then "cost"
    else ""
  }

  // ---------- prediction ----------

  function WorkflowScore(s: Snapshot, workflow: string, id: string): Option<ModelScore>
  {
    if workflow in s.byWorkflow && id in s.byWorkflow[workflow] then Some(s.byWorkflow[workflow][id])
    else if id in s.overall then Some(s.overall[id])
    else None
  }

  function Flag(b: bool): real { if b then 1.0 else 0.0 }

  function Vector(f: Features): map<string, real>
  {
    map["input_tokens_k" := f.inputTokens as real / 1000.0,
        "expected_output_tokens_k" := f.expectedOutputTokens as real / 1000.0,
        "message_count" := f.messageCount as real, "tool_count" := f.toolCount as real,
        "has_vision" := Flag(f.hasVision), "has_structured_output" := Flag(f.hasStructuredOutput), "risk" := f.risk]
  }

  function Term(weights: map<string, real>, vector: map<string, real>): string -> real
  {
    name => if name in weights && name in vector then weights[name] * vector[name] else 0.0
  }

  function ScoreFor(p: Policy, model: Model, r: Request): ModelScore
  {
    match WorkflowScore(p.snapshot, r.metadata.workflow, model.id)
    case Some(score) => score
    case None => ModelScore(model.qualityPrior, 0.25, 0, map[], 0.0)
  }

  ghost function PredictionOf(e: Engine, p: Policy, model: Model, r: Request): Prediction
  {
    var cost := EstimateCost(model, r.features);
    var reason := InfeasibleReason(e, p, model, r, cost);
    var score := ScoreFor(p, model, r);
    var vector := Vector(r.features);
    var success := Clamp(score.successRate + score.bias + Total(vector.Keys, Term(score.weights, vector)), 0.0, 1.0);
    var uncertainty := Clamp(score.uncertainty, 0.005, 0.5);
    Prediction(model.id, success, Clamp(success - p.confidenceZ * uncertainty, 0.0, 1.0), uncertainty,
               score.samples, cost, model.p95Latency, reason == "", reason)
  }

  method LinearScore(score: ModelScore, vector: map<string, real>) returns (success: real)
    ensures success == score.successRate + score.bias + Total(vector.Keys, Term(score.weights, vector))
  {
    hide Total;
    TotalOfNothing(Term(score.weights, vector));
    success := score.successRate + score.bias;
    var remaining := vector.Keys;
    ghost var done: set<string> := {};
    while remaining != {}
      invariant done !! remaining && done + remaining == vector.Keys
      invariant success == score.successRate + score.bias + Total(done, Term(score.weights, vector))
      decreases remaining
    {
      var name :| name in remaining;
      TotalInsert(done, Term(score.weights, vector), name);
      success := success + (if name in score.weights then score.weights[name] else 0.0) * vector[name];
      remaining, done := remaining - {name}, done + {name};
    }
    assert done == vector.Keys;
  }

  method Predict(e: Engine, p: Policy, model: Model, r: Request) returns (prediction: Prediction)
    ensures prediction == PredictionOf(e, p, model, r)
  {
    hide Vector, InfeasibleReason, ScoreFor;
    var cost := EstimateCost(model, r.features);
    var reason := InfeasibleReason(e, p, model, r, cost);
    var score := ScoreFor(p, model, r);
    var linear := LinearScore(score, Vector(r.features));
    var success := Clamp(linear, 0.0, 1.0);
    var uncertainty := Clamp(score.uncertainty, 0.005, 0.5);
    prediction := Prediction(model.id, success, Clamp(success - p.confidenceZ * uncertainty, 0.0, 1.0), uncertainty,
                             score.samples, cost, model.p95Latency, reason == "", reason);
  }

  // ---------- routing ----------

  function Considered(p: Policy): seq<string> { [p.incumbent] + p.candidates + p.fallbacks }

  /** The values without the empty string, first occurrences only. */
  function Unique(values: seq<string>): seq<string>
  {
    if values == [] then [] else
      var n := |values| - 1;
      var before := Unique(values[..n]);
      if values[n] == "" || values[n] in before then before else before + [values[n]]
  }

  ghost function PredictionsOf(e: Engine, p: Policy, r: Request): map<string, Prediction>
  {
    map id | id in e.catalog && id != "" && id in Considered(p) :: PredictionOf(e, p, e.catalog[id], r)
  }

  const NoPrediction := Prediction("", 0.0, 0.0, 0.0, 0, 0.0, 0, false, "")

  function At(predictions: map<string, Prediction>, id: string): Prediction
  {
    if id in predictions then predictions[id] else NoPrediction
  }

  function EligibleIn(ids: seq<string>, predictions: map<string, Prediction>): seq<string>
  {
    if ids == [] then [] else
      var n := |ids| - 1;
      EligibleIn(ids[..n], predictions) + if At(predictions, ids[n]).eligible then [ids[n]] else []
  }

  function QualityFloor(p: Policy, predictions: map<string, Prediction>): real
  {
    At(predictions, p.incumbent).success - p.qualityTolerance
  }

  predicate Qualifies(p: Policy, predictions: map<string, Prediction>, id: string)
  {
    var prediction := At(predictions, id);
    prediction.eligible && prediction.samples >= p.minimumSamples &&
    prediction.lowerBound + EPSILON >= QualityFloor(p, predictions)
  }

  function QualifiedIn(p: Policy, ids: seq<string>, predictions: map<string, Prediction>): seq<Prediction>
  {
    if ids == [] then [] else
      var n := |ids| - 1;
      QualifiedIn(p, ids[..n], predictions) + if Qualifies(p, predictions, ids[n]) then [predictions[ids[n]]] else []
  }

  /** Everything a routing call takes from outside the policy: identity, clock, trace and hash. */
  datatype Context = Context(tenant: string, id: string, freshTrace: string, now: int, hash: string -> nat)

  function TraceOf(c: Context, r: Request): string { if r.metadata.trace == "" then c.freshTrace else r.metadata.trace }

  function Draw(c: Context, key: string): real { Buckets.Percent(c.hash(key)) }

  function Blueprint(c: Context, p: Policy, r: Request, feasible: seq<string>, predictions: map<string, Prediction>)
    : Decision
  {
    var cost := At(predictions, p.incumbent).estimatedCost;
    Decision(c.id, "", c.tenant, TraceOf(c, r), r.metadata.workflow, r.metadata.step, r.metadata.risk, p.id, p.version,
             p.snapshot.version, p.snapshot.catalogVersion, p.incumbent, p.incumbent, "", Incumbent, "", feasible, [],
             predictions, r.features, cost, cost, 0.0, 0, 0, [], 0, "", c.now, None)
  }

  function ShadowCandidates(p: Policy, predictions: map<string, Prediction>): seq<string>
  {
    if p.shadowBudget <= 0.0 then [] else EligibleIn(p.candidates, predictions)
  }

  /** The candidate served and the bucket it is reported under. */
  function Choose(c: Context, p: Policy, r: Request, sorted: seq<Prediction>): (Prediction, Bucket)
    requires sorted != []
  {
    var trace := TraceOf(c, r);
    if r.metadata.risk == LowRisk && p.explorationPercent > 0.0 &&
      Draw(c, trace + "|explore|" + p.version) < p.explorationPercent
    then (sorted[Arm(c, trace, |sorted|)], Exploration)
    else (sorted[0], Treatment)
  }

  function Arm(c: Context, trace: string, n: nat): (k: nat)
    requires n > 0
    ensures k < n
  {
    Buckets.ArmIndexInRange(c.hash(trace + "|arm"), n);
    Buckets.ArmIndex(c.hash(trace + "|arm"), n) % n
  }

  function Served(d: Decision, chosen: Prediction, bucket: Bucket): Decision
  {
    d.(selected := chosen.modelId, estimatedCost := chosen.estimatedCost, bucket := bucket,
       fallbackReason := if chosen.modelId == d.incumbent then "incumbent_is_optimal" else d.fallbackReason)
  }

  /** The decision, from the blueprint for the incumbent and the lists the loops collect. */
  function Decide(c: Context, p: Policy, r: Request, blueprint: Decision, shadows: seq<string>,
                  candidates: seq<Prediction>): Decision
  {
    if p.drifted then blueprint.(fallbackReason := "policy_drifted")
    else if p.mode == ObserveMode then blueprint.(fallbackReason := "observe_only")
    else
      var d := blueprint.(shadowModels := shadows);
      var bucket := Draw(c, d.trace + "|" + p.version);
      if p.mode == ShadowMode then d.(fallbackReason := "shadow_only")
      else if bucket < p.controlPercent then d.(bucket := Control, fallbackReason := "randomized_control")
      else if p.mode == CanaryMode && bucket >= p.controlPercent + p.canaryPercent
           then d.(fallbackReason := "outside_canary")
      else if candidates == [] then d.(fallbackReason := "no_candidate_meets_quality_floor")
      else
        SortedPermutes(candidates);
        var (chosen, bucket) := Choose(c, p, r, Sorted(candidates));
        Served(d, chosen, bucket)
  }

  ghost function RouteOf(e: Engine, c: Context, p: Policy, r: Request): Decision
  {
    var predictions := PredictionsOf(e, p, r);
    Decide(c, p, r, Blueprint(c, p, r, EligibleIn(Unique(Considered(p)), predictions), predictions),
           ShadowCandidates(p, predictions), QualifiedIn(p, p.candidates, predictions))
  }

  method UniqueValues(values: seq<string>) returns (result: seq<string>)
    ensures result == Unique(values)
  {
    var seen: set<string> := {};
    result := [];
    for i := 0 to |values|
      invariant result == Unique(values[..i]) && forall v :: v in seen <==> v in result
    {
      assert values[..i + 1][..i] == values[..i];
      if values[i] != "" && values[i] !in seen {
        seen := seen + {values[i]};
        result := result + [values[i]];
      }
    }
    assert values[..|values|] == values;
  }

  lemma {:induction false} UniqueMembers(values: seq<string>)
    ensures forall v :: v in Unique(values) <==> v in values && v != ""
    ensures NoDuplicates(Unique(values))
  {
    if values != [] {
      var n := |values| - 1;
      UniqueMembers(values[..n]);
      assert values == values[..n] + [values[n]];
    }
  }

  ghost function PredictionsFor(e: Engine, p: Policy, r: Request, ids: set<string>): map<string, Prediction>
  {
    map id | id in ids && id in e.catalog :: PredictionOf(e, p, e.catalog[id], r)
  }

  lemma ConsideredOnce(e: Engine, p: Policy, r: Request)
    ensures PredictionsFor(e, p, r, set id | id in Unique(Considered(p))) == PredictionsOf(e, p, r)
  {
    UniqueMembers(Considered(p));
  }

  /** What the loop over the models has done so far. */
  ghost predicate Predicted(e: Engine, p: Policy, r: Request, ids: seq<string>, predictions: map<string, Prediction>,
                            feasible: seq<string>)
  {
    predictions == PredictionsFor(e, p, r, set id | id in ids) && feasible == EligibleIn(ids, PredictionsOf(e, p, r))
  }

  lemma PredictedStep(e: Engine, p: Policy, r: Request, ids: seq<string>, id: string,
                      predictions: map<string, Prediction>, feasible: seq<string>)
    requires Predicted(e, p, r, ids, predictions, feasible) && id != "" && id in Considered(p)
    ensures if id !in e.catalog then Predicted(e, p, r, ids + [id], predictions, feasible) else
              var prediction := PredictionOf(e, p, e.catalog[id], r);
              Predicted(e, p, r, ids + [id], predictions[id := prediction],
                        if prediction.eligible then feasible + [id] else feasible)
  {
    hide PredictionOf, Considered;
    assert (ids + [id])[..|ids|] == ids;
    assert EligibleIn(ids, PredictionsOf(e, p, r)) + [] == EligibleIn(ids, PredictionsOf(e, p, r));
    assert (set x | x in ids + [id]) == (set x | x in ids) + {id};
  }

  method PredictAll(e: Engine, p: Policy, r: Request)
    returns (predictions: map<string, Prediction>, feasible: seq<string>)
    ensures predictions == PredictionsOf(e, p, r) && feasible == EligibleIn(Unique(Considered(p)), predictions)
  {
    hide PredictionOf, PredictionsOf, PredictionsFor, EligibleIn, Unique;
    var ids := UniqueValues([p.incumbent] + p.candidates + p.fallbacks);
    UniqueMembers(Considered(p));
    predictions, feasible := map[], [];
    ghost var done: seq<string> := [];
    NothingPredicted(e, p, r);
    assert ids == Unique(Considered(p));
    hide Predicted, Considered;
    for i := 0 to |ids|
      invariant done == ids[..i] && Predicted(e, p, r, done, predictions, feasible)
    {
      assert ids[i] in ids;
      PredictedStep(e, p, r, done, ids[i], predictions, feasible);
      done := done + [ids[i]];
      if ids[i] !in e.catalog { continue; }
      var prediction := Predict(e, p, e.catalog[ids[i]], r);
      predictions := predictions[ids[i] := prediction];
      if prediction.eligible { feasible := feasible + [ids[i]]; }
    }
    assert done == ids;
    AllPredicted(e, p, r, predictions, feasible);
  }

  lemma NothingPredicted(e: Engine, p: Policy, r: Request)
    ensures Predicted(e, p, r, [], map[], [])
  {}

  lemma AllPredicted(e: Engine, p: Policy, r: Request, predictions: map<string, Prediction>, feasible: seq<string>)
    requires Predicted(e, p, r, Unique(Considered(p)), predictions, feasible)
    ensures predictions == PredictionsOf(e, p, r) && feasible == EligibleIn(Unique(Considered(p)), predictions)
  {
    hide Unique, Considered, PredictionOf;
    ConsideredOnce(e, p, r);
  }

  method CollectShadows(p: Policy, predictions: map<string, Prediction>) returns (result: seq<string>)
    ensures result == ShadowCandidates(p, predictions)
  {
    result := [];
    if p.shadowBudget <= 0.0 { return; }
    for i := 0 to |p.candidates|
      invariant result == EligibleIn(p.candidates[..i], predictions)
    {
      assert p.candidates[..i + 1][..i] == p.candidates[..i];
      if At(predictions, p.candidates[i]).eligible { result := result + [p.candidates[i]]; }
    }
    assert p.candidates[..|p.candidates|] == p.candidates;
  }

  method CollectCandidates(p: Policy, predictions: map<string, Prediction>) returns (result: seq<Prediction>)
    ensures result == QualifiedIn(p, p.candidates, predictions)
  {
    var floor := At(predictions, p.incumbent).success - p.qualityTolerance;
    result := [];
    for i := 0 to |p.candidates|
      invariant result == QualifiedIn(p, p.candidates[..i], predictions)
    {
      assert p.candidates[..i + 1][..i] == p.candidates[..i];
      var prediction := At(predictions, p.candidates[i]);
      if !prediction.eligible || prediction.samples < p.minimumSamples { continue; }
      if prediction.lowerBound + EPSILON < floor { continue; }
      result := result + [prediction];
    }
    assert p.candidates[..|p.candidates|] == p.candidates;
  }

  method Route(e: Engine, c: Context, p: Policy, r: Request) returns (decision: Decision)
    ensures decision == RouteOf(e, c, p, r)
  {
    hide PredictionsOf, EligibleIn, QualifiedIn, Unique, Considered, ShadowCandidates;
    var predictions, feasible := PredictAll(e, p, r);
    decision := Blueprint(c, p, r, feasible, predictions);
    if p.drifted { return decision.(fallbackReason := "policy_drifted"); }
    if p.mode == ObserveMode { return decision.(fallbackReason := "observe_only"); }
    var shadows := CollectShadows(p, predictions);
    decision := decision.(shadowModels := shadows);
    if p.mode == ShadowMode { return decision.(fallbackReason := "shadow_only"); }
    var bucket := Draw(c, decision.trace + "|" + p.version);
    if bucket < p.controlPercent {
      return decision.(bucket := Control, fallbackReason := "randomized_control");
    }
    if p.mode == CanaryMode && bucket >= p.controlPercent + p.canaryPercent {
      return decision.(fallbackReason := "outside_canary");
    }
    var candidates := CollectCandidates(p, predictions);
    if |candidates| == 0 {
      return decision.(fallbackReason := "no_candidate_meets_quality_floor");
    }
    var a := new Prediction[|candidates|](i requires 0 <= i < |candidates| => candidates[i]);
    assert a[..] == candidates;
    SortInPlace(a);
    var chosen, group := a[0], Treatment;
    assert a[..][0] == a[0];
    if r.metadata.risk == LowRisk && p.explorationPercent > 0.0 {
      var explore := Draw(c, decision.trace + "|explore|" + p.version);
      if explore < p.explorationPercent {
        var index := Arm(c, decision.trace, a.Length);
        assert a[..][index] == a[index];
        chosen, group := a[index], Exploration;
      }
    }
    decision := Served(decision, chosen, group);
  }
}
