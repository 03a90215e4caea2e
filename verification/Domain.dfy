/** The record types of internal/domain/types.go. Amounts and probabilities are reals, times
    are integers; labels the program only compares become constructors, and an `Other...`
    constructor stands for every further string. */
module Domain {

  datatype Option<+T> = None | Some(value: T)

  datatype Mode = ObserveMode | ShadowMode | CanaryMode | ActiveMode | OtherMode(name: string)

  datatype Privacy = Unset | Standard | ZDR | Local | OtherPrivacy(name: string)

  datatype Risk = LowRisk | NormalRisk | HighRisk | RegulatedRisk | OtherRisk(name: string)

  datatype Bucket = Incumbent | Control | Treatment | Exploration | Shadow | OtherBucket(name: string)

  datatype Model = Model(
    id: string, provider: string, region: string, privacy: Privacy, contextWindow: int,
    supportsTools: bool, supportsStructured: bool, supportsVision: bool,
    inputPrice: real, outputPrice: real, p95Latency: int, qualityPrior: real, enabled: bool)

  type Catalog = map<string, Model>

  datatype Constraints = Constraints(allowedRegions: seq<string>, privacy: Privacy, maxCost: real, maxLatency: int)

  datatype ModelScore = ModelScore(
    successRate: real, uncertainty: real, samples: int, weights: map<string, real>, bias: real)

  datatype Snapshot = Snapshot(
    version: string, catalogVersion: string,
    overall: map<string, ModelScore>, byWorkflow: map<string, map<string, ModelScore>>)

  datatype Policy = Policy(
    id: string, tenant: string, version: string, mode: Mode, incumbent: string,
    candidates: seq<string>, fallbacks: seq<string>, qualityTolerance: real, confidenceZ: real,
    minimumSamples: int, controlPercent: real, canaryPercent: real, explorationPercent: real,
    shadowBudget: real, primaryOutcome: string, constraints: Constraints, snapshot: Snapshot,
    drifted: bool)

  datatype Metadata = Metadata(
    trace: string, workflow: string, step: string, risk: Risk, deadline: int,
    requiredRegion: string, requiredPrivacy: Privacy, maxCost: real)

  datatype Features = Features(
    inputTokens: int, expectedOutputTokens: int, messageCount: int, toolCount: int,
    hasVision: bool, hasStructuredOutput: bool, risk: real)

  datatype Request = Request(metadata: Metadata, features: Features)

  datatype Prediction = Prediction(
    modelId: string, success: real, lowerBound: real, uncertainty: real, samples: int,
    estimatedCost: real, p95Latency: int, eligible: bool, reason: string)

  /** RouteDecision, without its two latency fields. */
  datatype Decision = Decision(
    id: string, parentId: string, tenant: string, trace: string, workflow: string, step: string,
    risk: Risk, policyId: string, policyVersion: string, snapshotVersion: string,
    catalogVersion: string, incumbent: string, selected: string, final: string, bucket: Bucket,
    fallbackReason: string, feasible: seq<string>, shadowModels: seq<string>,
    predictions: map<string, Prediction>, features: Features, estimatedCost: real,
    incumbentCost: real, actualCost: real, inputTokens: int, outputTokens: int,
    attempted: seq<string>, upstreamStatus: int, error: string, createdAt: int,
    completedAt: Option<int>)

  /** The JSON value of an outcome event. `NoNumber` is anything neither program reads as a
      number: a string, an array, an object, or a missing field. */
  datatype Json = Null | Bool(b: bool) | Number(r: real) | NoNumber

  datatype Outcome = Outcome(
    id: string, tenant: string, decisionId: string, trace: string, kind: string, value: Json,
    createdAt: int)

  datatype Interval = Interval(estimate: real, lower: real, upper: real, n: nat)

  function Max(a: real, b: real): real { if a < b then b else a }

  function Min(a: real, b: real): real { if b < a then b else a }

  function Clamp(x: real, low: real, high: real): real { Max(low, Min(high, x)) }
}
