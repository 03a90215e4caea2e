/** fit_logistic of python/src/outcome_router/training.py: batch gradient descent with L2 decay.
    The sigmoid, the logarithm and the square root are parameters; only their ranges are used. */
module Fitting {
  import opened Domain
  import opened Training
  import opened Reals
  import opened FiniteSums
  import Routing

  const WIDTH := 7

  function FeatureList(f: Features): (x: seq<real>)
    ensures |x| == WIDTH
  {
    [f.inputTokens as real / 1000.0, f.expectedOutputTokens as real / 1000.0, f.messageCount as real,
     f.toolCount as real, if f.hasVision then 1.0 else 0.0, if f.hasStructuredOutput then 1.0 else 0.0, f.risk]
  }

  datatype Fit = Fit(bias: real, weights: seq<real>)

  datatype Rates = Rates(learning: real, l2: real)

  function Dot(w: seq<real>, x: seq<real>): real
    requires |w| == |x|
  {
    if w == [] then 0.0 else Dot(w[..|w| - 1], x[..|x| - 1]) + w[|w| - 1] * x[|x| - 1]
  }

  predicate Shaped(m: Fit) { |m.weights| == WIDTH }

  function Residual(m: Fit, e: Example, sigmoid: real -> real): real
    requires Shaped(m)
  {
    sigmoid(m.bias + Dot(m.weights, FeatureList(e.0.features))) - e.1
  }

  function Feature(e: Example, j: nat): real
    requires j < WIDTH
  {
    FeatureList(e.0.features)[j]
  }

  /** What one example adds to the gradient of weight j. */
  function Pull(m: Fit, e: Example, sigmoid: real -> real, j: nat): real
    requires Shaped(m) && j < WIDTH
  {
    Residual(m, e, sigmoid) * Feature(e, j)
  }

  function Gradient(m: Fit, es: seq<Example>, sigmoid: real -> real, j: nat): real
    requires Shaped(m) && j < WIDTH
  {
    if es == [] then 0.0 else Gradient(m, es[..|es| - 1], sigmoid, j) + Pull(m, es[|es| - 1], sigmoid, j)
  }

  function BiasGradient(m: Fit, es: seq<Example>, sigmoid: real -> real): real
    requires Shaped(m)
  {
    if es == [] then 0.0 else BiasGradient(m, es[..|es| - 1], sigmoid) + Residual(m, es[|es| - 1], sigmoid)
  }

  function MovedBias(b: real, g: real, count: real, learning: real): real
    requires count > 0.0
  {
    b - learning * g / count
  }

  function MovedWeight(w: real, g: real, count: real, r: Rates): real
    requires count > 0.0
  {
    w - r.learning * (g / count + r.l2 * w)
  }

  /** One epoch of the recurrence. */
  function Epoch(m: Fit, es: seq<Example>, r: Rates, sigmoid: real -> real): (next: Fit)
    requires Shaped(m) && es != []
    ensures Shaped(next)
  {
    Fit(MovedBias(m.bias, BiasGradient(m, es, sigmoid), |es| as real, r.learning),
        seq(WIDTH, j requires 0 <= j < WIDTH =>
              MovedWeight(m.weights[j], Gradient(m, es, sigmoid, j), |es| as real, r)))
  }

  function Descend(m: Fit, es: seq<Example>, r: Rates, sigmoid: real -> real, epochs: nat): (next: Fit)
    requires Shaped(m) && es != []
    ensures Shaped(next)
  {
    if epochs == 0 then m else Epoch(Descend(m, es, r, sigmoid, epochs - 1), es, r, sigmoid)
  }

  // ---------- the loops ----------

  method LinearPart(m: Fit, x: seq<real>) returns (z: real)
    requires Shaped(m) && |x| == WIDTH
    ensures z == m.bias + Dot(m.weights, x)
  {
    var sum := 0.0;
    for i := 0 to |x|
      invariant sum == Dot(m.weights[..i], x[..i])
    {
      assert m.weights[..i + 1][..i] == m.weights[..i] && x[..i + 1][..i] == x[..i];
      sum := sum + m.weights[i] * x[i];
    }
    assert m.weights[..|x|] == m.weights && x[..|x|] == x;
    z := m.bias + sum;
  }

  method AddScaled(gradients: seq<real>, error: real, x: seq<real>) returns (result: seq<real>)
    requires |gradients| == |x|
    ensures |result| == |x| && forall j :: 0 <= j < |x| ==> result[j] == gradients[j] + error * x[j]
  {
    result := gradients;
    for i := 0 to |x|
      invariant |result| == |x|
      invariant forall j :: 0 <= j < |x| ==> result[j] == if j < i then gradients[j] + error * x[j] else gradients[j]
    {
      result := result[i := result[i] + error * x[i]];
    }
  }

  ghost predicate Gradients(g: seq<real>, m: Fit, es: seq<Example>, sigmoid: real -> real)
    requires Shaped(m)
  {
    |g| == WIDTH && forall j :: 0 <= j < WIDTH ==> g[j] == Gradient(m, es, sigmoid, j)
  }

  lemma GradientStep(m: Fit, es: seq<Example>, e: Example, sigmoid: real -> real, g: seq<real>, g': seq<real>)
    requires Shaped(m) && Gradients(g, m, es, sigmoid) && |g'| == WIDTH
    requires forall j :: 0 <= j < WIDTH ==> g'[j] == g[j] + Pull(m, e, sigmoid, j)
    ensures Gradients(g', m, es + [e], sigmoid)
    ensures BiasGradient(m, es + [e], sigmoid) == BiasGradient(m, es, sigmoid) + Residual(m, e, sigmoid)
  {
    assert (es + [e])[..|es|] == es;
  }

  /** The two sums of one epoch, over all examples. */
  method SumGradients(m: Fit, es: seq<Example>, sigmoid: real -> real)
    returns (biasGradient: real, gradients: seq<real>)
    requires Shaped(m)
    ensures biasGradient == BiasGradient(m, es, sigmoid) && Gradients(gradients, m, es, sigmoid)
  {
    hide Gradients, Gradient, BiasGradient;
    biasGradient, gradients := 0.0, seq(WIDTH, _ => 0.0);
    ghost var done: seq<Example> := [];
    NoGradient(m, sigmoid, gradients);
    for i := 0 to |es|
      invariant done == es[..i] && |gradients| == WIDTH
      invariant biasGradient == BiasGradient(m, done, sigmoid) && Gradients(gradients, m, done, sigmoid)
    {
      var x := FeatureList(es[i].0.features);
      var z := LinearPart(m, x);
      var error := sigmoid(z) - es[i].1;
      biasGradient := biasGradient + error;
      var next := AddScaled(gradients, error, x);
      assert error == Residual(m, es[i], sigmoid);
      GradientStep(m, done, es[i], sigmoid, gradients, next);
      gradients, done := next, done + [es[i]];
    }
    assert done == es;
  }

  lemma NoGradient(m: Fit, sigmoid: real -> real, zeros: seq<real>)
    requires Shaped(m) && zeros == seq(WIDTH, _ => 0.0)
    ensures BiasGradient(m, [], sigmoid) == 0.0 && Gradients(zeros, m, [], sigmoid)
  {}

  method RunEpoch(m: Fit, es: seq<Example>, r: Rates, sigmoid: real -> real) returns (next: Fit)
    requires Shaped(m) && es != []
    ensures next == Epoch(m, es, r, sigmoid)
  {
    hide Gradient, BiasGradient;
    var biasGradient, gradients := SumGradients(m, es, sigmoid);
    var count := |es| as real;
    var bias := m.bias - r.learning * biasGradient / count;
    var weights := m.weights;
    for i := 0 to WIDTH
      invariant |weights| == WIDTH
      invariant forall j :: 0 <= j < WIDTH ==>
        weights[j] == if j < i then MovedWeight(m.weights[j], gradients[j], count, r) else m.weights[j]
    {
      var gradient := gradients[i] / count + r.l2 * weights[i];
      assert weights[i] - r.learning * gradient == MovedWeight(m.weights[i], gradients[i], count, r);
      weights := weights[i := weights[i] - r.learning * gradient];
    }
    next := Fit(bias, weights);
    hide MovedWeight;
    assert next.weights == Epoch(m, es, r, sigmoid).weights;
  }

  // ---------- bounds on the iterates ----------

  function Abs(x: real): real { if x < 0.0 then -x else x }

  ghost predicate Bounded(es: seq<Example>, bound: real)
  {
    && (forall e :: e in es ==> 0.0 <= e.1 <= 1.0)
    && (forall e, j: nat :: e in es && j < WIDTH ==> Abs(Feature(e, j)) <= bound)
  }

  ghost predicate IsSigmoid(sigmoid: real -> real) { forall x :: 0.0 <= sigmoid(x) <= 1.0 }

  /** The program's sigmoid, in the two branches it uses against overflow. */
  function Sigmoid(exp: real -> real): real -> real
    requires forall x :: exp(x) > 0.0
  {
    x => if x >= 0.0 then 1.0 / (1.0 + exp(-Min(x, 700.0))) else exp(Max(x, -700.0)) / (1.0 + exp(Max(x, -700.0)))
  }

  /** All that the bounds below need of it follows from a positive exponential. */
  lemma SigmoidIsProportion(exp: real -> real)
    requires forall x :: exp(x) > 0.0
    ensures IsSigmoid(Sigmoid(exp))
  {
    forall x: real
      ensures 0.0 <= Sigmoid(exp)(x) <= 1.0
    {
      var e := if x >= 0.0 then exp(-Min(x, 700.0)) else exp(Max(x, -700.0));
      RateInUnitInterval(1.0, 1.0 + e);
      RateInUnitInterval(e, 1.0 + e);
    }
  }

  lemma ProductBound(a: real, b: real, bound: real)
    requires -1.0 <= a <= 1.0 && Abs(b) <= bound
    ensures Abs(a * b) <= bound
  {
    ProductSign(1.0 - a, Abs(b));
    ProductSign(1.0 + a, Abs(b));
    assert (1.0 - a) * Abs(b) == Abs(b) - a * Abs(b) && (1.0 + a) * Abs(b) == Abs(b) + a * Abs(b);
  }

  lemma PullBound(m: Fit, e: Example, sigmoid: real -> real, j: nat, bound: real)
    requires Shaped(m) && IsSigmoid(sigmoid) && j < WIDTH && 0.0 <= e.1 <= 1.0 && Abs(Feature(e, j)) <= bound
    ensures Abs(Pull(m, e, sigmoid, j)) <= bound
  {
    hide Feature, Dot;
    ProductBound(Residual(m, e, sigmoid), Feature(e, j), bound);
  }

  /** Residuals lie in [-1, 1], so a sum of n of them times features of size `bound` is at most n bounds. */
  lemma {:induction false} GradientBound(m: Fit, es: seq<Example>, sigmoid: real -> real, j: nat, bound: real)
    requires Shaped(m) && IsSigmoid(sigmoid) && Bounded(es, bound) && j < WIDTH
    ensures Abs(Gradient(m, es, sigmoid, j)) <= Times(|es|, bound)
  {
    hide Pull, Feature, IsSigmoid, Times;
    OneMore(0, bound);
    if es != [] {
      var n := |es| - 1;
      assert es[n] in es && forall d :: d in es[..n] ==> d in es;
      GradientBound(m, es[..n], sigmoid, j, bound);
      assert Abs(Feature(es[n], j)) <= bound;
      PullBound(m, es[n], sigmoid, j, bound);
      OneMore(n, bound);
    }
  }

  function Times(n: nat, bound: real): real { n as real * bound }

  lemma OneMore(n: nat, bound: real)
    ensures Times(n + 1, bound) == Times(n, bound) + bound && Times(0, bound) == 0.0
  {}

  lemma MeanBound(g: real, n: nat, bound: real)
    requires n > 0 && Abs(g) <= Times(n, bound)
    ensures Abs(g / n as real) <= bound
  {
    var r := n as real;
    var q := g / r;
    assert q * r == g;
    if q > bound { assert (q - bound) * r > 0.0; }
    if -q > bound { assert (-q - bound) * r > 0.0; }
  }

  /** The share of a weight that one epoch's decay leaves. */
  function Kept(r: Rates): real { 1.0 - r.learning * r.l2 }

  /** The effect of decay: the weight is scaled down before the step is added. */
  lemma StepIdentity(w: real, g: real, count: real, r: Rates)
    requires count > 0.0
    ensures MovedWeight(w, g, count, r) == Product(Kept(r), w) - Product(r.learning, g / count)
  {
    var q := g / count;
    assert r.learning * (q + r.l2 * w) == r.learning * q + r.learning * r.l2 * w;
    assert (1.0 - r.learning * r.l2) * w == w - r.learning * r.l2 * w;
  }

  lemma ScaledAbs(s: real, x: real, cap: real)
    requires s >= 0.0 && Abs(x) <= cap
    ensures Abs(Product(s, x)) <= Product(s, cap)
  {
    ProductSign(s, cap - x);
    ProductSign(s, cap + x);
    assert s * (cap - x) == s * cap - s * x && s * (cap + x) == s * cap + s * x;
  }

  lemma WeightStep(w: real, g: real, count: real, r: Rates, bound: real, cap: real)
    requires count > 0.0 && Abs(g / count) <= bound && r.learning >= 0.0 && 0.0 <= r.learning * r.l2 <= 1.0
    requires Abs(w) <= cap
    ensures Abs(MovedWeight(w, g, count, r)) <= Decayed(r, bound, cap)
  {
    assert Kept(r) >= 0.0;
    hide Product, MovedWeight, Kept;
    StepIdentity(w, g, count, r);
    ScaledAbs(Kept(r), w, cap);
    ScaledAbs(r.learning, g / count, bound);
  }

  ghost predicate Within(m: Fit, start: real, steps: real, cap: real)
  {
    Shaped(m) && Abs(m.bias - start) <= steps && forall j: nat :: j < WIDTH ==> Abs(m.weights[j]) <= cap
  }

  /** A weight at `cap` after one epoch: decay first, then at most one step of the largest feature. */
  function Decayed(r: Rates, bound: real, cap: real): real
  {
    Product(Kept(r), cap) + Product(r.learning, bound)
  }

  lemma EpochMovesLittle(m: Fit, es: seq<Example>, r: Rates, sigmoid: real -> real, bound: real, start: real,
                         steps: real, cap: real)
    requires IsSigmoid(sigmoid) && es != [] && Bounded(es, bound) && bound >= 0.0
    requires r.learning >= 0.0 && 0.0 <= r.learning * r.l2 <= 1.0
    requires Within(m, start, steps, cap)
    ensures Within(Epoch(m, es, r, sigmoid), start, steps + r.learning, Decayed(r, bound, cap))
  {
    hide Gradient, BiasGradient, MovedWeight, Bounded, IsSigmoid, Decayed;
    var next := Epoch(m, es, r, sigmoid);
    NewBias(m, es, r, sigmoid, bound);
    forall j: nat | j < WIDTH
      ensures Abs(next.weights[j]) <= Decayed(r, bound, cap)
    {
      NewWeight(m, es, r, sigmoid, bound, cap, j);
    }
  }

  lemma NewBias(m: Fit, es: seq<Example>, r: Rates, sigmoid: real -> real, bound: real)
    requires Shaped(m) && IsSigmoid(sigmoid) && es != [] && Bounded(es, bound) && r.learning >= 0.0
    ensures Abs(Epoch(m, es, r, sigmoid).bias - m.bias) <= r.learning
  {
    hide BiasGradient, MovedBias, Times;
    BiasGradientBound(m, es, sigmoid);
    MeanBound(BiasGradient(m, es, sigmoid), |es|, 1.0);
    BiasStep(m.bias, BiasGradient(m, es, sigmoid), |es| as real, r.learning);
  }

  lemma NewWeight(m: Fit, es: seq<Example>, r: Rates, sigmoid: real -> real, bound: real, cap: real, j: nat)
    requires Shaped(m) && IsSigmoid(sigmoid) && es != [] && Bounded(es, bound) && bound >= 0.0 && j < WIDTH
    requires r.learning >= 0.0 && 0.0 <= r.learning * r.l2 <= 1.0 && Abs(m.weights[j]) <= cap
    ensures Abs(MovedWeight(m.weights[j], Gradient(m, es, sigmoid, j), |es| as real, r)) <= Decayed(r, bound, cap)
  {
    hide Gradient, Bounded, IsSigmoid, MovedWeight, Decayed, Times;
    GradientBound(m, es, sigmoid, j, bound);
    MeanBound(Gradient(m, es, sigmoid, j), |es|, bound);
    WeightStep(m.weights[j], Gradient(m, es, sigmoid, j), |es| as real, r, bound, cap);
  }

  lemma BiasStep(b: real, g: real, n: real, learning: real)
    requires n > 0.0 && Abs(g / n) <= 1.0 && learning >= 0.0
    ensures Abs(MovedBias(b, g, n, learning) - b) <= learning
  {
    assert learning * g / n == Product(learning, g / n) && Product(learning, 1.0) == learning;
    ScaledAbs(learning, g / n, 1.0);
  }

  lemma {:induction false} BiasGradientBound(m: Fit, es: seq<Example>, sigmoid: real -> real)
    requires Shaped(m) && IsSigmoid(sigmoid) && forall e :: e in es ==> 0.0 <= e.1 <= 1.0
    ensures Abs(BiasGradient(m, es, sigmoid)) <= Times(|es|, 1.0)
  {
    if es != [] {
      var n := |es| - 1;
      assert es[n] in es && forall d :: d in es[..n] ==> d in es;
      BiasGradientBound(m, es[..n], sigmoid);
    }
  }

  /** k learning steps; k steps of the largest feature; the point where decay balances a step. */
  function Steps(k: nat, r: Rates): real { k as real * r.learning }

  function ByStep(k: nat, r: Rates, bound: real): real { k as real * r.learning * bound }

  function ByDecay(r: Rates, bound: real): real
    requires r.l2 > 0.0
  {
    bound / r.l2
  }

  /** After k epochs the bias has moved by at most k learning steps, and no weight exceeds either k
      steps of the largest feature or the point where decay balances it, however long training runs. */
  lemma {:induction false} IteratesStayBounded(bias: real, es: seq<Example>, r: Rates, sigmoid: real -> real,
                                               bound: real, k: nat)
    requires IsSigmoid(sigmoid) && es != [] && Bounded(es, bound) && bound >= 0.0
    requires r.learning > 0.0 && r.l2 > 0.0 && r.learning * r.l2 <= 1.0
    ensures Within(Descend(Fit(bias, seq(WIDTH, _ => 0.0)), es, r, sigmoid, k), bias, Steps(k, r),
                   Min(ByStep(k, r, bound), ByDecay(r, bound)))
  {
    hide Epoch, Bounded, IsSigmoid, Steps, ByStep, ByDecay;
    Caps(r, bound, k);
    if k > 0 {
      IteratesStayBounded(bias, es, r, sigmoid, bound, k - 1);
      NextIterate(Descend(Fit(bias, seq(WIDTH, _ => 0.0)), es, r, sigmoid, k - 1), es, r, sigmoid, bound, bias, k - 1);
    }
  }

  lemma NextIterate(m: Fit, es: seq<Example>, r: Rates, sigmoid: real -> real, bound: real, bias: real, k: nat)
    requires IsSigmoid(sigmoid) && es != [] && Bounded(es, bound) && bound >= 0.0
    requires r.learning > 0.0 && r.l2 > 0.0 && r.learning * r.l2 <= 1.0
    requires Within(m, bias, Steps(k, r), Min(ByStep(k, r, bound), ByDecay(r, bound)))
    ensures Within(Epoch(m, es, r, sigmoid), bias, Steps(k + 1, r), Min(ByStep(k + 1, r, bound), ByDecay(r, bound)))
  {
    hide Epoch, Bounded, IsSigmoid, Steps, ByStep, ByDecay, Decayed;
    ProductPositive(r.learning, r.l2);
    Caps(r, bound, k);
    EpochMovesLittle(m, es, r, sigmoid, bound, bias, Steps(k, r), ByStep(k, r, bound));
    EpochMovesLittle(m, es, r, sigmoid, bound, bias, Steps(k, r), ByDecay(r, bound));
  }

  lemma Caps(r: Rates, bound: real, k: nat)
    requires r.learning > 0.0 && r.l2 > 0.0 && bound >= 0.0
    ensures Steps(0, r) == 0.0 && ByStep(0, r, bound) == 0.0 && ByDecay(r, bound) >= 0.0
    ensures Steps(k + 1, r) == Steps(k, r) + r.learning
    ensures Decayed(r, bound, ByStep(k, r, bound)) <= ByStep(k + 1, r, bound)
    ensures Decayed(r, bound, ByDecay(r, bound)) == ByDecay(r, bound)
  {
    QuotientNonNegative(bound, r.l2);
    StepCap(k as real, r, bound);
    DecayCap(r, bound, bound / r.l2);
  }

  lemma StepCap(k: real, r: Rates, bound: real)
    requires r.learning > 0.0 && r.l2 > 0.0 && bound >= 0.0 && k >= 0.0
    ensures Decayed(r, bound, k * r.learning * bound) <= (k + 1.0) * r.learning * bound
  {
    var cap := k * r.learning * bound;
    ProductSign(k, r.learning);
    ProductSign(k * r.learning, bound);
    ProductPositive(r.learning, r.l2);
    ProductSign(r.learning * r.l2, cap);
    assert (k + 1.0) * r.learning * bound == cap + r.learning * bound;
    assert (1.0 - r.learning * r.l2) * cap == cap - r.learning * r.l2 * cap;
  }

  lemma DecayCap(r: Rates, bound: real, limit: real)
    requires limit * r.l2 == bound
    ensures Decayed(r, bound, limit) == limit
  {
    assert (1.0 - r.learning * r.l2) * limit == limit - r.learning * (limit * r.l2);
  }

  // ---------- the fitted score ----------

  function LabelSum(es: seq<Example>): real { if es == [] then 0.0 else LabelSum(es[..|es| - 1]) + es[|es| - 1].1 }

  /** Share of positive labels with one pseudo-example of each kind. */
  function Prior(es: seq<Example>): real { (LabelSum(es) + 1.0) / (|es| + 2) as real }

  lemma {:induction false} LabelSumBound(es: seq<Example>)
    requires forall e :: e in es ==> 0.0 <= e.1 <= 1.0
    ensures 0.0 <= LabelSum(es) <= |es| as real
  {
    if es != [] {
      assert es[|es| - 1] in es && forall e :: e in es[..|es| - 1] ==> e in es;
      LabelSumBound(es[..|es| - 1]);
    }
  }

  function Against(es: seq<Example>): real { 1.0 - Prior(es) }

  /** The initial bias takes the logarithm of a positive number. */
  lemma OddsArePositive(es: seq<Example>)
    requires forall e :: e in es ==> 0.0 <= e.1 <= 1.0
    ensures 0.0 < Prior(es) < 1.0 && Against(es) > 0.0 && Prior(es) / Against(es) > 0.0
  {
    LabelSumBound(es);
    var n := (|es| + 2) as real;
    QuotientPositive(LabelSum(es) + 1.0, n);
    if Prior(es) >= 1.0 { ProductSign(Prior(es) - 1.0, n); }
    QuotientPositive(Prior(es), 1.0 - Prior(es));
  }

  ghost predicate Labels(es: seq<Example>) { forall e :: e in es ==> 0.0 <= e.1 <= 1.0 }

  function InitialFit(es: seq<Example>, log: real -> real): (m: Fit)
    requires Labels(es)
    ensures Shaped(m)
  {
    OddsArePositive(es);
    Fit(log(Prior(es) / Against(es)), seq(WIDTH, _ => 0.0))
  }

  const NAMES := ["input_tokens_k", "expected_output_tokens_k", "message_count", "tool_count", "has_vision",
                  "has_structured_output", "risk"]

  function Named(w: seq<real>): map<string, real>
    requires |w| == WIDTH
  {
    map[NAMES[0] := w[0], NAMES[1] := w[1], NAMES[2] := w[2], NAMES[3] := w[3], NAMES[4] := w[4], NAMES[5] := w[5],
        NAMES[6] := w[6]]
  }

  function SquaredErrors(m: Fit, es: seq<Example>, sigmoid: real -> real): real
    requires Shaped(m)
  {
    if es == [] then 0.0 else
      var n := |es| - 1;
      SquaredErrors(m, es[..n], sigmoid) + Residual(m, es[n], sigmoid) * Residual(m, es[n], sigmoid)
  }

  method BrierScore(m: Fit, es: seq<Example>, sigmoid: real -> real) returns (brier: real)
    requires Shaped(m) && es != []
    ensures brier == SquaredErrors(m, es, sigmoid) / |es| as real && brier >= 0.0
  {
    var sum := 0.0;
    for i := 0 to |es|
      invariant sum == SquaredErrors(m, es[..i], sigmoid) && sum >= 0.0
    {
      assert es[..i + 1][..i] == es[..i];
      var z := LinearPart(m, FeatureList(es[i].0.features));
      var error := sigmoid(z) - es[i].1;
      SquareNonNegative(error);
      sum := sum + error * error;
    }
    assert es[..|es|] == es;
    QuotientNonNegative(sum, |es| as real);
    brier := sum / |es| as real;
  }

  /** Standard error of the rate plus the Brier score's share, in the range the router accepts. */
  function Uncertainty(rate: real, brier: real, count: real, sqrt: real -> real): real
    requires count > 0.0
  {
    var spread := if sqrt(count) != 0.0 then sqrt(brier) / sqrt(count) else 0.0;
    Min(0.5, Max(0.005, sqrt(Max(0.000_000_001, rate * (1.0 - rate)) / count) + spread))
  }

  /** The score of a list of examples: `epochs` rounds of descent from the prior log-odds. */
  function ScoreOf(es: seq<Example>, epochs: nat, r: Rates, sigmoid: real -> real, log: real -> real,
                   sqrt: real -> real): ModelScore
    requires Labels(es) && es != []
  {
    ScoreAt(Descend(InitialFit(es, log), es, r, sigmoid, epochs), es, sigmoid, sqrt)
  }

  /** What is reported of a fit. */
  function ScoreAt(m: Fit, es: seq<Example>, sigmoid: real -> real, sqrt: real -> real): ModelScore
    requires Shaped(m) && es != []
  {
    var count := |es| as real;
    var rate := LabelSum(es) / count;
    var uncertainty := Uncertainty(rate, SquaredErrors(m, es, sigmoid) / count, count, sqrt);
    ModelScore(rate, uncertainty, |es|, Named(m.weights), m.bias)
  }

  /** The loops compute that score; without examples there is none. */
  method FitLogistic(es: seq<Example>, epochs: nat, r: Rates, sigmoid: real -> real, log: real -> real,
                     sqrt: real -> real)
    returns (score: Option<ModelScore>)
    requires Labels(es)
    ensures score == if es == [] then None else Some(ScoreOf(es, epochs, r, sigmoid, log, sqrt))
  {
    hide Epoch, Named, SquaredErrors, Uncertainty;
    if |es| == 0 { return None; }
    var positives := 0.0;
    for i := 0 to |es|
      invariant positives == LabelSum(es[..i])
    {
      assert es[..i + 1][..i] == es[..i];
      positives := positives + es[i].1;
    }
    assert es[..|es|] == es;
    OddsArePositive(es);
    var prior := (positives + 1.0) / (|es| + 2) as real;
    var m := Fit(log(prior / (1.0 - prior)), seq(WIDTH, _ => 0.0));
    ghost var start := m;
    for k := 0 to epochs
      invariant Shaped(m) && m == Descend(start, es, r, sigmoid, k)
    {
      m := RunEpoch(m, es, r, sigmoid);
    }
    var count := |es| as real;
    var brier := BrierScore(m, es, sigmoid);
    var rate := positives / count;
    score := Some(ModelScore(rate, Uncertainty(rate, brier, count, sqrt), |es|, Named(m.weights), m.bias));
  }

  /** Every fitted score: the success rate is a proportion, the uncertainty is one the router's clamp
      leaves alone, and bias and weights obey the bounds of the descent. */
  lemma ScoreIsBounded(es: seq<Example>, epochs: nat, r: Rates, sigmoid: real -> real, log: real -> real,
                       sqrt: real -> real,
                       bound: real)
    requires Labels(es) && es != [] && IsSigmoid(sigmoid) && Bounded(es, bound) && bound >= 0.0
    requires r.learning > 0.0 && r.l2 > 0.0 && r.learning * r.l2 <= 1.0
    ensures var score := ScoreOf(es, epochs, r, sigmoid, log, sqrt);
            && 0.0 <= score.successRate <= 1.0 && score.samples == |es| > 0
            && Clamp(score.uncertainty, 0.005, 0.5) == score.uncertainty
            && Abs(score.bias - InitialFit(es, log).bias) <= Steps(epochs, r)
            && forall name :: name in score.weights ==>
                 Abs(score.weights[name]) <= Min(ByStep(epochs, r, bound), ByDecay(r, bound))
  {
    hide Descend, SquaredErrors, Bounded, IsSigmoid, ByStep, ByDecay, Steps;
    LabelSumBound(es);
    OddsArePositive(es);
    RateInUnitInterval(LabelSum(es), |es| as real);
    var start := InitialFit(es, log);
    IteratesStayBounded(start.bias, es, r, sigmoid, bound, epochs);
    NamedValues(Descend(start, es, r, sigmoid, epochs).weights);
  }

  lemma NamedValues(w: seq<real>)
    requires |w| == WIDTH
    ensures forall name :: name in Named(w) ==> exists j: nat :: j < WIDTH && Named(w)[name] == w[j]
  {}

  lemma NamesAreDistinct()
    ensures |NAMES| == WIDTH && forall i, j :: 0 <= i < j < WIDTH ==> NAMES[i] != NAMES[j]
  {
    assert NAMES[3][0] != NAMES[4][0];
    assert |NAMES[0]| == 14 && |NAMES[1]| == 24 && |NAMES[2]| == 13 && |NAMES[3]| == 10 && |NAMES[5]| == 21 &&
           |NAMES[6]| == 4;
  }

  lemma {:induction false} DotAsList(w: seq<real>, x: seq<real>, names: seq<string>, term: string -> real, k: nat)
    requires k <= |w| == |x| == |names| && forall i :: 0 <= i < k ==> term(names[i]) == w[i] * x[i]
    ensures SumList(names[..k], term) == Dot(w[..k], x[..k])
  {
    if k > 0 {
      DotAsList(w, x, names, term, k - 1);
      assert names[..k][..k - 1] == names[..k - 1] && w[..k][..k - 1] == w[..k - 1] && x[..k][..k - 1] == x[..k - 1];
    }
  }

  lemma TermOfName(w: seq<real>, f: Features, i: nat)
    requires |w| == WIDTH && i < WIDTH && i < |NAMES|
    ensures NAMES[i] in Routing.Vector(f)
    ensures Routing.Term(Named(w), Routing.Vector(f))(NAMES[i]) == w[i] * FeatureList(f)[i]
  {
    NamesAreDistinct();
    assert NAMES[i] in Named(w) && Named(w)[NAMES[i]] == w[i];
    assert Routing.Vector(f)[NAMES[i]] == FeatureList(f)[i];
  }

  /** The router sums weight times feature by name, in map order; the trainer by position. On a
      trained score and the same features both get the same linear term. */
  lemma RouterAndTrainerAgreeOnFeatures(w: seq<real>, f: Features)
    requires |w| == WIDTH
    ensures Total(Routing.Vector(f).Keys, Routing.Term(Named(w), Routing.Vector(f))) == Dot(w, FeatureList(f))
  {
    hide Routing.Vector, Routing.Term, Named, FeatureList, Dot, Total, SumList;
    var term, x := Routing.Term(Named(w), Routing.Vector(f)), FeatureList(f);
    NamesAreDistinct();
    VectorNames(f);
    forall i: nat | i < WIDTH
      ensures term(NAMES[i]) == w[i] * x[i]
    {
      TermOfName(w, f, i);
    }
    TotalOfList(NAMES, term);
    DotAsList(w, x, NAMES, term, WIDTH);
    assert NAMES[..WIDTH] == NAMES && w[..WIDTH] == w && x[..WIDTH] == x;
  }

  lemma VectorNames(f: Features)
    ensures Routing.Vector(f).Keys == set name | name in NAMES
  {
    forall name
      ensures name in Routing.Vector(f) <==> name in NAMES
    {
      assert NAMES == [NAMES[0], NAMES[1], NAMES[2], NAMES[3], NAMES[4], NAMES[5], NAMES[6]];
    }
  }
}
