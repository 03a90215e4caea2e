/** What training does: one epoch said as sums over the examples, the direction in which it moves, and
    what the fitted score reports. */
module FittingLaws {
  import opened Domain
  import opened FiniteSums
  import opened Fitting
  import opened Reals
  import opened Training
  import Wilson

  // ---------- one epoch ----------

  /** Weights times features. */
  function Linear(w: seq<real>, f: Features): real
    requires |w| == 7
  {
    Product(w[0], f.inputTokens as real / 1000.0) + Product(w[1], f.expectedOutputTokens as real / 1000.0)
    + Product(w[2], f.messageCount as real) + Product(w[3], f.toolCount as real)
    + Product(w[4], if f.hasVision then 1.0 else 0.0) + Product(w[5], if f.hasStructuredOutput then 1.0 else 0.0)
    + Product(w[6], f.risk)
  }

  /** The feature an example has under the weight number `j`. */
  function Axis(e: Example, j: nat): real
    requires j < 7
  {
    var f := e.0.features;
    match j
    case 0 => f.inputTokens as real / 1000.0
    case 1 => f.expectedOutputTokens as real / 1000.0
    case 2 => f.messageCount as real
    case 3 => f.toolCount as real
    case 4 => if f.hasVision then 1.0 else 0.0
    case 5 => if f.hasStructuredOutput then 1.0 else 0.0
    case _ => f.risk
  }

  lemma FeatureIsAxis(e: Example, j: nat)
    requires j < WIDTH
    ensures Feature(e, j) == Axis(e, j)
  {}

  /** What the model thinks of an example. */
  function Guess(m: Fit, sigmoid: real -> real, e: Example): real
    requires Shaped(m)
  {
    sigmoid(m.bias + Linear(m.weights, e.0.features))
  }

  /** By how much the guess exceeds the label. */
  function Excess(m: Fit, sigmoid: real -> real): Example -> real
    requires Shaped(m)
  {
    (e: Example) => Guess(m, sigmoid, e) - e.1
  }

  function ExcessTimes(m: Fit, sigmoid: real -> real, j: nat): Example -> real
    requires Shaped(m) && j < WIDTH
  {
    (e: Example) => (Guess(m, sigmoid, e) - e.1) * Axis(e, j)
  }

  lemma DotIsLinear(w: seq<real>, f: Features)
    requires |w| == 7
    ensures Dot(w, FeatureList(f)) == Linear(w, f)
  {
    var x := FeatureList(f);
    hide Dot, Product;
    DotStep(w, x, 0);
    DotStep(w, x, 1);
    DotStep(w, x, 2);
    DotStep(w, x, 3);
    DotStep(w, x, 4);
    DotStep(w, x, 5);
    DotStep(w, x, 6);
    assert w[..7] == w && x[..7] == x;
  }

  lemma DotStep(w: seq<real>, x: seq<real>, k: nat)
    requires |w| == |x| && k < |w|
    ensures Dot(w[..k + 1], x[..k + 1]) == Dot(w[..k], x[..k]) + Product(w[k], x[k])
    ensures k == 0 ==> Dot(w[..k], x[..k]) == 0.0
  {
    assert w[..k + 1][..k] == w[..k] && x[..k + 1][..k] == x[..k];
  }

  lemma ResidualIsExcess(m: Fit, sigmoid: real -> real, e: Example)
    requires Shaped(m)
    ensures Residual(m, e, sigmoid) == Excess(m, sigmoid)(e)
  {
    hide Dot, Linear, FeatureList;
    DotIsLinear(m.weights, e.0.features);
  }

  lemma {:induction false} GradientsAreSums(m: Fit, es: seq<Example>, sigmoid: real -> real, j: nat)
    requires Shaped(m) && j < WIDTH
    ensures BiasGradient(m, es, sigmoid) == SumList(es, Excess(m, sigmoid))
    ensures Gradient(m, es, sigmoid, j) == SumList(es, ExcessTimes(m, sigmoid, j))
  {
    hide Guess, Residual, Axis, Feature;
    if es != [] {
      var n := |es| - 1;
      GradientsAreSums(m, es[..n], sigmoid, j);
      ResidualIsExcess(m, sigmoid, es[n]);
      FeatureIsAxis(es[n], j);
    }
  }

  function Mean(es: seq<Example>, f: Example -> real): real
    requires es != []
  {
    SumList(es, f) / |es| as real
  }

  /** A weight after a step: against the mean pull and against itself. */
  function Moved(w: real, pull: real, r: Rates): real { w - r.learning * (pull + r.l2 * w) }

  /** One epoch: the bias moves against the mean excess, each weight against the mean excess times its
      feature and against itself. */
  lemma EpochMeans(m: Fit, es: seq<Example>, r: Rates, sigmoid: real -> real, j: nat)
    requires Shaped(m) && es != [] && j < WIDTH
    ensures var next := Epoch(m, es, r, sigmoid);
            && next.bias == m.bias - r.learning * Mean(es, Excess(m, sigmoid))
            && next.weights[j] == Moved(m.weights[j], Mean(es, ExcessTimes(m, sigmoid, j)), r)
  {
    hide SumList, Gradient, BiasGradient, MovedWeight, MovedBias, Moved;
    GradientsAreSums(m, es, sigmoid, j);
    BiasMoves(m.bias, BiasGradient(m, es, sigmoid), |es| as real, r.learning);
    WeightMoves(m.weights[j], Gradient(m, es, sigmoid, j), |es| as real, r);
  }

  lemma BiasMoves(b: real, g: real, n: real, learning: real)
    requires n > 0.0
    ensures MovedBias(b, g, n, learning) == b - learning * (g / n)
  {}

  lemma WeightMoves(w: real, g: real, n: real, r: Rates)
    requires n > 0.0
    ensures MovedWeight(w, g, n, r) == Moved(w, g / n, r)
  {}

  // ---------- direction ----------

  lemma {:induction false} SumSign(es: seq<Example>, f: Example -> real)
    ensures (forall e :: e in es ==> f(e) <= 0.0) ==> SumList(es, f) <= 0.0
    ensures (forall e :: e in es ==> f(e) >= 0.0) ==> SumList(es, f) >= 0.0
    ensures (forall e :: e in es ==> f(e) <= 0.0) && (exists e :: e in es && f(e) < 0.0) ==> SumList(es, f) < 0.0
    ensures (forall e :: e in es ==> f(e) >= 0.0) && (exists e :: e in es && f(e) > 0.0) ==> SumList(es, f) > 0.0
  {
    if es != [] {
      var n := |es| - 1;
      SumSign(es[..n], f);
      assert es == es[..n] + [es[n]];
    }
  }

  lemma MeanSign(es: seq<Example>, f: Example -> real)
    requires es != []
    ensures (forall e :: e in es ==> f(e) <= 0.0) ==> Mean(es, f) <= 0.0
    ensures (forall e :: e in es ==> f(e) >= 0.0) ==> Mean(es, f) >= 0.0
    ensures (forall e :: e in es ==> f(e) <= 0.0) && (exists e :: e in es && f(e) < 0.0) ==> Mean(es, f) < 0.0
    ensures (forall e :: e in es ==> f(e) >= 0.0) && (exists e :: e in es && f(e) > 0.0) ==> Mean(es, f) > 0.0
  {
    hide SumList;
    SumSign(es, f);
    QuotientSign(SumList(es, f), |es| as real);
  }

  lemma QuotientSign(sum: real, n: real)
    requires n > 0.0
    ensures (sum <= 0.0 ==> sum / n <= 0.0) && (sum >= 0.0 ==> sum / n >= 0.0)
    ensures (sum < 0.0 ==> sum / n < 0.0) && (sum > 0.0 ==> sum / n > 0.0)
  {
    if sum > 0.0 { QuotientPositive(sum, n); }
    if sum < 0.0 {
      QuotientPositive(-sum, n);
      assert sum / n == -(-sum / n);
    }
  }

  lemma StepSign(learning: real, mean: real)
    requires learning >= 0.0
    ensures (mean <= 0.0 ==> learning * mean <= 0.0) && (mean >= 0.0 ==> learning * mean >= 0.0)
    ensures learning > 0.0 ==> (mean < 0.0 ==> learning * mean < 0.0) && (mean > 0.0 ==> learning * mean > 0.0)
  {
    if mean >= 0.0 { ProductSign(learning, mean); } else { ProductSign(learning, -mean); }
    if learning > 0.0 && mean > 0.0 { ProductPositive(learning, mean); }
    if learning > 0.0 && mean < 0.0 { ProductPositive(learning, -mean); }
  }

  /** No example is rated above its label; none below; not all exactly. */
  ghost predicate Underrates(m: Fit, es: seq<Example>, sigmoid: real -> real)
    requires Shaped(m)
  {
    forall e :: e in es ==> Guess(m, sigmoid, e) <= e.1
  }

  ghost predicate Overrates(m: Fit, es: seq<Example>, sigmoid: real -> real)
    requires Shaped(m)
  {
    forall e :: e in es ==> Guess(m, sigmoid, e) >= e.1
  }

  ghost predicate Errs(m: Fit, es: seq<Example>, sigmoid: real -> real)
    requires Shaped(m)
  {
    exists e :: e in es && Guess(m, sigmoid, e) != e.1
  }

  /** The bias follows the evidence: where the model overrates no example one epoch does not lower it, and
      raises it if some example is underrated; where it underrates none, the other way round. */
  lemma BiasFollowsEvidence(m: Fit, es: seq<Example>, r: Rates, sigmoid: real -> real)
    requires Shaped(m) && es != [] && r.learning >= 0.0
    ensures var next := Epoch(m, es, r, sigmoid);
            && (Underrates(m, es, sigmoid) ==> next.bias >= m.bias)
            && (Overrates(m, es, sigmoid) ==> next.bias <= m.bias)
            && (r.learning > 0.0 && Underrates(m, es, sigmoid) && Errs(m, es, sigmoid) ==> next.bias > m.bias)
            && (r.learning > 0.0 && Overrates(m, es, sigmoid) && Errs(m, es, sigmoid) ==> next.bias < m.bias)
  {
    hide Epoch, Guess, Mean;
    EpochMeans(m, es, r, sigmoid, 0);
    MeanSign(es, Excess(m, sigmoid));
    StepSign(r.learning, Mean(es, Excess(m, sigmoid)));
  }

  /** If every example of a model succeeded, training never makes the model look worse than its prior:
      the bias stays at or above the prior log-odds, and on features that are not negative so does every
      weight at or above zero. */
  lemma {:induction false} SuccessesOnlyRaise(es: seq<Example>, r: Rates, sigmoid: real -> real, log: real -> real,
                                              k: nat)
    requires IsSigmoid(sigmoid) && es != [] && Fitting.Labels(es) && (forall e :: e in es ==> e.1 == 1.0)
    requires r.learning >= 0.0 && 0.0 <= r.learning * r.l2 <= 1.0
    ensures var m := Descend(InitialFit(es, log), es, r, sigmoid, k);
            && m.bias >= InitialFit(es, log).bias
            && (NonNegativeFeatures(es) ==> forall j :: 0 <= j < WIDTH ==> m.weights[j] >= 0.0)
  {
    hide Epoch, Axis;
    if k > 0 {
      SuccessesOnlyRaise(es, r, sigmoid, log, k - 1);
      var m := Descend(InitialFit(es, log), es, r, sigmoid, k - 1);
      BiasFollowsEvidence(m, es, r, sigmoid);
      if NonNegativeFeatures(es) { WeightsFollow(m, es, r, sigmoid, 1.0); }
    }
  }

  /** And if every example failed, never better. */
  lemma {:induction false} FailuresOnlyLower(es: seq<Example>, r: Rates, sigmoid: real -> real, log: real -> real,
                                             k: nat)
    requires IsSigmoid(sigmoid) && es != [] && Fitting.Labels(es) && (forall e :: e in es ==> e.1 == 0.0)
    requires r.learning >= 0.0 && 0.0 <= r.learning * r.l2 <= 1.0
    ensures var m := Descend(InitialFit(es, log), es, r, sigmoid, k);
            && m.bias <= InitialFit(es, log).bias
            && (NonNegativeFeatures(es) ==> forall j :: 0 <= j < WIDTH ==> m.weights[j] <= 0.0)
  {
    hide Epoch, Axis;
    if k > 0 {
      FailuresOnlyLower(es, r, sigmoid, log, k - 1);
      var m := Descend(InitialFit(es, log), es, r, sigmoid, k - 1);
      BiasFollowsEvidence(m, es, r, sigmoid);
      if NonNegativeFeatures(es) { WeightsFollow(m, es, r, sigmoid, 0.0); }
    }
  }

  ghost predicate NonNegativeFeatures(es: seq<Example>)
  {
    forall e, j: nat :: e in es && j < WIDTH ==> Axis(e, j) >= 0.0
  }

  lemma WeightsFollow(m: Fit, es: seq<Example>, r: Rates, sigmoid: real -> real, truth: real)
    requires Shaped(m) && es != [] && IsSigmoid(sigmoid) && NonNegativeFeatures(es)
    requires (truth == 0.0 || truth == 1.0) && forall e :: e in es ==> e.1 == truth
    requires r.learning >= 0.0 && 0.0 <= r.learning * r.l2 <= 1.0
    requires forall j :: 0 <= j < WIDTH ==> if truth == 1.0 then m.weights[j] >= 0.0 else m.weights[j] <= 0.0
    ensures var next := Epoch(m, es, r, sigmoid);
            forall j :: 0 <= j < WIDTH ==> if truth == 1.0 then next.weights[j] >= 0.0 else next.weights[j] <= 0.0
  {
    hide Epoch, Guess, Axis;
    forall j: nat | j < WIDTH
      ensures var w := Epoch(m, es, r, sigmoid).weights[j]; if truth == 1.0 then w >= 0.0 else w <= 0.0
    {
      WeightFollows(m, es, r, sigmoid, truth, j);
    }
  }

  lemma WeightFollows(m: Fit, es: seq<Example>, r: Rates, sigmoid: real -> real, truth: real, j: nat)
    requires Shaped(m) && es != [] && IsSigmoid(sigmoid) && NonNegativeFeatures(es) && j < WIDTH
    requires (truth == 0.0 || truth == 1.0) && forall e :: e in es ==> e.1 == truth
    requires r.learning >= 0.0 && 0.0 <= r.learning * r.l2 <= 1.0
    requires if truth == 1.0 then m.weights[j] >= 0.0 else m.weights[j] <= 0.0
    ensures var w := Epoch(m, es, r, sigmoid).weights[j]; if truth == 1.0 then w >= 0.0 else w <= 0.0
  {
    hide Epoch, Axis, Moved, Mean, Guess;
    EpochMeans(m, es, r, sigmoid, j);
    var f := ExcessTimes(m, sigmoid, j);
    forall e | e in es
      ensures if truth == 1.0 then f(e) <= 0.0 else f(e) >= 0.0
    {
      GuessInRange(m, sigmoid, e);
      ExcessSign(Guess(m, sigmoid, e), truth, Axis(e, j));
    }
    MeanSign(es, f);
    StepSign(r.learning, Mean(es, f));
    KeptSign(m.weights[j], Mean(es, f), r);
  }

  lemma GuessInRange(m: Fit, sigmoid: real -> real, e: Example)
    requires Shaped(m) && IsSigmoid(sigmoid)
    ensures 0.0 <= Guess(m, sigmoid, e) <= 1.0
  {}

  lemma ExcessSign(guess: real, truth: real, x: real)
    requires 0.0 <= guess <= 1.0 && x >= 0.0
    ensures (truth == 1.0 ==> (guess - truth) * x <= 0.0) && (truth == 0.0 ==> (guess - truth) * x >= 0.0)
  {
    ProductSign(guess, x);
    ProductSign(1.0 - guess, x);
    assert (1.0 - guess) * x == -((guess - 1.0) * x);
  }

  /** Decay shrinks a weight but does not change its sign. */
  lemma KeptSign(w: real, g: real, r: Rates)
    requires 0.0 <= r.learning * r.l2 <= 1.0
    ensures var next := Moved(w, g, r);
            && (w >= 0.0 && r.learning * g <= 0.0 ==> next >= 0.0)
            && (w <= 0.0 && r.learning * g >= 0.0 ==> next <= 0.0)
  {
    var kept := 1.0 - r.learning * r.l2;
    assert r.learning * (g + r.l2 * w) == r.learning * g + r.learning * r.l2 * w;
    assert kept * w == w - r.learning * r.l2 * w;
    if w >= 0.0 { ProductSign(kept, w); } else { ProductSign(kept, -w); }
  }

  // ---------- the fitted score ----------

  function LabelOfExample(): Example -> real { (e: Example) => e.1 }

  function SquaredExcess(m: Fit, sigmoid: real -> real): Example -> real
    requires Shaped(m)
  {
    (e: Example) => (Guess(m, sigmoid, e) - e.1) * (Guess(m, sigmoid, e) - e.1)
  }

  lemma {:induction false} SumsAreLists(m: Fit, es: seq<Example>, sigmoid: real -> real)
    requires Shaped(m)
    ensures LabelSum(es) == SumList(es, LabelOfExample())
    ensures SquaredErrors(m, es, sigmoid) == SumList(es, SquaredExcess(m, sigmoid))
  {
    hide Guess, Residual;
    if es != [] {
      var n := |es| - 1;
      SumsAreLists(m, es[..n], sigmoid);
      ResidualIsExcess(m, sigmoid, es[n]);
    }
  }

  /** Training starts with all weights zero and the log-odds of the success share that has one success and
      one failure more than the examples. */
  lemma StartMeans(es: seq<Example>, log: real -> real)
    requires Fitting.Labels(es)
    ensures var share := (SumList(es, LabelOfExample()) + 1.0) / (|es| + 2) as real; var m := InitialFit(es, log);
            share < 1.0 && m.bias == log(share / (1.0 - share)) && forall j :: 0 <= j < WIDTH ==> m.weights[j] == 0.0
  {
    SumsAreLists(Fit(0.0, seq(WIDTH, _ => 0.0)), es, x => x);
    OddsArePositive(es);
    hide SumList, LabelSum;
  }

  /** The standard error of the success rate plus the root of the mean squared error over that of the
      sample size. */
  function Spread(rate: real, brier: real, n: real, sqrt: real -> real): real
    requires n > 0.0
  {
    sqrt(Larger(0.000_000_001, rate * (1.0 - rate)) / n) + Ratio(sqrt(brier), sqrt(n))
  }

  lemma UncertaintyMeans(rate: real, brier: real, n: real, sqrt: real -> real)
    requires n > 0.0
    ensures Uncertainty(rate, brier, n, sqrt) == Bounds(Spread(rate, brier, n, sqrt))
  {}

  /** Every field of the score reported of a fit. */
  lemma ScoreMeans(m: Fit, es: seq<Example>, sigmoid: real -> real, sqrt: real -> real)
    requires Shaped(m) && es != []
    ensures var score := ScoreAt(m, es, sigmoid, sqrt); var brier := Mean(es, SquaredExcess(m, sigmoid));
            && score.samples == |es| && score.successRate * |es| as real == SumList(es, LabelOfExample())
            && score.bias == m.bias && score.weights == Named(m.weights)
            && score.uncertainty == Bounds(Spread(score.successRate, brier, |es| as real, sqrt))
  {
    hide SumList, SquaredErrors, LabelSum, Guess, Uncertainty, Bounds, Spread, Named;
    SumsAreLists(m, es, sigmoid);
    UncertaintyMeans(LabelSum(es) / |es| as real, SquaredErrors(m, es, sigmoid) / |es| as real, |es| as real, sqrt);
  }

  /** The weights are filed under the names of the features they belong to. */
  lemma NamedMeans(w: seq<real>)
    requires |w| == WIDTH
    ensures Named(w) == map["input_tokens_k" := w[0], "expected_output_tokens_k" := w[1], "message_count" := w[2],
                            "tool_count" := w[3], "has_vision" := w[4], "has_structured_output" := w[5], "risk" := w[6]]
  {}

  function Larger(a: real, b: real): real { if a > b then a else b }

  function Ratio(a: real, b: real): real { if b != 0.0 then a / b else 0.0 }

  /** Into the range from 0.005 to 0.5. */
  function Bounds(x: real): real { if x > 0.5 then 0.5 else if x < 0.005 then 0.005 else x }

  lemma {:induction false} SquaredErrorsBound(m: Fit, es: seq<Example>, sigmoid: real -> real)
    requires Shaped(m) && IsSigmoid(sigmoid) && Fitting.Labels(es)
    ensures 0.0 <= SquaredErrors(m, es, sigmoid) <= |es| as real
  {
    hide Dot;
    if es != [] {
      var n := |es| - 1;
      assert es[n] in es && forall e :: e in es[..n] ==> e in es;
      SquaredErrorsBound(m, es[..n], sigmoid);
      var x := Residual(m, es[n], sigmoid);
      SquareBound(x, 1.0);
      SquareNonNegative(x);
    }
  }

  /** More examples make a score more certain: its uncertainty is at its floor, or at most one and a half
      over the square root of the sample size. */
  lemma UncertaintyShrinks(es: seq<Example>, epochs: nat, r: Rates, sigmoid: real -> real, log: real -> real,
                           sqrt: real -> real)
    requires Fitting.Labels(es) && es != [] && IsSigmoid(sigmoid)
    requires forall x :: x >= 0.0 ==> Wilson.IsRoot(sqrt(x), x)
    ensures var u := ScoreOf(es, epochs, r, sigmoid, log, sqrt).uncertainty;
            u == 0.005 || u * u * |es| as real <= 2.25
  {
    hide Descend, SquaredErrors, LabelSum, IsSigmoid, Uncertainty, InitialFit;
    var m := Descend(InitialFit(es, log), es, r, sigmoid, epochs);
    var n := |es| as real;
    LabelSumBound(es);
    SquaredErrorsBound(m, es, sigmoid);
    RateInUnitInterval(LabelSum(es), n);
    RateInUnitInterval(SquaredErrors(m, es, sigmoid), n);
    SpreadShrinks(LabelSum(es) / n, SquaredErrors(m, es, sigmoid) / n, n, sqrt);
  }

  lemma SpreadShrinks(rate: real, brier: real, n: real, sqrt: real -> real)
    requires 0.0 <= rate <= 1.0 && 0.0 <= brier <= 1.0 && n >= 1.0
    requires forall x :: x >= 0.0 ==> Wilson.IsRoot(sqrt(x), x)
    ensures var u := Uncertainty(rate, brier, n, sqrt); u == 0.005 || u * u * n <= 2.25
  {
    var v := Max(0.000_000_001, rate * (1.0 - rate));
    VarianceBound(rate);
    QuotientNonNegative(v, n);
    var a, b, root := sqrt(v / n), sqrt(brier), sqrt(n);
    assert Wilson.IsRoot(a, v / n) && Wilson.IsRoot(b, brier) && Wilson.IsRoot(root, n);
    RootPositive(root, n);
    RootsShrink(a, b, root, v, brier, n);
    var u := Uncertainty(rate, brier, n, sqrt);
    var raw := a + b / root;
    if u != 0.005 {
      assert 0.0 <= u <= raw;
      SquareOrder(u, raw);
      ScaleUp(u * u, raw * raw, n);
    }
  }

  lemma VarianceBound(rate: real)
    requires 0.0 <= rate <= 1.0
    ensures 0.0 <= rate * (1.0 - rate) <= 0.25
  {
    ProductSign(rate, 1.0 - rate);
    SquareNonNegative(rate - 0.5);
    assert (rate - 0.5) * (rate - 0.5) == 0.25 - rate * (1.0 - rate);
  }

  lemma RootPositive(root: real, n: real)
    requires n >= 1.0 && Wilson.IsRoot(root, n)
    ensures root > 0.0
  {}

  lemma SquareOrder(a: real, b: real)
    requires 0.0 <= a <= b
    ensures a * a <= b * b
  {
    ProductSign(b - a, b + a);
    assert (b - a) * (b + a) == b * b - a * a;
  }

  lemma ScaleUp(a: real, b: real, n: real)
    requires a <= b && n >= 0.0
    ensures a * n <= b * n
  {
    ProductSign(b - a, n);
    assert (b - a) * n == b * n - a * n;
  }

  /** (a + b/root) * root is at most 1/2 + 1. */
  lemma RootsShrink(a: real, b: real, root: real, v: real, brier: real, n: real)
    requires n >= 1.0 && root > 0.0 && root * root == n && a >= 0.0 && b >= 0.0
    requires 0.0 <= v <= 0.25 && a * a == v / n && 0.0 <= brier <= 1.0 && b * b == brier
    ensures a + b / root >= 0.0 && (a + b / root) * (a + b / root) * n <= 2.25
  {
    var c, d := a * root, b / root;
    assert c * c == (a * a) * (root * root) by { assert c * c == a * root * (a * root); }
    assert v / n * n == v;
    assert c * c == v;
    ProductSign(a, root);
    SquareBound(c, 0.5);
    SquareBound(b, 1.0);
    QuotientNonNegative(b, root);
    assert d * root == b;
    var x := a + d;
    assert x * root == c + b by { assert x * root == a * root + d * root; }
    assert 0.0 <= c + b <= 1.5;
    SquareOrder(c + b, 1.5);
    assert x * x * n == (x * root) * (x * root) by { assert x * x * (root * root) == (x * root) * (x * root); }
  }
}
