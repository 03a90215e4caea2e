/** train_snapshot of python/src/outcome_router/training.py: from the two logs to the fitted scores. */
module Snapshots {
  import opened Domain
  import opened Fitting
  import opened Records
  import opened Sequences
  import opened Training

  const EPOCHS := 500
  const RATES := Rates(0.03, 0.01)

  /** The numeric functions the fit takes from the platform. */
  datatype Numerics = Numerics(sigmoid: real -> real, log: real -> real, sqrt: real -> real)

  function Trained(es: seq<Example>, f: Numerics): ModelScore
    requires Labels(es) && es != []
  {
    ScoreOf(es, EPOCHS, RATES, f.sigmoid, f.log, f.sqrt)
  }

  ghost predicate Fittable(lists: map<string, seq<Example>>)
  {
    forall m :: m in lists ==> lists[m] != [] && Labels(lists[m])
  }

  /** One score for every list that is long enough. */
  ghost function Scores(lists: map<string, seq<Example>>, minimum: nat, f: Numerics): map<string, ModelScore>
    requires Fittable(lists)
  {
    map m | m in lists && |lists[m]| >= minimum :: Trained(lists[m], f)
  }

  method FitAll(lists: map<string, seq<Example>>, minimum: nat, f: Numerics) returns (scores: map<string, ModelScore>)
    requires Fittable(lists)
    ensures scores == Scores(lists, minimum, f)
  {
    hide Labels, ScoreOf;
    scores := map[];
    var remaining := lists.Keys;
    while remaining != {}
      invariant remaining <= lists.Keys
      invariant scores == map m | m in lists && m !in remaining && |lists[m]| >= minimum :: Trained(lists[m], f)
      decreases remaining
    {
      var m :| m in remaining;
      remaining := remaining - {m};
      if |lists[m]| >= minimum {
        var score := FitLogistic(lists[m], EPOCHS, RATES, f.sigmoid, f.log, f.sqrt);
        scores := scores[m := score.value];
      }
    }
  }

  /** `es` lists every labelled decision once. */
  ghost predicate ListsExamples(es: seq<Example>, labelled: Labelled)
  {
    NoDuplicates(es) && forall e :: e in es <==> exists id :: id in labelled && labelled[id] == e
  }

  method ListExamples(labelled: Labelled) returns (es: seq<Example>)
    requires forall id :: id in labelled ==> labelled[id].0.id == id
    ensures ListsExamples(es, labelled)
  {
    es := [];
    var remaining := labelled.Keys;
    while remaining != {}
      invariant remaining <= labelled.Keys && NoDuplicates(es)
      invariant forall e :: e in es <==> exists id :: id in labelled && id !in remaining && labelled[id] == e
      decreases remaining
    {
      var id :| id in remaining;
      assert labelled[id] !in es;
      remaining := remaining - {id};
      es := es + [labelled[id]];
    }
  }

  lemma {:induction false} OfModelInside(es: seq<Example>, m: string)
    ensures forall e :: e in OfModel(es, m) <==> e in es && ModelOf(e) == m
  {
    hide ModelOf;
    if es != [] {
      var n := |es| - 1;
      OfModelInside(es[..n], m);
      assert es == es[..n] + [es[n]];
    }
  }

  /** What the trainer leaves: a score for every model that answered an example, fitted on all examples of
      that model; and one for every model and workflow with at least `minimum` examples, fitted on those. */
  ghost predicate IsSnapshot(es: seq<Example>, minimum: nat, f: Numerics, overall: map<string, ModelScore>,
                             byWorkflow: map<string, map<string, ModelScore>>)
    requires Labels(es)
  {
    && (forall m :: m in overall <==> m != "" && OfModel(es, m) != [])
    && (forall m :: m in overall ==> Labels(OfModel(es, m)) && overall[m] == Trained(OfModel(es, m), f))
    && (forall w :: w in byWorkflow ==> byWorkflow[w] != map[])
    && (forall w, m :: HasScore(byWorkflow, w, m) <==> Frequent(es, w, m, minimum))
    && (forall w, m :: HasScore(byWorkflow, w, m) ==>
          var mine := OfWorkflow(OfModel(es, m), w);
          mine != [] && Labels(mine) && byWorkflow[w][m] == Trained(mine, f))
  }

  predicate HasScore(byWorkflow: map<string, map<string, ModelScore>>, w: string, m: string)
  {
    w in byWorkflow && m in byWorkflow[w]
  }

  predicate Frequent(es: seq<Example>, w: string, m: string, minimum: nat)
  {
    var mine := OfWorkflow(OfModel(es, m), w); m != "" && mine != [] && |mine| >= minimum
  }

  lemma LabelsInside(es: seq<Example>, some: seq<Example>)
    requires Labels(es) && forall e :: e in some ==> e in es
    ensures Labels(some)
  {}

  /** Every list of the split can be fitted: its labels are proportions. */
  lemma SplitIsFittable(byModel: map<string, seq<Example>>, byWorkflow: map<string, map<string, seq<Example>>>,
                        es: seq<Example>)
    requires Labels(es) && Split(byModel, byWorkflow, es)
    ensures Fittable(byModel) && forall w :: Fittable(Inner(byWorkflow, w))
  {
    hide Labels, OfModel, OfWorkflow, ModelOf, WorkflowOf;
    forall m | m in byModel
      ensures Labels(byModel[m])
    {
      assert ListIn(byModel, m) == OfModel(es, m);
      OfModelInside(es, m);
      LabelsInside(es, byModel[m]);
    }
    forall w, m | m in Inner(byWorkflow, w)
      ensures Inner(byWorkflow, w)[m] != [] && Labels(Inner(byWorkflow, w)[m])
    {
      assert NoEmptyLists(Inner(byWorkflow, w));
      assert ListIn(Inner(byWorkflow, w), m) == OfWorkflow(OfModel(es, m), w);
      OfModelInside(es, m);
      OnlyOwnWorkflow(OfModel(es, m), w);
      LabelsInside(es, Inner(byWorkflow, w)[m]);
    }
  }

  /** The whole of train_snapshot, from the logs to the scores. */
  method TrainSnapshot(decisions: seq<Decision>, outcomes: seq<Outcome>, kind: string, minimum: nat, f: Numerics)
    returns (overall: map<string, ModelScore>, byWorkflow: map<string, map<string, ModelScore>>, es: seq<Example>)
    ensures ListsExamples(es, ExamplesOf(outcomes, Latest(decisions), kind)) && Labels(es)
    ensures IsSnapshot(es, minimum, f, overall, byWorkflow)
  {
    hide Labels, Split, ExamplesOf, OfModel, OfWorkflow, Scores, ListsExamples, IsSnapshot;
    var labelled := JoinExamples(decisions, outcomes, kind);
    JoinedLabels(decisions, outcomes, kind);
    es := ListExamples(labelled);
    ListedLabels(es, labelled);
    var byModel, lists := SplitExamples(es);
    SplitIsFittable(byModel, lists, es);
    overall := FitAll(byModel, 0, f);
    byWorkflow := map[];
    var remaining := lists.Keys;
    while remaining != {}
      invariant remaining <= lists.Keys
      invariant forall w :: w in byWorkflow ==> w in lists && w !in remaining
      invariant forall w :: w in lists && w !in remaining ==>
                  Fittable(lists[w]) && ScoresIn(byWorkflow, w) == Scores(lists[w], minimum, f)
      invariant forall w :: w in byWorkflow ==> byWorkflow[w] != map[]
      decreases remaining
    {
      var w :| w in remaining;
      remaining := remaining - {w};
      assert Inner(lists, w) == lists[w];
      var scores := FitAll(lists[w], minimum, f);
      if scores != map[] { byWorkflow := byWorkflow[w := scores]; }
    }
    SnapshotFromLists(es, minimum, f, byModel, lists, overall, byWorkflow);
  }

  function ScoresIn(byWorkflow: map<string, map<string, ModelScore>>, w: string): map<string, ModelScore>
  {
    if w in byWorkflow then byWorkflow[w] else map[]
  }

  lemma JoinedLabels(decisions: seq<Decision>, outcomes: seq<Outcome>, kind: string)
    ensures var labelled := ExamplesOf(outcomes, Latest(decisions), kind);
            forall id :: id in labelled ==> labelled[id].0.id == id && 0.0 <= labelled[id].1 <= 1.0
  {
    hide ExamplesOf, Latest;
    ExamplesAreLabelledDecisions(outcomes, Latest(decisions), kind);
    ReplayIsKeyed(decisions);
  }

  lemma ListedLabels(es: seq<Example>, labelled: Labelled)
    requires ListsExamples(es, labelled) && forall id :: id in labelled ==> 0.0 <= labelled[id].1 <= 1.0
    ensures Labels(es)
  {}

  lemma SnapshotFromLists(es: seq<Example>, minimum: nat, f: Numerics, byModel: map<string, seq<Example>>,
                          lists: map<string, map<string, seq<Example>>>, overall: map<string, ModelScore>,
                          byWorkflow: map<string, map<string, ModelScore>>)
    requires Labels(es) && Split(byModel, lists, es) && Fittable(byModel) && overall == Scores(byModel, 0, f)
    requires forall w :: w in byWorkflow ==> w in lists && byWorkflow[w] != map[]
    requires forall w :: w in lists ==> Fittable(lists[w]) && ScoresIn(byWorkflow, w) == Scores(lists[w], minimum, f)
    ensures IsSnapshot(es, minimum, f, overall, byWorkflow)
  {
    hide Labels, OfModel, OfWorkflow, Trained;
    forall m
      ensures m in overall <==> m != "" && OfModel(es, m) != []
      ensures m in overall ==> Labels(OfModel(es, m)) && overall[m] == Trained(OfModel(es, m), f)
    {
      if m != "" { assert ListIn(byModel, m) == OfModel(es, m); }
    }
    forall w, m
      ensures HasScore(byWorkflow, w, m) <==> Frequent(es, w, m, minimum)
      ensures HasScore(byWorkflow, w, m) ==>
                var mine := OfWorkflow(OfModel(es, m), w);
                mine != [] && Labels(mine) && byWorkflow[w][m] == Trained(mine, f)
    {
      WorkflowScore(es, minimum, f, byModel, lists, byWorkflow, w, m);
    }
  }

  lemma WorkflowScore(es: seq<Example>, minimum: nat, f: Numerics, byModel: map<string, seq<Example>>,
                      lists: map<string, map<string, seq<Example>>>, byWorkflow: map<string, map<string, ModelScore>>,
                      w: string, m: string)
    requires Split(byModel, lists, es)
    requires forall v :: v in byWorkflow ==> v in lists
    requires w in lists ==> Fittable(lists[w]) && ScoresIn(byWorkflow, w) == Scores(lists[w], minimum, f)
    ensures HasScore(byWorkflow, w, m) <==> Frequent(es, w, m, minimum)
    ensures HasScore(byWorkflow, w, m) ==>
              var mine := OfWorkflow(OfModel(es, m), w);
              mine != [] && Labels(mine) && byWorkflow[w][m] == Trained(mine, f)
  {
    hide Labels, OfModel, OfWorkflow, Trained;
    assert NoEmptyLists(Inner(lists, w));
    if m != "" {
      assert ListIn(byModel, m) == OfModel(es, m);
      assert ListIn(Inner(lists, w), m) == OfWorkflow(OfModel(es, m), w);
      assert m in ScoresIn(byWorkflow, w) <==> m in Inner(lists, w) && |Inner(lists, w)[m]| >= minimum;
    } else {
      assert m !in ScoresIn(byWorkflow, w);
    }
  }

  /** Whatever the logs contain, every trained score is fit for the router: it has samples, a success rate
      in [0, 1] and an uncertainty the router's clamp leaves alone, and with features of size at most
      `bound` its bias is within 15 of the prior log-odds and every weight within 15 bounds. */
  lemma SnapshotScoresAreBounded(es: seq<Example>, minimum: nat, f: Numerics, overall: map<string, ModelScore>,
                                 byWorkflow: map<string, map<string, ModelScore>>, bound: real, w: string, m: string)
    requires Labels(es) && IsSnapshot(es, minimum, f, overall, byWorkflow)
    requires IsSigmoid(f.sigmoid) && Bounded(es, bound) && bound >= 0.0
    ensures m in overall ==> SoundScore(OfModel(es, m), f, overall[m], bound)
    ensures HasScore(byWorkflow, w, m) ==>
              SoundScore(OfWorkflow(OfModel(es, m), w), f, byWorkflow[w][m], bound) &&
                byWorkflow[w][m].samples >= minimum
  {
    hide Labels, OfModel, OfWorkflow, Trained, IsSigmoid, Bounded, SoundScore;
    OfModelInside(es, m);
    OnlyOwnWorkflow(OfModel(es, m), w);
    if m in overall { TrainedIsSound(es, OfModel(es, m), f, bound); }
    if HasScore(byWorkflow, w, m) {
      assert Frequent(es, w, m, minimum);
      TrainedIsSound(es, OfWorkflow(OfModel(es, m), w), f, bound);
    }
  }

  ghost predicate SoundScore(es: seq<Example>, f: Numerics, score: ModelScore, bound: real)
  {
    && Labels(es) && score.samples == |es| > 0 && 0.0 <= score.successRate <= 1.0
    && Clamp(score.uncertainty, 0.005, 0.5) == score.uncertainty
    && Abs(score.bias - InitialFit(es, f.log).bias) <= 15.0
    && forall name :: name in score.weights ==> Abs(score.weights[name]) <= 15.0 * bound
  }

  lemma TrainedIsSound(es: seq<Example>, mine: seq<Example>, f: Numerics, bound: real)
    requires Labels(es) && IsSigmoid(f.sigmoid) && Bounded(es, bound) && bound >= 0.0
    requires mine != [] && Labels(mine) && forall e :: e in mine ==> e in es
    ensures SoundScore(mine, f, Trained(mine, f), bound) && Trained(mine, f).samples == |mine|
  {
    assert Bounded(mine, bound);
    assert Steps(EPOCHS, RATES) == 15.0 && ByStep(EPOCHS, RATES, bound) == 15.0 * bound;
    hide ScoreOf, Bounded, Labels, IsSigmoid, ByDecay, Steps, ByStep;
    ScoreIsBounded(mine, EPOCHS, RATES, f.sigmoid, f.log, f.sqrt, bound);
  }
}
