/** An independent definition of what the trainer produces from the two logs: which decisions become
    examples and with which label, which examples belong to a model and a workflow, and the five hundred
    epochs behind every score. */
module TrainingReference {
  import opened Domain
  import opened EvaluationReference
  import opened Fitting
  import opened FittingLaws
  import opened FiniteSums
  import opened Snapshots
  import opened Training

  // ---------- examples ----------

  /** The outcome names a known decision. */
  predicate NamesKnown(o: Outcome, latest: map<string, Decision>) { o.decisionId != "" && o.decisionId in latest }

  /** The outcome labels the decision: the one it names or, if it names none that is known, every production
      decision of its trace. */
  predicate LabelsDecision(o: Outcome, latest: map<string, Decision>, id: string)
  {
    id in latest &&
    ((NamesKnown(o, latest) && id == o.decisionId) ||
     (!NamesKnown(o, latest) && latest[id].trace == o.trace && latest[id].bucket != Shadow))
  }

  ghost predicate Labelling(o: Outcome, latest: map<string, Decision>, kind: string, id: string)
  {
    PyCounts(o, kind) && LabelsDecision(o, latest, id)
  }

  ghost predicate LabelledLast(os: seq<Outcome>, latest: map<string, Decision>, kind: string, id: string, i: nat)
    requires i < |os|
  {
    Labelling(os[i], latest, kind, id) && forall j :: i < j < |os| ==> !Labelling(os[j], latest, kind, id)
  }

  lemma ResolvesIff(o: Outcome, latest: map<string, Decision>, kind: string, id: string)
    ensures Resolves(o, latest, kind, id) <==> Labelling(o, latest, kind, id)
    ensures Resolves(o, latest, kind, id) ==> PyReads(o.value, LabelOf(o))
  {}

  /** The examples of two logs: one for each decision that some outcome labels, with the value of the last
      such outcome. */
  lemma ExamplesMean(os: seq<Outcome>, latest: map<string, Decision>, kind: string, id: string)
    ensures var examples := ExamplesOf(os, latest, kind);
            && (id in examples <==> exists o :: o in os && Labelling(o, latest, kind, id))
            && (id in examples ==> id in latest && examples[id].0 == latest[id])
            && (forall i :: 0 <= i < |os| && LabelledLast(os, latest, kind, id, i) ==>
                  id in examples && PyReads(os[i].value, examples[id].1))
  {
    hide Resolves, ExamplesOf, Labelling, PyReads, LabelOf;
    ExampleIffResolved(os, latest, kind, id);
    ExamplesAreLabelledDecisions(os, latest, kind);
    forall i | 0 <= i < |os|
      ensures Resolves(os[i], latest, kind, id) <==> Labelling(os[i], latest, kind, id)
      ensures Resolves(os[i], latest, kind, id) ==> PyReads(os[i].value, LabelOf(os[i]))
    {
      ResolvesIff(os[i], latest, kind, id);
    }
    if id in ExamplesOf(os, latest, kind) {
      var i :| 0 <= i < |os| && Resolves(os[i], latest, kind, id);
      assert os[i] in os;
    }
    forall i | 0 <= i < |os| && LabelledLast(os, latest, kind, id, i)
      ensures id in ExamplesOf(os, latest, kind) && PyReads(os[i].value, ExamplesOf(os, latest, kind)[id].1)
    {
      LastLabelWins(os, latest, kind, id, i);
    }
  }

  // ---------- models and workflows ----------

  /** The model that answered, or was chosen for, the decision of an example. */
  predicate AnsweredFor(e: Example, m: string) { e.0.final == m != "" || (e.0.final == "" && e.0.selected == m) }

  predicate InWorkflow(e: Example, w: string) { e.0.workflow == w != "" || (e.0.workflow == "" && w == "default") }

  /** Some of the examples, each as often as it is there and in the same order, and no others. */
  function Those(es: seq<Example>, pick: Example -> bool): seq<Example>
  {
    if es == [] then [] else if pick(es[0]) then [es[0]] + Those(es[1..], pick) else Those(es[1..], pick)
  }

  function OfThatModel(m: string): Example -> bool { (e: Example) => AnsweredFor(e, m) }

  function OfThatWorkflow(m: string, w: string): Example -> bool
  {
    (e: Example) => AnsweredFor(e, m) && InWorkflow(e, w)
  }

  lemma {:induction false} ThoseAppend(es: seq<Example>, e: Example, pick: Example -> bool)
    ensures Those(es + [e], pick) == Those(es, pick) + if pick(e) then [e] else []
  {
    if es == [] {
      assert [e][1..] == [];
    } else {
      assert (es + [e])[1..] == es[1..] + [e];
      ThoseAppend(es[1..], e, pick);
    }
  }

  lemma {:induction false} ModelExamplesMean(es: seq<Example>, m: string, w: string)
    ensures OfModel(es, m) == Those(es, OfThatModel(m))
    ensures OfWorkflow(OfModel(es, m), w) == Those(es, OfThatWorkflow(m, w))
  {
    if es != [] {
      var n := |es| - 1;
      assert es == es[..n] + [es[n]];
      ModelExamplesMean(es[..n], m, w);
      ThoseAppend(es[..n], es[n], OfThatModel(m));
      ThoseAppend(es[..n], es[n], OfThatWorkflow(m, w));
      OneMoreExample(es[..n], es[n], m);
      OneMoreInWorkflow(OfModel(es[..n], m), es[n], w);
      hide OfModel, OfWorkflow, Those;
      assert ModelOf(es[n]) == m <==> AnsweredFor(es[n], m);
      assert WorkflowOf(es[n]) == w <==> InWorkflow(es[n], w);
    }
  }

  // ---------- the scores ----------

  /** The starting point: no weights, and the log-odds of one success and one failure more than observed. */
  ghost predicate StartsAt(m: Fit, es: seq<Example>, log: real -> real)
  {
    var share := (SumList(es, LabelOfExample()) + 1.0) / (|es| + 2) as real;
    |m.weights| == 7 && share < 1.0 && m.bias == log(share / (1.0 - share)) &&
    forall j :: 0 <= j < 7 ==> m.weights[j] == 0.0
  }

  /** One epoch at rate 0.03 with a decay of 0.01, downhill. */
  ghost predicate StepsTo(m: Fit, next: Fit, es: seq<Example>, sigmoid: real -> real)
    requires es != []
  {
    && |m.weights| == |next.weights| == 7
    && next.bias == m.bias - 0.03 * Mean(es, Excess(m, sigmoid))
    && forall j :: 0 <= j < 7 ==>
         next.weights[j] == m.weights[j] - 0.03 * (Mean(es, ExcessTimes(m, sigmoid, j)) + 0.01 * m.weights[j])
  }

  /** What a score reports of the last fit. */
  ghost predicate Reports(score: ModelScore, m: Fit, es: seq<Example>, f: Numerics)
    requires es != []
  {
    && |m.weights| == 7 && score.samples == |es| && score.bias == m.bias
    && score.successRate * |es| as real == SumList(es, LabelOfExample())
    && score.weights == map["input_tokens_k" := m.weights[0], "expected_output_tokens_k" := m.weights[1],
                            "message_count" := m.weights[2], "tool_count" := m.weights[3], "has_vision" := m.weights[4],
                            "has_structured_output" := m.weights[5], "risk" := m.weights[6]]
    && score.uncertainty ==
       Bounds(Spread(score.successRate, Mean(es, SquaredExcess(m, f.sigmoid)), |es| as real, f.sqrt))
  }

  /** The score was fitted on exactly these examples, in five hundred epochs. */
  ghost predicate FittedOn(score: ModelScore, es: seq<Example>, f: Numerics)
  {
    es != [] &&
    exists fits: seq<Fit> ::
      && |fits| == 501 && StartsAt(fits[0], es, f.log) && Reports(score, fits[500], es, f)
      && forall k :: 0 <= k < 500 ==> StepsTo(fits[k], fits[k + 1], es, f.sigmoid)
  }

  function Fits(es: seq<Example>, f: Numerics): seq<Fit>
    requires Labels(es) && es != []
  {
    seq(501, (k: nat) => Descend(InitialFit(es, f.log), es, Rates(0.03, 0.01), f.sigmoid, k))
  }

  lemma FitStepsOn(es: seq<Example>, f: Numerics, k: nat)
    requires Labels(es) && es != [] && k < 500
    ensures StepsTo(Fits(es, f)[k], Fits(es, f)[k + 1], es, f.sigmoid)
  {
    hide Mean, Epoch, Labels, InitialFit, Axis;
    var r := Rates(0.03, 0.01);
    var m := Descend(InitialFit(es, f.log), es, r, f.sigmoid, k);
    forall j: nat | j < 7
      ensures Epoch(m, es, r, f.sigmoid).weights[j] ==
              m.weights[j] - 0.03 * (Mean(es, ExcessTimes(m, f.sigmoid, j)) + 0.01 * m.weights[j])
    {
      EpochMeans(m, es, r, f.sigmoid, j);
    }
    EpochMeans(m, es, r, f.sigmoid, 0);
  }

  lemma TrainedMeans(es: seq<Example>, f: Numerics)
    requires Labels(es) && es != []
    ensures FittedOn(Trained(es, f), es, f)
  {
    hide StepsTo, StartsAt, Descend, Labels, InitialFit, ScoreAt;
    var fits := Fits(es, f);
    FirstFit(es, f);
    assert Reports(Trained(es, f), fits[500], es, f) by {
      hide SumList, Mean, Spread, Bounds, ScoreAt;
      ScoreMeans(fits[500], es, f.sigmoid, f.sqrt);
      NamedMeans(fits[500].weights);
    }
    forall k: nat | k < 500
      ensures StepsTo(fits[k], fits[k + 1], es, f.sigmoid)
    {
      FitStepsOn(es, f, k);
    }
  }

  lemma FirstFit(es: seq<Example>, f: Numerics)
    requires Labels(es) && es != []
    ensures StartsAt(Fits(es, f)[0], es, f.log)
  {
    hide SumList, InitialFit, Labels;
    StartMeans(es, f.log);
  }

  /** A snapshot holds a score for exactly the models with examples, fitted on all of their examples, and for
      exactly the models and workflows with enough of them, fitted on those. */
  lemma SnapshotMeans(es: seq<Example>, minimum: nat, f: Numerics, overall: map<string, ModelScore>,
                      byWorkflow: map<string, map<string, ModelScore>>, w: string, m: string)
    requires Labels(es) && IsSnapshot(es, minimum, f, overall, byWorkflow)
    ensures var all, some := Those(es, OfThatModel(m)), Those(es, OfThatWorkflow(m, w));
            && (m in overall <==> m != "" && all != []) && (m in overall ==> FittedOn(overall[m], all, f))
            && (w in byWorkflow && m in byWorkflow[w] <==> m != "" && some != [] && |some| >= minimum)
            && (w in byWorkflow && m in byWorkflow[w] ==> FittedOn(byWorkflow[w][m], some, f))
  {
    hide OfModel, OfWorkflow, Those, Trained, FittedOn, Labels;
    ModelExamplesMean(es, m, w);
    assert HasScore(byWorkflow, w, m) <==> Frequent(es, w, m, minimum);
    if m in overall { TrainedMeans(OfModel(es, m), f); }
    if HasScore(byWorkflow, w, m) { TrainedMeans(OfWorkflow(OfModel(es, m), w), f); }
  }
}
