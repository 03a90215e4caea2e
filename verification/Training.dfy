/** The offline trainer of python/src/outcome_router/training.py: joining outcomes to decisions and
    splitting the examples. */
module Training {
  import opened Domain
  import opened Records
  import opened Evaluation

  type Labelled = map<string, (Decision, real)>

  /** Which latest decision an outcome labels: the one it names if there is one, otherwise every
      production decision of its trace. */
  predicate Resolves(o: Outcome, latest: map<string, Decision>, kind: string, id: string)
  {
    && o.kind == kind && PyValue(o.value).Some? && id in latest
    && if o.decisionId != "" && o.decisionId in latest then o.decisionId == id
       else latest[id].trace == o.trace && latest[id].bucket != Shadow
  }

  function LabelOf(o: Outcome): real { match PyValue(o.value) case Some(v) => v case None => 0.0 }

  function LabelsFrom(o: Outcome, latest: map<string, Decision>, kind: string): Labelled
  {
    map id | id in latest && Resolves(o, latest, kind, id) :: (latest[id], LabelOf(o))
  }

  /** Later labels replace earlier ones. */
  function ExamplesOf(os: seq<Outcome>, latest: map<string, Decision>, kind: string): Labelled
  {
    if os == [] then map[] else
      ExamplesOf(os[..|os| - 1], latest, kind) + LabelsFrom(os[|os| - 1], latest, kind)
  }

  ghost predicate Resolved(os: seq<Outcome>, latest: map<string, Decision>, kind: string, id: string)
  {
    exists i :: 0 <= i < |os| && Resolves(os[i], latest, kind, id)
  }

  lemma LabelsFromFacts(o: Outcome, latest: map<string, Decision>, kind: string, id: string)
    ensures id in LabelsFrom(o, latest, kind) <==> Resolves(o, latest, kind, id)
    ensures Resolves(o, latest, kind, id) ==>
              id in latest && LabelsFrom(o, latest, kind)[id] == (latest[id], LabelOf(o))
  {}

  /** A decision becomes an example iff some outcome resolves to it, and at most once: it is a key. */
  lemma {:induction false} ExampleIffResolved(os: seq<Outcome>, latest: map<string, Decision>, kind: string, id: string)
    ensures id in ExamplesOf(os, latest, kind) <==> Resolved(os, latest, kind, id)
  {
    hide Resolves, LabelsFrom;
    if os != [] {
      var n := |os| - 1;
      ExampleIffResolved(os[..n], latest, kind, id);
      LabelsFromFacts(os[n], latest, kind, id);
      assert forall i :: 0 <= i < n ==> os[..n][i] == os[i];
    }
  }

  /** Its label is that of the last outcome that resolves to it. */
  lemma {:induction false} LastLabelWins(os: seq<Outcome>, latest: map<string, Decision>, kind: string, id: string,
                                         i: nat)
    requires i < |os| && Resolves(os[i], latest, kind, id)
    requires forall j :: i < j < |os| ==> !Resolves(os[j], latest, kind, id)
    ensures id in latest && id in ExamplesOf(os, latest, kind) &&
            ExamplesOf(os, latest, kind)[id] == (latest[id], LabelOf(os[i]))
  {
    hide Resolves, LabelsFrom;
    var n := |os| - 1;
    LabelsFromFacts(os[n], latest, kind, id);
    if i < n {
      assert forall j :: 0 <= j < n ==> os[..n][j] == os[j];
      LastLabelWins(os[..n], latest, kind, id, i);
    }
  }

  /** A production trace outcome is never assigned to a shadow response: a shadow is an example only
      if some outcome names it. */
  lemma ShadowsNeedTheirOwnLabel(os: seq<Outcome>, latest: map<string, Decision>, kind: string, id: string)
    requires id in ExamplesOf(os, latest, kind) && id in latest && latest[id].bucket == Shadow
    ensures exists o :: o in os && o.decisionId == id && o.kind == kind
  {
    ExampleIffResolved(os, latest, kind, id);
    var i :| 0 <= i < |os| && Resolves(os[i], latest, kind, id);
    assert os[i] in os;
  }

  lemma LabelIsProportion(o: Outcome)
    ensures 0.0 <= LabelOf(o) <= 1.0
  {}

  lemma {:induction false} ExamplesAreLabelledDecisions(os: seq<Outcome>, latest: map<string, Decision>, kind: string)
    ensures forall id :: id in ExamplesOf(os, latest, kind) ==>
              id in latest && ExamplesOf(os, latest, kind)[id].0 == latest[id] &&
                0.0 <= ExamplesOf(os, latest, kind)[id].1 <= 1.0
  {
    hide Resolves, LabelsFrom, LabelOf;
    if os != [] {
      var n := |os| - 1;
      ExamplesAreLabelledDecisions(os[..n], latest, kind);
      forall id
        ensures id in LabelsFrom(os[n], latest, kind) ==>
                  id in latest && LabelsFrom(os[n], latest, kind)[id] == (latest[id], LabelOf(os[n]))
      {
        LabelsFromFacts(os[n], latest, kind, id);
      }
      LabelIsProportion(os[n]);
    }
  }

  /** by_trace: the latest decisions of each trace, shadows included. */
  ghost predicate IndexesTraces(byTrace: map<string, seq<Decision>>, latest: map<string, Decision>, ids: set<string>)
  {
    && (forall t, d :: t in byTrace && d in byTrace[t] ==>
          d.id in ids && d.id in latest && d == latest[d.id] && d.trace == t)
    && (forall id :: id in ids ==>
          id in latest && latest[id].trace in byTrace && latest[id] in byTrace[latest[id].trace])
  }

  lemma IndexStep(byTrace: map<string, seq<Decision>>, latest: map<string, Decision>, ids: set<string>, d: Decision)
    requires IndexesTraces(byTrace, latest, ids) && d.id in latest && latest[d.id] == d
    ensures var earlier := if d.trace in byTrace then byTrace[d.trace] else [];
            IndexesTraces(byTrace[d.trace := earlier + [d]], latest, ids + {d.id})
  {
    var earlier := if d.trace in byTrace then byTrace[d.trace] else [];
    var after := byTrace[d.trace := earlier + [d]];
    forall id | id in ids
      ensures latest[id].trace in after && latest[id] in after[latest[id].trace]
    {}
  }

  method IndexTraces(latest: map<string, Decision>) returns (byTrace: map<string, seq<Decision>>)
    requires Keyed(latest)
    ensures IndexesTraces(byTrace, latest, latest.Keys)
  {
    byTrace := map[];
    var remaining := latest.Keys;
    ghost var done: set<string> := {};
    assert IndexesTraces(byTrace, latest, done);
    hide IndexesTraces;
    while remaining != {}
      invariant remaining <= latest.Keys && done == latest.Keys - remaining
      invariant IndexesTraces(byTrace, latest, done)
      decreases remaining
    {
      var id :| id in remaining;
      var decision := latest[id];
      IndexStep(byTrace, latest, done, decision);
      var earlier := if decision.trace in byTrace then byTrace[decision.trace] else [];
      byTrace := byTrace[decision.trace := earlier + [decision]];
      remaining, done := remaining - {id}, done + {id};
    }
    assert done == latest.Keys;
  }

  function ProductionIds(trace: seq<Decision>): set<string> { set d | d in trace && d.bucket != Shadow :: d.id }

  function Relabel(ids: set<string>, latest: map<string, Decision>, value: real): Labelled
  {
    map id | id in ids && id in latest :: (latest[id], value)
  }

  /** Every production decision of the trace gets this value. */
  method LabelTrace(trace: seq<Decision>, value: real, examples: Labelled, ghost latest: map<string, Decision>)
    returns (labelled: Labelled)
    requires forall d :: d in trace ==> d.id in latest && latest[d.id] == d
    ensures labelled == examples + Relabel(ProductionIds(trace), latest, value)
  {
    hide Relabel, ProductionIds;
    labelled := examples;
    ghost var done: seq<Decision> := [];
    NothingRelabelled(examples, latest, value);
    for i := 0 to |trace|
      invariant done == trace[..i] && labelled == examples + Relabel(ProductionIds(done), latest, value)
    {
      var decision := trace[i];
      RelabelStep(examples, done, decision, latest, value);
      done := done + [decision];
      if decision.bucket != Shadow { labelled := labelled[decision.id := (decision, value)]; }
    }
    assert done == trace;
  }

  lemma NothingRelabelled(examples: Labelled, latest: map<string, Decision>, value: real)
    ensures examples + Relabel(ProductionIds([]), latest, value) == examples
  {}

  lemma RelabelStep(examples: Labelled, done: seq<Decision>, d: Decision, latest: map<string, Decision>, value: real)
    requires d.id in latest && latest[d.id] == d
    ensures var before := examples + Relabel(ProductionIds(done), latest, value);
            examples + Relabel(ProductionIds(done + [d]), latest, value) ==
            if d.bucket != Shadow then before[d.id := (d, value)] else before
  {
    hide ProductionIds;
    ProductionIdsStep(done, d);
    RelabelOne(ProductionIds(done), d, latest, value);
  }

  lemma ProductionIdsStep(done: seq<Decision>, d: Decision)
    ensures ProductionIds(done + [d]) == ProductionIds(done) + if d.bucket != Shadow then {d.id} else {}
  {}

  lemma RelabelOne(ids: set<string>, d: Decision, latest: map<string, Decision>, value: real)
    requires d.id in latest && latest[d.id] == d
    ensures Relabel(ids + {d.id}, latest, value) == Relabel(ids, latest, value)[d.id := (d, value)]
    ensures Relabel(ids + {}, latest, value) == Relabel(ids, latest, value)
  {}

  method JoinExamples(decisions: seq<Decision>, outcomes: seq<Outcome>, kind: string) returns (examples: Labelled)
    ensures examples == ExamplesOf(outcomes, Latest(decisions), kind)
  {
    hide LabelsFrom, IndexesTraces, Relabel, Keyed;
    var latest := LatestById(decisions);
    ReplayIsKeyed(decisions);
    var byTrace := IndexTraces(latest);
    examples := map[];
    for i := 0 to |outcomes|
      invariant examples == ExamplesOf(outcomes[..i], latest, kind)
    {
      var outcome := outcomes[i];
      assert outcomes[..i + 1][..i] == outcomes[..i];
      NoLabels(outcome, latest, kind);
      assert examples + map[] == examples;
      if outcome.kind != kind { continue; }
      var value;
      match PyValue(outcome.value) {
        case None => continue;
        case Some(v) => value := v;
      }
      if outcome.decisionId != "" && outcome.decisionId in latest {
        NamedLabel(outcome, latest, kind);
        examples := examples[outcome.decisionId := (latest[outcome.decisionId], value)];
        continue;
      }
      var trace := if outcome.trace in byTrace then byTrace[outcome.trace] else [];
      TraceLabels(outcome, latest, kind, byTrace, trace);
      examples := LabelTrace(trace, value, examples, latest);
    }
    assert outcomes[..|outcomes|] == outcomes;
  }

  lemma NoLabels(o: Outcome, latest: map<string, Decision>, kind: string)
    ensures o.kind != kind || PyValue(o.value) == None ==> LabelsFrom(o, latest, kind) == map[]
  {}

  lemma NamedLabel(o: Outcome, latest: map<string, Decision>, kind: string)
    requires o.kind == kind && PyValue(o.value).Some? && o.decisionId != "" && o.decisionId in latest
    ensures LabelsFrom(o, latest, kind) == map[o.decisionId := (latest[o.decisionId], LabelOf(o))]
  {}

  lemma TraceLabels(o: Outcome, latest: map<string, Decision>, kind: string, byTrace: map<string, seq<Decision>>,
                    trace: seq<Decision>)
    requires Keyed(latest) && IndexesTraces(byTrace, latest, latest.Keys)
    requires o.kind == kind && PyValue(o.value).Some? && !(o.decisionId != "" && o.decisionId in latest)
    requires trace == if o.trace in byTrace then byTrace[o.trace] else []
    ensures forall d :: d in trace ==> d.id in latest && latest[d.id] == d
    ensures LabelsFrom(o, latest, kind) == Relabel(ProductionIds(trace), latest, LabelOf(o))
  {
    forall id | id in latest
      ensures id in ProductionIds(trace) <==> Resolves(o, latest, kind, id)
    {
      if Resolves(o, latest, kind, id) { assert latest[id] in trace; }
    }
  }

  // ---------- splitting the examples ----------

  type Example = (Decision, real)

  function ModelOf(e: Example): string { if e.0.final != "" then e.0.final else e.0.selected }

  function WorkflowOf(e: Example): string { if e.0.workflow != "" then e.0.workflow else "default" }

  function OfModel(examples: seq<Example>, model: string): seq<Example>
  {
    if examples == [] then [] else
      var e := examples[|examples| - 1];
      OfModel(examples[..|examples| - 1], model) + if ModelOf(e) == model then [e] else []
  }

  function OfWorkflow(examples: seq<Example>, workflow: string): seq<Example>
  {
    if examples == [] then [] else
      var e := examples[|examples| - 1];
      OfWorkflow(examples[..|examples| - 1], workflow) + if WorkflowOf(e) == workflow then [e] else []
  }

  function ListIn(m: map<string, seq<Example>>, key: string): seq<Example> { if key in m then m[key] else [] }

  function Inner(m: map<string, map<string, seq<Example>>>, key: string): map<string, seq<Example>>
  {
    if key in m then m[key] else map[]
  }

  ghost predicate NoEmptyLists(lists: map<string, seq<Example>>)
  {
    forall m :: m in lists ==> m != "" && lists[m] != []
  }

  ghost predicate SplitsModels(byModel: map<string, seq<Example>>, examples: seq<Example>)
  {
    NoEmptyLists(byModel) && forall m :: m != "" ==> ListIn(byModel, m) == OfModel(examples, m)
  }

  ghost predicate SplitsWorkflows(byModel: map<string, seq<Example>>,
                                  byWorkflow: map<string, map<string, seq<Example>>>)
  {
    && (forall w :: NoEmptyLists(Inner(byWorkflow, w)))
    && (forall w, m :: m != "" ==> ListIn(Inner(byWorkflow, w), m) == OfWorkflow(ListIn(byModel, m), w))
  }

  ghost predicate Split(byModel: map<string, seq<Example>>, byWorkflow: map<string, map<string, seq<Example>>>,
                        examples: seq<Example>)
  {
    SplitsModels(byModel, examples) && SplitsWorkflows(byModel, byWorkflow)
  }

  /** Every model's examples are divided among the workflows: list by list, in order, nothing lost
      and nothing in two lists. */
  method SplitExamples(examples: seq<Example>)
    returns (byModel: map<string, seq<Example>>, byWorkflow: map<string, map<string, seq<Example>>>)
    ensures Split(byModel, byWorkflow, examples)
  {
    hide ModelOf, WorkflowOf, Split;
    byModel, byWorkflow := map[], map[];
    NothingSplit();
    ghost var done: seq<Example> := [];
    for i := 0 to |examples|
      invariant done == examples[..i] && Split(byModel, byWorkflow, done)
    {
      var e := examples[i];
      var model, workflow := ModelOf(e), WorkflowOf(e);
      SplitStep(byModel, byWorkflow, done, e);
      done := done + [e];
      if model == "" { continue; }
      var inner := Inner(byWorkflow, workflow);
      byModel := byModel[model := ListIn(byModel, model) + [e]];
      byWorkflow := byWorkflow[workflow := inner[model := ListIn(inner, model) + [e]]];
    }
    assert done == examples;
  }

  lemma NothingSplit()
    ensures Split(map[], map[], [])
  {}

  lemma SplitStep(byModel: map<string, seq<Example>>, byWorkflow: map<string, map<string, seq<Example>>>,
                  done: seq<Example>, e: Example)
    requires Split(byModel, byWorkflow, done)
    ensures var model, workflow := ModelOf(e), WorkflowOf(e); var inner := Inner(byWorkflow, workflow);
            if model == "" then Split(byModel, byWorkflow, done + [e])
            else Split(byModel[model := ListIn(byModel, model) + [e]],
                       byWorkflow[workflow := inner[model := ListIn(inner, model) + [e]]], done + [e])
  {
    hide ModelOf, WorkflowOf, SplitsModels, SplitsWorkflows;
    SplitModelsStep(byModel, done, e);
    if ModelOf(e) != "" { SplitWorkflowsStep(byModel, byWorkflow, e); }
  }

  lemma SplitModelsStep(byModel: map<string, seq<Example>>, done: seq<Example>, e: Example)
    requires SplitsModels(byModel, done)
    ensures var model := ModelOf(e);
            if model == "" then SplitsModels(byModel, done + [e])
            else SplitsModels(byModel[model := ListIn(byModel, model) + [e]], done + [e])
  {
    hide ModelOf, OfModel;
    forall m
      ensures OfModel(done + [e], m) == if ModelOf(e) == m then OfModel(done, m) + [e] else OfModel(done, m)
    {
      OneMoreExample(done, e, m);
    }
  }

  lemma SplitWorkflowsStep(byModel: map<string, seq<Example>>, byWorkflow: map<string, map<string, seq<Example>>>,
                           e: Example)
    requires SplitsWorkflows(byModel, byWorkflow) && ModelOf(e) != ""
    ensures var model, workflow := ModelOf(e), WorkflowOf(e); var inner := Inner(byWorkflow, workflow);
            SplitsWorkflows(byModel[model := ListIn(byModel, model) + [e]],
                            byWorkflow[workflow := inner[model := ListIn(inner, model) + [e]]])
  {
    hide ModelOf, WorkflowOf, OfWorkflow, ListIn;
    var model, workflow := ModelOf(e), WorkflowOf(e);
    var inner := Inner(byWorkflow, workflow);
    var byModel' := byModel[model := ListIn(byModel, model) + [e]];
    var byWorkflow' := byWorkflow[workflow := inner[model := ListIn(inner, model) + [e]]];
    forall w
      ensures NoEmptyLists(Inner(byWorkflow', w))
    {
      assert NoEmptyLists(Inner(byWorkflow, w));
    }
    forall w, m | m != ""
      ensures ListIn(Inner(byWorkflow', w), m) == OfWorkflow(ListIn(byModel', m), w)
    {
      InnerStep(byModel, byWorkflow, e, w, m);
    }
  }

  lemma InnerStep(byModel: map<string, seq<Example>>, byWorkflow: map<string, map<string, seq<Example>>>, e: Example,
                  w: string, m: string)
    requires m != "" && ListIn(Inner(byWorkflow, w), m) == OfWorkflow(ListIn(byModel, m), w)
    ensures var model, workflow := ModelOf(e), WorkflowOf(e); var inner := Inner(byWorkflow, workflow);
            ListIn(Inner(byWorkflow[workflow := inner[model := ListIn(inner, model) + [e]]], w), m) ==
            OfWorkflow(ListIn(byModel[model := ListIn(byModel, model) + [e]], m), w)
  {
    hide ModelOf, WorkflowOf, OfWorkflow;
    OneMoreInWorkflow(ListIn(byModel, ModelOf(e)), e, w);
  }

  lemma OneMoreExample(es: seq<Example>, e: Example, m: string)
    ensures OfModel(es + [e], m) == if ModelOf(e) == m then OfModel(es, m) + [e] else OfModel(es, m)
  {
    assert (es + [e])[..|es|] == es;
  }

  lemma OneMoreInWorkflow(es: seq<Example>, e: Example, w: string)
    ensures OfWorkflow(es + [e], w) == if WorkflowOf(e) == w then OfWorkflow(es, w) + [e] else OfWorkflow(es, w)
  {
    assert (es + [e])[..|es|] == es;
  }

  lemma {:induction false} WorkflowsShareNothing(examples: seq<Example>, w: string, v: string)
    requires w != v
    ensures forall e :: e in OfWorkflow(examples, w) ==> e in examples && e !in OfWorkflow(examples, v)
    ensures forall e :: e in examples ==> e in OfWorkflow(examples, WorkflowOf(e))
  {
    OnlyOwnWorkflow(examples, w);
    OnlyOwnWorkflow(examples, v);
    forall e | e in examples
      ensures e in OfWorkflow(examples, WorkflowOf(e))
    {
      OnlyOwnWorkflow(examples, WorkflowOf(e));
    }
  }

  lemma {:induction false} OnlyOwnWorkflow(examples: seq<Example>, w: string)
    ensures forall e :: e in OfWorkflow(examples, w) <==> e in examples && WorkflowOf(e) == w
  {
    if examples != [] {
      var n := |examples| - 1;
      OnlyOwnWorkflow(examples[..n], w);
      assert examples == examples[..n] + [examples[n]];
    }
  }
}
