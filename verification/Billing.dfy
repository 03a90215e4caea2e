/** What every logged decision is charged, over all runs: the usage a provider reported at the prices of
    the model that answered, or the estimate made when the request was routed. */
module Billing {
  import opened Domain
  import opened Policies
  import opened Protocol
  import opened ProtocolInvariant
  import opened ProtocolLaws
  import opened Requests
  import opened Routing
  import opened RoutingLaws
  import opened Selection
  import AuditReference
  import RoutingReference

  /** Tokens at a model's prices, which are per million tokens. */
  function PriceOf(m: Model, input: int, output: int): real
  {
    (input as real * m.inputPrice + output as real * m.outputPrice) / 1_000_000.0
  }

  predicate UsageReported(d: Decision) { d.inputTokens > 0 || d.outputTokens > 0 }

  predicate Production(d: Decision) { d.bucket != Shadow }

  /** What some model was estimated to cost for the request. */
  predicate EstimatedFor(catalog: Catalog, d: Decision, id: string, cost: real)
  {
    id in catalog && id != "" ==>
      cost == PriceOf(catalog[id], d.features.inputTokens, d.features.expectedOutputTokens)
  }

  /** Every assessed model is catalogued and estimated at its own prices; shadows are chosen among these. */
  predicate Assessed(catalog: Catalog, d: Decision)
  {
    && (forall id :: id in d.predictions ==>
          id in catalog && EstimatedFor(catalog, d, id, d.predictions[id].estimatedCost))
    && (forall id :: id in d.shadowModels ==> id in d.predictions)
  }

  /** Until usage is reported the charge is the estimate of the selected model and the counterfactual that of
      the incumbent; afterwards both are that usage, at the prices of the final model and of the incumbent. */
  predicate ChargedRight(catalog: Catalog, d: Decision)
  {
    if UsageReported(d) then
      && d.completedAt != None && (if Production(d) then d.final != "" else d.final == d.selected)
      && (d.final in catalog ==> d.actualCost == PriceOf(catalog[d.final], d.inputTokens, d.outputTokens))
      && (Production(d) && d.incumbent in catalog ==>
            d.incumbentCost == PriceOf(catalog[d.incumbent], d.inputTokens, d.outputTokens))
    else
      && AuditReference.Charge()(d) == d.estimatedCost
      && (Production(d) ==> EstimatedFor(catalog, d, d.incumbent, d.incumbentCost))
  }

  const Failover := "selected_model_failed"

  /** Nothing has come back yet. */
  predicate Blank(d: Decision)
  {
    d.completedAt == None ==> d.actualCost == 0.0 && d.inputTokens == 0 && d.outputTokens == 0 && d.error == ""
  }

  predicate Billed(catalog: Catalog, d: Decision)
  {
    && ChargedRight(catalog, d) && Assessed(catalog, d) && EstimatedFor(catalog, d, d.selected, d.estimatedCost)
    && Blank(d)
    && (Production(d) ==> (d.fallbackReason == Failover <==> d.final != "" && d.final != d.selected))
  }

  ghost predicate AllBilled(catalog: Catalog, s: State)
  {
    && (forall id :: id in s.records ==> Billed(catalog, s.records[id]))
    && (forall entry :: entry in s.timeline && entry.Saved? ==> Billed(catalog, entry.d))
  }

  // ---------- the steps ----------

  lemma EstimateIsPrice(e: Engine, p: Policy, r: Request, id: string)
    requires id in PredictionsOf(e, p, r)
    ensures id in e.catalog && PredictionsOf(e, p, r)[id].estimatedCost ==
            PriceOf(e.catalog[id], r.features.inputTokens, r.features.expectedOutputTokens)
  {}

  lemma Predicted(e: Engine, p: Policy, r: Request, id: string)
    requires id in e.catalog && id != "" && (id == p.incumbent || id in p.candidates)
    ensures id in PredictionsOf(e, p, r)
  {}

  lemma AllEstimatesArePrices(e: Engine, p: Policy, r: Request)
    ensures forall id :: id in PredictionsOf(e, p, r) ==>
              && id in e.catalog
              && PredictionsOf(e, p, r)[id].estimatedCost ==
                 PriceOf(e.catalog[id], r.features.inputTokens, r.features.expectedOutputTokens)
  {
    hide PriceOf, PredictionsOf;
    forall id | id in PredictionsOf(e, p, r) { EstimateIsPrice(e, p, r, id); }
  }

  /** A routed decision carries the estimate of the model it selected. */
  lemma RoutedEstimate(e: Engine, c: Context, p: Policy, r: Request)
    requires ValidCatalog(e.catalog)
    ensures var d := RouteOf(e, c, p, r); d.estimatedCost == At(d.predictions, d.selected).estimatedCost
  {
    hide PredictionsOf, Sorted, QualifiedIn, Qualifies, RouteOf;
    if Chosen(RouteOf(e, c, p, r)) {
      var sorted, k := ServedCandidate(e, c, p, r);
      SelectedQualifies(e, p, r, sorted, k);
      ChosenShape(e, c, p, r);
    } else {
      UnchosenShape(e, c, p, r);
    }
  }

  lemma RoutedIsBilled(e: Engine, c: Context, p: Policy, r: Request)
    requires ValidCatalog(e.catalog)
    ensures Billed(e.catalog, RouteOf(e, c, p, r))
  {
    hide RouteOf, PredictionsOf, PriceOf, RoutingReference.SomeQualifies;
    RoutedDecision(e, c, p, r);
    RoutedEstimate(e, c, p, r);
    RoutingReference.RecordMeans(e, c, p, r);
    RoutingReference.ReasonIff(e, c, p, r);
    AllEstimatesArePrices(e, p, r);
    var d := RouteOf(e, c, p, r);
    if d.selected in e.catalog && d.selected != "" { Predicted(e, p, r, d.selected); }
    if d.incumbent in e.catalog && d.incumbent != "" { Predicted(e, p, r, d.incumbent); }
  }

  lemma CompletionIsBilled(catalog: Catalog, d: Decision, response: Response, now: int)
    requires Billed(catalog, d) && d.completedAt == None && Production(d) && (response.Failed? <==> d.final == "")
    ensures Billed(catalog, Completed(d, response, catalog, now))
  {
    hide Billed, Completed;
    if response.Answered? {
      AnswerIsBilled(catalog, d, response, now);
    } else {
      SilenceIsBilled(catalog, d, response, now);
    }
  }

  lemma SilenceIsBilled(catalog: Catalog, d: Decision, response: Response, now: int)
    requires Billed(catalog, d) && d.completedAt == None && Production(d) && !response.Answered?
    ensures Billed(catalog, Completed(d, response, catalog, now))
  {
    hide Assessed, PricedIn, PriceOf;
    StaysAssessed(catalog, d, Completed(d, response, catalog, now));
  }

  lemma AnswerIsBilled(catalog: Catalog, d: Decision, response: Response, now: int)
    requires Billed(catalog, d) && d.completedAt == None && Production(d) && response.Answered? && d.final != ""
    ensures Billed(catalog, Completed(d, response, catalog, now))
  {
    hide Assessed, PricedIn, PriceOf;
    StaysAssessed(catalog, d, Completed(d, response, catalog, now));
    PricedAtPrices(catalog, d.final, response.input, response.output);
    PricedAtPrices(catalog, d.incumbent, response.input, response.output);
  }

  lemma StaysAssessed(catalog: Catalog, d: Decision, done: Decision)
    requires Assessed(catalog, d) && done.predictions == d.predictions && done.shadowModels == d.shadowModels &&
             done.features == d.features
    ensures Assessed(catalog, done)
  {}

  lemma PricedAtPrices(catalog: Catalog, id: string, input: int, output: int)
    ensures id in catalog ==> forall x :: PricedIn(catalog, id, input, output, x) == PriceOf(catalog[id], input, output)
  {}

  lemma ShadowResultIsBilled(catalog: Catalog, d: Decision, response: Response, now: int)
    requires Billed(catalog, d) && d.completedAt == None && !Production(d)
    ensures Billed(catalog, ShadowResult(d, response, catalog, now))
  {}

  lemma NextIsBilled(catalog: Catalog, d: Decision)
    requires Billed(catalog, d)
    ensures forall attempted :: Billed(catalog, d.(attempted := attempted))
  {}

  lemma FinalizedIsBilled(catalog: Catalog, d: Decision)
    requires Billed(catalog, d) && d.completedAt == None && Production(d) && d.final == ""
    ensures forall attempted, final :: Billed(catalog, Finalized(d, attempted, final))
  {}

  lemma ShadowIsBilled(catalog: Catalog, parent: Decision, id: string, model: string, now: int)
    requires Billed(catalog, parent) && parent.completedAt == None && model in parent.shadowModels
    ensures Billed(catalog, ShadowOf(parent, id, model, now))
  {}

  lemma UnansweredHasNoFinal(s: State, id: string)
    requires Inv(s) && Serving(s, id) && s.work[id].phase == Waiting
    ensures s.records[id].final == ""
  {
    hide CallsOf, RepliesOf, FinalOf;
    RecordIsOk(s, id);
    NothingServed(CallsOf(s.timeline, id), RepliesOf(s.timeline, id));
  }

  lemma StepKeepsBilling(catalog: Catalog, s: State, a: Action)
    requires ValidCatalog(catalog) && Inv(s) && AllBilled(catalog, s) && Enabled(catalog, s, a)
    ensures AllBilled(catalog, Step(catalog, s, a))
  {
    hide Inv, Billed, RouteOf, PlanFor, Completed, Finalized, ShadowResult, ShadowOf, ReservationOf;
    match a {
      case Arrive(c, p, r, e, providers, saved) => RoutedIsBilled(e, c, p, r);
      case Call(id, encodes) => NextIsBilled(catalog, s.records[id]);
      case Answer(id, reply) => UnansweredHasNoFinal(s, id); FinalizedIsBilled(catalog, s.records[id]);
      case Finish(id, response, now, saved) => CompletionIsBilled(catalog, s.records[id], response, now);
      case ReserveShadow(parent, id, model, day, now) =>
        ReservesItsModel(s, catalog, parent, model, day);
        ShadowIsBilled(catalog, s.records[parent], id, model, now);
      case CallShadow(id) =>
      case FinishShadow(id, response, now, saved) => ShadowResultIsBilled(catalog, s.records[id], response, now);
    }
  }

  lemma ReservesItsModel(s: State, catalog: Catalog, parent: string, model: string, day: string)
    requires Serving(s, parent)
    ensures ReservationOf(s, catalog, parent, model, day).model == model
  {}

  lemma {:induction false} RunsAreBilled(catalog: Catalog, actions: seq<Action>)
    requires ValidCatalog(catalog)
    ensures AllBilled(catalog, Run(catalog, actions))
  {
    hide Inv;
    if actions != [] {
      var n := |actions| - 1;
      RunsAreBilled(catalog, actions[..n]);
      Reachable(catalog, actions[..n]);
      var s := Run(catalog, actions[..n]);
      if Enabled(catalog, s, actions[n]) { StepKeepsBilling(catalog, s, actions[n]); }
    }
  }

  // ---------- what the lines say ----------

  /** The model was called for the request at this place, and no other model between there and `end`. */
  ghost predicate CalledLast(timeline: seq<Entry>, j: nat, end: nat, id: string, model: string)
  {
    && j < end <= |timeline| && timeline[j] == Called(id, model)
    && forall i :: j < i < end ==> !(timeline[i].Called? && timeline[i].id == id)
  }

  lemma {:induction false} LastCall(timeline: seq<Entry>, id: string) returns (j: nat)
    requires CallsOf(timeline, id) != []
    ensures CalledLast(timeline, j, |timeline|, id, Last(CallsOf(timeline, id)))
  {
    j := |timeline| - 1;
    if !(timeline[j].Called? && timeline[j].id == id) {
      var n := j;
      j := LastCall(timeline[..n], id);
      assert timeline[..n][j] == timeline[j];
      assert forall i :: j < i < n ==> timeline[..n][i] == timeline[i];
    }
  }

  /** A line with usage is a served request. It names the last model called for it, and that usage is charged
      at this model's prices; the counterfactual is the same usage at the incumbent's prices. */
  lemma UsageIsBilled(catalog: Catalog, actions: seq<Action>, k: nat) returns (j: nat)
    requires ValidCatalog(catalog) && k < |Run(catalog, actions).timeline| && Run(catalog, actions).timeline[k].Saved?
    requires var d := Run(catalog, actions).timeline[k].d;
             d.bucket != Shadow && (d.inputTokens > 0 || d.outputTokens > 0)
    ensures var timeline := Run(catalog, actions).timeline; var d := timeline[k].d;
            && d.completedAt != None && CalledLast(timeline, j, k, d.id, d.final) && d.final in catalog
            && d.actualCost == (d.inputTokens as real * catalog[d.final].inputPrice +
                                d.outputTokens as real * catalog[d.final].outputPrice) / 1_000_000.0
            && (d.incumbent in catalog ==>
                  d.incumbentCost == (d.inputTokens as real * catalog[d.incumbent].inputPrice +
                                      d.outputTokens as real * catalog[d.incumbent].outputPrice) / 1_000_000.0)
  {
    hide Run, CallsOf, RepliesOf, OnlyLastEnds, Clears, Assessed;
    var timeline := Run(catalog, actions).timeline;
    var d := timeline[k].d;
    RunsAreBilled(catalog, actions);
    assert timeline[k] in timeline;
    LinesAreTruthful(catalog, actions, k);
    j := LastCall(timeline[..k], d.id);
    assert CalledLast(timeline, j, k, d.id, d.final) by {
      assert forall i :: 0 <= i < k ==> timeline[..k][i] == timeline[i];
    }
    CalledIsCatalogued(catalog, actions, j);
  }

  lemma CalledIsCatalogued(catalog: Catalog, actions: seq<Action>, k: nat)
    requires ValidCatalog(catalog) && k < |Run(catalog, actions).timeline| && Run(catalog, actions).timeline[k].Called?
    ensures Run(catalog, actions).timeline[k].model in catalog
  {
    hide Run, CallsOf, RepliesOf, ChargedRight, EstimatedFor;
    var timeline := Run(catalog, actions).timeline;
    var model := timeline[k].model;
    CallsFollowRecords(catalog, actions, k);
    RunsAreBilled(catalog, actions);
    var i :| 0 <= i < k && timeline[..k][i].Saved? && Clears(model)(timeline[..k][i].d);
    assert timeline[i] in timeline && Billed(catalog, timeline[i].d);
  }

  /** Any other line is charged the estimate of the model it selected, against that of the incumbent. */
  lemma EstimateIsBilled(catalog: Catalog, actions: seq<Action>, k: nat)
    requires ValidCatalog(catalog) && k < |Run(catalog, actions).timeline| && Run(catalog, actions).timeline[k].Saved?
    requires var d := Run(catalog, actions).timeline[k].d; d.inputTokens <= 0 && d.outputTokens <= 0
    ensures var d := Run(catalog, actions).timeline[k].d;
            && (if d.actualCost > 0.0 then d.actualCost else d.estimatedCost) == d.estimatedCost
            && (d.selected in catalog && d.selected != "" ==>
                  d.estimatedCost ==
                  (d.features.inputTokens as real * catalog[d.selected].inputPrice +
                   d.features.expectedOutputTokens as real * catalog[d.selected].outputPrice) / 1_000_000.0)
            && (d.bucket != Shadow && d.incumbent in catalog && d.incumbent != "" ==>
                  d.incumbentCost ==
                  (d.features.inputTokens as real * catalog[d.incumbent].inputPrice +
                   d.features.expectedOutputTokens as real * catalog[d.incumbent].outputPrice) / 1_000_000.0)
  {
    hide Run, Assessed;
    RunsAreBilled(catalog, actions);
    assert Run(catalog, actions).timeline[k] in Run(catalog, actions).timeline;
  }

  /** A shadow's usage is charged at its own model's prices. */
  lemma ShadowUsageIsBilled(catalog: Catalog, actions: seq<Action>, k: nat)
    requires ValidCatalog(catalog) && k < |Run(catalog, actions).timeline| && Run(catalog, actions).timeline[k].Saved?
    requires var d := Run(catalog, actions).timeline[k].d;
             d.bucket == Shadow && (d.inputTokens > 0 || d.outputTokens > 0)
    ensures var d := Run(catalog, actions).timeline[k].d;
            && d.final == d.selected
            && (d.selected in catalog ==>
                  d.actualCost == (d.inputTokens as real * catalog[d.selected].inputPrice +
                                   d.outputTokens as real * catalog[d.selected].outputPrice) / 1_000_000.0)
  {
    hide Run, Assessed;
    RunsAreBilled(catalog, actions);
    assert Run(catalog, actions).timeline[k] in Run(catalog, actions).timeline;
  }

  /** A line says that a model failed over exactly when another model than the selected one answered. */
  lemma FailoverIsReported(catalog: Catalog, actions: seq<Action>, k: nat)
    requires ValidCatalog(catalog) && k < |Run(catalog, actions).timeline| && Run(catalog, actions).timeline[k].Saved?
    requires Run(catalog, actions).timeline[k].d.bucket != Shadow
    ensures var d := Run(catalog, actions).timeline[k].d;
            d.fallbackReason == "selected_model_failed" <==> d.final != "" && d.final != d.selected
  {
    hide Run, Assessed, ChargedRight;
    RunsAreBilled(catalog, actions);
    assert Run(catalog, actions).timeline[k] in Run(catalog, actions).timeline;
  }

  // ---------- what the providers reported ----------

  /** The action that ended a decision, and what the record shows of its response. */
  predicate EndedBy(d: Decision, a: Action)
  {
    (a.Finish? || a.FinishShadow?) && a.id == d.id && d.completedAt == Some(a.now) &&
    match a.response
    case Failed(status, error) =>
      && d.error == error && (status != 0 ==> d.upstreamStatus == status)
      && d.inputTokens == 0 && d.outputTokens == 0 && d.actualCost == 0.0
    case Streamed(status, interrupted) =>
      && d.upstreamStatus == status && d.inputTokens == 0 && d.outputTokens == 0
      && d.actualCost == d.estimatedCost
      && (a.Finish? ==> d.error == if interrupted then "stream interrupted" else "")
    case Unreadable(status) =>
      && d.upstreamStatus == status && d.inputTokens == 0 && d.outputTokens == 0
      && (a.Finish? ==> d.actualCost == 0.0 && d.error == "unable to read upstream response")
    case Answered(status, input, output) =>
      d.upstreamStatus == status && d.inputTokens == input && d.outputTokens == output && d.error == ""
  }

  ghost predicate Reported(actions: seq<Action>, d: Decision)
  {
    d.completedAt == None || exists a :: a in actions && EndedBy(d, a)
  }

  ghost predicate AllReported(actions: seq<Action>, s: State)
  {
    && (forall id :: id in s.records ==> s.records[id].id == id && Reported(actions, s.records[id]))
    && (forall entry :: entry in s.timeline && entry.Saved? ==> Reported(actions, entry.d))
  }

  lemma ReportsRemain(actions: seq<Action>, a: Action, s: State)
    requires AllReported(actions, s)
    ensures AllReported(actions + [a], s)
  {
    forall d | Reported(actions, d)
      ensures Reported(actions + [a], d)
    {
      if d.completedAt != None {
        var b :| b in actions && EndedBy(d, b);
        assert b in actions + [a];
      }
    }
  }

  lemma RoutedIsOpen(e: Engine, c: Context, p: Policy, r: Request)
    requires ValidCatalog(e.catalog)
    ensures RouteOf(e, c, p, r).completedAt == None && RouteOf(e, c, p, r).id == c.id
  {
    hide RouteOf;
    RoutedDecision(e, c, p, r);
  }

  lemma FinalizedIsOpen(d: Decision)
    ensures forall attempted, final :: Finalized(d, attempted, final).completedAt == d.completedAt
    ensures forall attempted, final :: Finalized(d, attempted, final).id == d.id
  {}

  lemma ShadowIsOpen(parent: Decision, id: string, model: string, now: int)
    ensures ShadowOf(parent, id, model, now).completedAt == None && ShadowOf(parent, id, model, now).id == id
  {}

  lemma CompletionReports(catalog: Catalog, d: Decision, a: Action)
    requires a.Finish? && a.id == d.id && Blank(d) && d.completedAt == None
    ensures var done := Completed(d, a.response, catalog, a.now); done.id == d.id && EndedBy(done, a)
  {
    hide PricedIn;
    match a.response
    case Failed(_, _) =>
    case Streamed(_, _) =>
    case Unreadable(_) =>
    case Answered(_, _, _) =>
  }

  lemma ShadowReports(catalog: Catalog, d: Decision, a: Action)
    requires a.FinishShadow? && a.id == d.id && Blank(d) && d.completedAt == None
    ensures var done := ShadowResult(d, a.response, catalog, a.now); done.id == d.id && EndedBy(done, a)
  {
    hide PricedIn;
    match a.response
    case Failed(_, _) =>
    case Streamed(_, _) =>
    case Unreadable(_) =>
    case Answered(_, _, _) =>
  }

  lemma EndIsReported(actions: seq<Action>, d: Decision, a: Action)
    requires a in actions && EndedBy(d, a)
    ensures Reported(actions, d)
  {}

  lemma OpenIsReported(actions: seq<Action>, d: Decision)
    requires d.completedAt == None
    ensures Reported(actions, d)
  {}

  lemma BilledIsBlank(catalog: Catalog, d: Decision)
    requires Billed(catalog, d)
    ensures Blank(d)
  {}

  lemma SavingReports(actions: seq<Action>, s: State, id: string, d: Decision, saved: bool)
    requires AllReported(actions, s) && d.id == id && Reported(actions, d)
    ensures AllReported(actions, Save(s, id, d, saved))
  {
    hide Reported;
  }

  lemma StepReports(catalog: Catalog, actions: seq<Action>, s: State, a: Action)
    requires ValidCatalog(catalog) && AllReported(actions, s) && AllBilled(catalog, s) && Enabled(catalog, s, a)
    requires a in actions
    ensures AllReported(actions, Step(catalog, s, a))
  {
    hide RouteOf, PlanFor, Completed, Finalized, ShadowResult, ShadowOf, ReservationOf;
    hide EndedBy, Billed, Reported, Blank;
    if a.Finish? || a.FinishShadow? {
      BilledIsBlank(catalog, s.records[a.id]);
      EndReports(catalog, actions, s, a);
    } else {
      QuietStepReports(catalog, actions, s, a);
    }
  }

  lemma EndReports(catalog: Catalog, actions: seq<Action>, s: State, a: Action)
    requires AllReported(actions, s) && Enabled(catalog, s, a) && a in actions && (a.Finish? || a.FinishShadow?)
    requires Blank(s.records[a.id])
    ensures AllReported(actions, Step(catalog, s, a))
  {
    hide Completed, ShadowResult, EndedBy, Reported, Blank, Save, AllReported;
    assert s.records[a.id].id == a.id by { RecordsAreKeyed(actions, s, a.id); }
    if a.Finish? {
      var done := Completed(s.records[a.id], a.response, catalog, a.now);
      CompletionReports(catalog, s.records[a.id], a);
      EndIsReported(actions, done, a);
      SavingReports(actions, s, a.id, done, a.saved);
    } else {
      var done := ShadowResult(s.records[a.id], a.response, catalog, a.now);
      ShadowReports(catalog, s.records[a.id], a);
      EndIsReported(actions, done, a);
      SavingReports(actions, s, a.id, done, a.saved);
    }
  }

  lemma RecordsAreKeyed(actions: seq<Action>, s: State, id: string)
    requires AllReported(actions, s) && id in s.records
    ensures s.records[id].id == id
  {}

  lemma QuietStepReports(catalog: Catalog, actions: seq<Action>, s: State, a: Action)
    requires ValidCatalog(catalog) && AllReported(actions, s) && Enabled(catalog, s, a)
    requires !a.Finish? && !a.FinishShadow?
    ensures AllReported(actions, Step(catalog, s, a))
  {
    hide RouteOf, PlanFor, Finalized, ShadowOf, ReservationOf, Reported;
    match a {
      case Arrive(c, p, r, e, providers, saved) =>
        RoutedIsOpen(e, c, p, r);
        OpenIsReported(actions, RouteOf(e, c, p, r));
      case Call(id, encodes) =>
        if encodes { OpenIsReported(actions, Next(s, id).records[id]); }
      case Answer(id, reply) =>
        FinalizedIsOpen(s.records[id]);
        OpenIsReported(actions, Heard(s, id, reply).records[id]);
      case ReserveShadow(parent, id, model, day, now) => ReservingReports(catalog, actions, s, a);
      case CallShadow(id) =>
    }
  }

  lemma ReservingReports(catalog: Catalog, actions: seq<Action>, s: State, a: Action)
    requires AllReported(actions, s) && Enabled(catalog, s, a) && a.ReserveShadow?
    ensures AllReported(actions, Step(catalog, s, a))
  {
    hide ShadowOf, ReservationOf, Reported;
    var r := ReservationOf(s, catalog, a.parent, a.model, a.day);
    ShadowIsOpen(s.records[a.parent], a.id, r.model, a.now);
    OpenIsReported(actions, ShadowOf(s.records[a.parent], a.id, r.model, a.now));
  }

  lemma {:induction false} RunsReport(catalog: Catalog, actions: seq<Action>)
    requires ValidCatalog(catalog)
    ensures AllReported(actions, Run(catalog, actions))
  {
    hide AllReported, AllBilled, Enabled, Step;
    if actions == [] {
      NothingToReport(catalog);
    } else {
      var n := |actions| - 1;
      var s := Run(catalog, actions[..n]);
      RunsReport(catalog, actions[..n]);
      RunsAreBilled(catalog, actions[..n]);
      ReportsRemain(actions[..n], actions[n], s);
      assert actions[..n] + [actions[n]] == actions;
      if Enabled(catalog, s, actions[n]) { StepReports(catalog, actions, s, actions[n]); }
    }
  }

  lemma NothingToReport(catalog: Catalog)
    ensures AllReported([], Run(catalog, []))
  {}

  /** Every completed line shows what the response that ended its decision reported: status, usage, error. */
  lemma LinesShowTheirResponse(catalog: Catalog, actions: seq<Action>, k: nat) returns (a: Action)
    requires ValidCatalog(catalog) && k < |Run(catalog, actions).timeline| && Run(catalog, actions).timeline[k].Saved?
    requires Run(catalog, actions).timeline[k].d.completedAt != None
    ensures a in actions && EndedBy(Run(catalog, actions).timeline[k].d, a)
  {
    hide Run, EndedBy;
    RunsReport(catalog, actions);
    var entry := Run(catalog, actions).timeline[k];
    assert entry in Run(catalog, actions).timeline;
    a :| a in actions && EndedBy(entry.d, a);
  }
}
