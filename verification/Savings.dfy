/** A server that never routes away from the incumbent never claims savings, in any run. */
module Savings {
  import opened Domain
  import opened Policies
  import opened Routing
  import opened RoutingLaws
  import opened Requests
  import opened Protocol
  import opened ProtocolLaws
  import Audit
  import FileStores

  ghost predicate PositivePrices(catalog: Catalog)
  {
    forall id :: id in catalog ==> catalog[id].inputPrice > 0.0 && catalog[id].outputPrice > 0.0
  }

  /** Requests use validated policies, and providers do not report negative usage. */
  ghost predicate Ordinary(catalog: Catalog, a: Action)
  {
    match a
    case Arrive(_, p, _, _, _, _) => ValidPolicy(p, catalog)
    case Finish(_, response, _, _) => response.Answered? ==> response.input >= 0 && response.output >= 0
    case _ => true
  }

  /** While a request runs, the incumbent is priced at its estimate; a request that stays on the
      incumbent is billed exactly its counterfactual, then and for ever. */
  predicate Priced(catalog: Catalog, d: Decision)
  {
    d.bucket != Shadow ==>
      && d.incumbent in catalog
      && (d.completedAt == None ==>
            d.actualCost == 0.0 && (d.selected == d.incumbent ==> d.estimatedCost == d.incumbentCost))
      && (StayedOnIncumbent(d) ==> Audit.Billed(d) == d.incumbentCost)
  }

  ghost predicate AllPriced(catalog: Catalog, s: State)
  {
    && (forall id :: id in s.records ==> Priced(catalog, s.records[id]))
    && (forall entry :: entry in s.timeline && entry.Saved? ==> Priced(catalog, entry.d))
  }

  lemma CompletionIsPriced(catalog: Catalog, d: Decision, response: Response, now: int)
    requires ValidCatalog(catalog) && PositivePrices(catalog) && Priced(catalog, d) && d.completedAt == None
    requires response.Answered? ==> response.input >= 0 && response.output >= 0
    requires response.Failed? <==> d.final == ""
    ensures Priced(catalog, Completed(d, response, catalog, now))
  {
    if response.Answered? && (response.input > 0 || response.output > 0) && d.incumbent in catalog {
      PositivePricesBillUsage(catalog[d.incumbent], response.input, response.output);
    }
  }

  lemma RoutedIsPriced(e: Engine, c: Context, p: Policy, r: Request)
    requires ValidCatalog(e.catalog) && ValidPolicy(p, e.catalog)
    ensures Priced(e.catalog, RouteOf(e, c, p, r))
  {
    hide RouteOf;
    RoutedDecision(e, c, p, r);
  }

  lemma FinalizedIsPriced(catalog: Catalog, d: Decision)
    requires Priced(catalog, d) && d.completedAt == None
    ensures forall attempted, final :: Priced(catalog, Finalized(d, attempted, final))
  {}

  lemma NextIsPriced(catalog: Catalog, d: Decision)
    requires Priced(catalog, d)
    ensures forall attempted :: Priced(catalog, d.(attempted := attempted))
  {}

  lemma ShadowResultIsPriced(catalog: Catalog, d: Decision, response: Response, now: int)
    requires d.bucket == Shadow
    ensures Priced(catalog, ShadowResult(d, response, catalog, now))
  {}

  lemma StepKeepsPrices(catalog: Catalog, s: State, a: Action)
    requires ValidCatalog(catalog) && PositivePrices(catalog) && AllPriced(catalog, s) && Enabled(catalog, s, a) &&
             Ordinary(catalog, a)
    ensures AllPriced(catalog, Step(catalog, s, a))
  {
    hide Priced, RouteOf, PlanFor, Completed, Finalized, ShadowResult, ShadowOf, ReservationOf;
    match a {
      case Arrive(c, p, r, e, providers, saved) => RoutedIsPriced(e, c, p, r);
      case Call(id, encodes) => NextIsPriced(catalog, s.records[id]);
      case Answer(id, reply) => FinalizedIsPriced(catalog, s.records[id]);
      case Finish(id, response, now, saved) => CompletionIsPriced(catalog, s.records[id], response, now);
      case ReserveShadow(parent, id, model, day, now) =>
        NewShadowIsPriced(catalog, s.records[parent], id, ReservationOf(s, catalog, parent, model, day).model, now);
      case CallShadow(id) =>
      case FinishShadow(id, response, now, saved) => ShadowResultIsPriced(catalog, s.records[id], response, now);
    }
  }

  lemma NewShadowIsPriced(catalog: Catalog, parent: Decision, id: string, model: string, now: int)
    ensures Priced(catalog, ShadowOf(parent, id, model, now))
  {}

  lemma {:induction false} RunsArePriced(catalog: Catalog, actions: seq<Action>)
    requires ValidCatalog(catalog) && PositivePrices(catalog)
    requires forall i :: 0 <= i < |actions| ==> Ordinary(catalog, actions[i])
    ensures AllPriced(catalog, Run(catalog, actions))
  {
    if actions != [] {
      var n := |actions| - 1;
      RunsArePriced(catalog, actions[..n]);
      var s := Run(catalog, actions[..n]);
      if Enabled(catalog, s, actions[n]) { StepKeepsPrices(catalog, s, actions[n]); }
    }
  }

  /** In any interleaving, with any failed writes and any shadow traffic: if every production line
      of the log was routed to the incumbent and ended on it or failed, then every summary of that
      log reports equal costs and savings of exactly zero. */
  lemma NoRoutingMeansNoSavings(catalog: Catalog, actions: seq<Action>, os: seq<Outcome>, q: Audit.Query,
                                sqrt: real -> real)
    requires ValidCatalog(catalog) && PositivePrices(catalog)
    requires forall i :: 0 <= i < |actions| ==> Ordinary(catalog, actions[i])
    requires forall d :: d in DecisionsOf(Run(catalog, actions).timeline) && d.bucket != Shadow ==> StayedOnIncumbent(d)
    ensures var log := DecisionsOf(Run(catalog, actions).timeline);
            var ds := FileStores.ReadBack(FileStores.Disk(log, os, [])).decisions.Values;
            var summary := Audit.SummaryOf(ds, os, q, sqrt);
            summary.totals.incumbent == summary.totals.actual && summary.savings == 0.0 && summary.savingsPercent == 0.0
  {
    hide Run, Audit.SummaryOf;
    var timeline := Run(catalog, actions).timeline;
    var log := DecisionsOf(timeline);
    RunsArePriced(catalog, actions);
    LoggedDecisions(timeline);
    FileStores.ReplayInLog(log);
    var ds := FileStores.ReadBack(FileStores.Disk(log, os, [])).decisions.Values;
    forall d | d in ds && d.bucket != Shadow
      ensures Audit.Billed(d) == d.incumbentCost
    {
      assert d in log;
      assert Saved(d) in timeline;
    }
    NoRoutingNoSavings(ds, os, q, sqrt);
  }
}
