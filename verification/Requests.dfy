/** One chat completion in internal/api/server.go: the attempt loop over the selected model, its
    fallbacks and the incumbent, and the record that is written when the request completes. What a
    provider answers is an oracle. */
module Requests {
  import opened Domain
  import opened Sequences
  import opened FiniteSums
  import opened Policies
  import opened Routing
  import opened RoutingLaws
  import Audit

  /** The ways provider.Client.Do can end (`Unsendable`: no HTTP request could be made), and a request
      body that cannot be encoded. */
  datatype Reply = Success | CircuitOpen | Unsendable | TransportError | Upstream(status: int) | EncodeError

  predicate RetryableStatus(status: int) { status == 408 || status == 409 || status == 429 || status >= 500 }

  /** provider.Retryable: every error but an upstream status that is not worth repeating. */
  predicate Retryable(r: Reply) { r.Upstream? ==> RetryableStatus(r.status) }

  /** The loop goes on to the next model after this reply. */
  predicate GoesOn(r: Reply) { r != Success && r != EncodeError && Retryable(r) }

  function AttemptOrder(selected: string, fallbacks: seq<string>, incumbent: string): seq<string>
  {
    Unique([selected] + fallbacks + [incumbent])
  }

  /** Catalogued, configured for the tenant, and not ruled out by this decision's predictions. */
  predicate Usable(d: Decision, catalog: Catalog, providers: set<string>, id: string)
  {
    (id in d.predictions ==> d.predictions[id].eligible) && id in catalog && catalog[id].provider in providers
  }

  function UsableIn(d: Decision, catalog: Catalog, providers: set<string>, order: seq<string>): seq<string>
  {
    if order == [] then [] else
      var n := |order| - 1;
      UsableIn(d, catalog, providers, order[..n]) + if Usable(d, catalog, providers, order[n]) then [order[n]] else []
  }

  /** The models the attempt loop may call, in order. */
  function PlannedCalls(d: Decision, p: Policy, catalog: Catalog, providers: set<string>): seq<string>
  {
    UsableIn(d, catalog, providers, AttemptOrder(d.selected, p.fallbacks, p.incumbent))
  }

  /** The models called are the usable ones in order, up to the first reply that ends the loop. */
  ghost predicate AttemptsOf(attempted: seq<string>, final: string, usable: seq<string>, reply: string -> Reply)
  {
    && attempted <= usable
    && (forall i :: 0 <= i < |attempted| - 1 ==> GoesOn(reply(attempted[i])))
    && (forall i :: 0 <= i < |attempted| ==> reply(attempted[i]) != EncodeError)
    && (if attempted != [] && reply(attempted[|attempted| - 1]) == Success then final == attempted[|attempted| - 1]
        else final == "")
    && (attempted < usable ==>
          reply(usable[|attempted|]) == EncodeError || (attempted != [] && !GoesOn(reply(attempted[|attempted| - 1]))))
  }

  method Attempt(d: Decision, p: Policy, catalog: Catalog, providers: set<string>, reply: string -> Reply)
    returns (attempted: seq<string>, final: string)
    requires ValidCatalog(catalog)
    ensures AttemptsOf(attempted, final, PlannedCalls(d, p, catalog, providers), reply)
  {
    hide Usable, UsableIn, AttemptOrder;
    var order := UniqueValues([d.selected] + p.fallbacks + [p.incumbent]);
    OrderIsUnique(d.selected, p.fallbacks, p.incumbent);
    attempted, final := [], "";
    NothingUsable(d, catalog, providers, order);
    for i := 0 to |order|
      invariant attempted == UsableIn(d, catalog, providers, order[..i])
      invariant forall k :: 0 <= k < |attempted| ==> GoesOn(reply(attempted[k]))
    {
      var id := order[i];
      UsableStep(d, catalog, providers, order, i);
      if id in d.predictions && !d.predictions[id].eligible { continue; }
      if id !in catalog { continue; }
      if catalog[id].provider !in providers { continue; }
      var answer := reply(id);
      if answer == EncodeError { return attempted, ""; }
      attempted := attempted + [id];
      if answer == Success { return attempted, catalog[id].id; }
      if !Retryable(answer) { return attempted, ""; }
    }
  }

  lemma NothingUsable(d: Decision, catalog: Catalog, providers: set<string>, order: seq<string>)
    ensures UsableIn(d, catalog, providers, order[..0]) == []
    ensures UsableIn(d, catalog, providers, order[..|order|]) == UsableIn(d, catalog, providers, order)
  {
    assert order[..|order|] == order;
  }

  lemma UsableStep(d: Decision, catalog: Catalog, providers: set<string>, order: seq<string>, i: nat)
    requires i < |order|
    ensures var usable := (order[i] in d.predictions ==> d.predictions[order[i]].eligible) && order[i] in catalog &&
                          catalog[order[i]].provider in providers;
            UsableIn(d, catalog, providers, order[..i + 1]) ==
            UsableIn(d, catalog, providers, order[..i]) + if usable then [order[i]] else []
    ensures UsableIn(d, catalog, providers, order[..i + 1]) <= UsableIn(d, catalog, providers, order)
  {
    assert order[..i + 1][..i] == order[..i];
    UsableIsPrefix(d, catalog, providers, order, i + 1);
  }

  lemma OrderIsUnique(selected: string, fallbacks: seq<string>, incumbent: string)
    ensures AttemptOrder(selected, fallbacks, incumbent) == Unique([selected] + fallbacks + [incumbent])
  {}

  lemma UsableFacts(d: Decision, catalog: Catalog, providers: set<string>, id: string)
    ensures Usable(d, catalog, providers, id) <==>
            (id in d.predictions ==> d.predictions[id].eligible) && id in catalog && catalog[id].provider in providers
  {}

  lemma {:induction false} UsableIsPrefix(d: Decision, catalog: Catalog, providers: set<string>, order: seq<string>,
                                          i: nat)
    requires i <= |order|
    ensures UsableIn(d, catalog, providers, order[..i]) <= UsableIn(d, catalog, providers, order)
    decreases |order|
  {
    if i == |order| {
      assert order[..i] == order;
    } else {
      var n := |order| - 1;
      UsableIsPrefix(d, catalog, providers, order[..n], i);
      assert order[..n][..i] == order[..i];
    }
  }

  lemma {:induction false} UsableMembers(d: Decision, catalog: Catalog, providers: set<string>, order: seq<string>)
    ensures forall id :: id in UsableIn(d, catalog, providers, order) <==>
              id in order && Usable(d, catalog, providers, id)
    ensures NoDuplicates(order) ==> NoDuplicates(UsableIn(d, catalog, providers, order))
    ensures |UsableIn(d, catalog, providers, order)| <= |order|
  {
    if order != [] {
      var n := |order| - 1;
      UsableMembers(d, catalog, providers, order[..n]);
      assert order == order[..n] + [order[n]];
      if NoDuplicates(order) {
        assert NoDuplicates(order[..n]);
        assert order[n] !in order[..n];
      }
    }
  }

  lemma {:induction false} UniqueIsShort(values: seq<string>)
    ensures |Unique(values)| <= |values|
  {
    if values != [] { UniqueIsShort(values[..|values| - 1]); }
  }

  /** For any valid policy and whatever the providers answer: no model is called twice, none that
      the decision itself found infeasible is called, at most the selected model, the fallbacks and
      the incumbent are called, and the request has a final model iff its last call succeeded. */
  lemma AttemptsAreSafe(e: Engine, c: Context, p: Policy, r: Request, providers: set<string>, reply: string -> Reply,
                        attempted: seq<string>, final: string)
    requires ValidCatalog(e.catalog) && ValidPolicy(p, e.catalog)
    requires AttemptsOf(attempted, final, PlannedCalls(RouteOf(e, c, p, r), p, e.catalog, providers), reply)
    ensures var d := RouteOf(e, c, p, r);
            && NoDuplicates(attempted) && |attempted| <= 2 + |p.fallbacks|
            && (forall id :: id in attempted ==>
                  (id == d.selected || id in p.fallbacks || id == p.incumbent) && id in d.predictions &&
                    d.predictions[id].eligible)
            && (final != "" <==> attempted != [] && reply(attempted[|attempted| - 1]) == Success)
  {
    hide RouteOf, Unique, UsableIn, ValidPolicy, PredictionsOf;
    var d := RouteOf(e, c, p, r);
    var listed := [d.selected] + p.fallbacks + [p.incumbent];
    var order := AttemptOrder(d.selected, p.fallbacks, p.incumbent);
    UniqueMembers(listed);
    UniqueIsShort(listed);
    UsableMembers(d, e.catalog, providers, order);
    var usable := UsableIn(d, e.catalog, providers, order);
    assert forall i :: 0 <= i < |attempted| ==> attempted[i] == usable[i];
    RoutedDecision(e, c, p, r);
    forall id | id in attempted
      ensures id in listed && id != "" && Usable(d, e.catalog, providers, id) && id in d.predictions
    {
      assert id in usable;
      assert id in order;
      UsableFacts(d, e.catalog, providers, id);
      ListedIsPredicted(e, p, r, id);
    }
    if attempted != [] { assert attempted[|attempted| - 1] in attempted; }
  }

  lemma ListedIsPredicted(e: Engine, p: Policy, r: Request, id: string)
    requires id in e.catalog && id != "" && (id == p.incumbent || id in p.candidates || id in p.fallbacks)
    ensures id in PredictionsOf(e, p, r)
  {}

  // ---------- completing the record ----------

  datatype Response =
    | Failed(status: int, error: string)
    | Streamed(status: int, interrupted: bool)
    | Unreadable(status: int)
    | Answered(status: int, input: int, output: int)

  function ActualCost(m: Model, input: int, output: int): real
  {
    (input as real * m.inputPrice + output as real * m.outputPrice) / 1_000_000.0
  }

  /** The record after the attempt loop: the final model is known, the outcome is not yet. */
  function Finalized(d: Decision, attempted: seq<string>, final: string): Decision
  {
    d.(attempted := attempted, final := final,
       fallbackReason := if final != "" && final != d.selected then "selected_model_failed" else d.fallbackReason)
  }

  /** A request without a response keeps the status it has, unless the last error carries one. */
  function StatusAfter(d: Decision, response: Response): int
  {
    if response.Failed? && response.status == 0 then d.upstreamStatus else response.status
  }

  function PricedIn(catalog: Catalog, id: string, input: int, output: int, otherwise: real): real
  {
    if id in catalog then ActualCost(catalog[id], input, output) else otherwise
  }

  /** The record of the completion write. */
  function Completed(d: Decision, response: Response, catalog: Catalog, now: int): Decision
  {
    var d := d.(upstreamStatus := StatusAfter(d, response), completedAt := Some(now));
    match response
    case Failed(_, error) => d.(error := error)
    case Streamed(_, interrupted) =>
      d.(error := if interrupted then "stream interrupted" else d.error, actualCost := d.estimatedCost)
    case Unreadable(_) => d.(error := "unable to read upstream response")
    case Answered(_, input, output) =>
      var d := d.(inputTokens := input, outputTokens := output);
      if input > 0 || output > 0 then
        d.(actualCost := PricedIn(catalog, d.final, input, output, 0.0),
           incumbentCost := PricedIn(catalog, d.incumbent, input, output, d.incumbentCost))
      else d.(actualCost := d.estimatedCost)
  }

  /** What completion can never change: who the request belongs to and how it was randomised. */
  predicate SameRouting(a: Decision, b: Decision)
  {
    && a.id == b.id && a.parentId == b.parentId && a.tenant == b.tenant && a.risk == b.risk && a.trace == b.trace
    && a.policyId == b.policyId && a.policyVersion == b.policyVersion && a.snapshotVersion == b.snapshotVersion &&
       a.catalogVersion == b.catalogVersion
    && a.incumbent == b.incumbent && a.selected == b.selected && a.bucket == b.bucket && a.createdAt == b.createdAt
    && a.estimatedCost == b.estimatedCost && a.predictions == b.predictions && a.shadowModels == b.shadowModels
  }

  lemma CompletionKeepsRouting(d: Decision, attempted: seq<string>, final: string, response: Response, catalog: Catalog,
                               now: int)
    ensures SameRouting(Finalized(d, attempted, final), d)
    ensures SameRouting(Completed(d, response, catalog, now), d)
  {}

  // ---------- no routing, no savings ----------

  /** A request that was routed to the incumbent and ended on it, or on nothing. */
  predicate StayedOnIncumbent(d: Decision) { d.selected == d.incumbent && (d.final == "" || d.final == d.incumbent) }

  /** Before completion such a record is billed what the counterfactual is. Afterwards it still is,
      unless usage came back at a price that is not positive: then the bill falls back to the
      estimate and the counterfactual does not. */
  lemma IncumbentBillsItsCounterfactualIff(e: Engine, c: Context, p: Policy, r: Request, attempted: seq<string>,
                                           final: string,
                                           response: Response, now: int)
    requires ValidCatalog(e.catalog) && ValidPolicy(p, e.catalog)
    requires var d := Finalized(RouteOf(e, c, p, r), attempted, final);
             StayedOnIncumbent(d) && (response.Failed? <==> final == "")
    ensures var d := RouteOf(e, c, p, r); Audit.Billed(d) == d.incumbentCost
    ensures var d := RouteOf(e, c, p, r);
            var done := Completed(Finalized(d, attempted, final), response, e.catalog, now);
            Audit.Billed(done) == done.incumbentCost <==>
              (response.Answered? && (response.input > 0 || response.output > 0) ==>
                 var cost := ActualCost(e.catalog[p.incumbent], response.input, response.output);
                 cost > 0.0 || cost == d.estimatedCost)
  {
    hide RouteOf, PredictionsOf;
    RoutedDecision(e, c, p, r);
  }

  /** The condition fails whenever input tokens are free and only they are reported: the bill is the
      estimate, the counterfactual is zero. */
  lemma FreeInputIsBilledTheEstimate(e: Engine, c: Context, p: Policy, r: Request, input: int, now: int)
    requires ValidCatalog(e.catalog) && p.incumbent in e.catalog && p.incumbent != "" && input > 0
    requires e.catalog[p.incumbent].inputPrice == 0.0 && RouteOf(e, c, p, r).selected == p.incumbent
    ensures var d := Finalized(RouteOf(e, c, p, r), [p.incumbent], p.incumbent);
            var done := Completed(d, Answered(200, input, 0), e.catalog, now);
            && StayedOnIncumbent(d) && Audit.Billed(done) == EstimateCost(e.catalog[p.incumbent], r.features)
            && done.incumbentCost == 0.0
  {
    hide RouteOf;
    RoutedDecision(e, c, p, r);
    assert At(PredictionsOf(e, p, r), p.incumbent).estimatedCost == EstimateCost(e.catalog[p.incumbent], r.features);
  }

  function FreeInputModel(): Model
  {
    Model("m", "provider", "", Standard, 0, true, true, true, 0.0, 1.0, 0, 0.5, true)
  }

  function ObservingPolicy(): Policy
  {
    Policy("policy", "tenant", "1", ObserveMode, "m", [], [], 0.0, 1.0, 0, 0.0, 0.0, 0.0, 0.0, "resolved",
           Constraints([], Unset, 0.0, 0), Snapshot("", "", map[], map[]), false)
  }

  function PlainRequest(): Request
  {
    Request(Metadata("trace", "", "", NormalRisk, 0, "", Unset, 0.0), Features(100, 100, 1, 0, false, false, 0.0))
  }

  lemma ObservingPolicyIsValid()
    ensures ValidPolicy(ObservingPolicy(), map["m" := FreeInputModel()])
  {
    var p := ObservingPolicy();
    assert !IsSpace(p.id[0]) && !IsSpace(p.tenant[0]) && !IsSpace(p.version[0]);
    assert Listed(p) == [];
  }

  /** Such a request exists, under a valid policy that only observes. */
  lemma FreeInputHappens(c: Context) returns (e: Engine, p: Policy, r: Request)
    ensures ValidCatalog(e.catalog) && ValidPolicy(p, e.catalog)
    ensures var d := Finalized(RouteOf(e, c, p, r), [p.incumbent], p.incumbent);
            var done := Completed(d, Answered(200, 100, 0), e.catalog, c.now);
            StayedOnIncumbent(d) && Audit.Billed(done) > done.incumbentCost
  {
    hide RouteOf, ValidPolicy, Completed;
    e, p, r := Engine(map["m" := FreeInputModel()], {}, x => x), ObservingPolicy(), PlainRequest();
    ObservingPolicyIsValid();
    assert ValidCatalog(e.catalog);
    if RouteOf(e, c, p, r).selected != p.incumbent {
      OnlySafeModelsReplaceTheIncumbent(e, c, p, r);
    } else {
      FreeInputIsBilledTheEstimate(e, c, p, r, 100, c.now);
    }
  }

  lemma PositivePricesBillUsage(m: Model, input: int, output: int)
    requires m.inputPrice > 0.0 && m.outputPrice > 0.0 && input >= 0 && output >= 0 && (input > 0 || output > 0)
    ensures ActualCost(m, input, output) > 0.0
  {
    if input > 0 { assert input as real * m.inputPrice > 0.0; }
    if output > 0 { assert output as real * m.outputPrice > 0.0; }
  }

  /** If every production decision in scope is billed its counterfactual, no savings are claimed. */
  lemma NoRoutingNoSavings(ds: set<Decision>, os: seq<Outcome>, q: Audit.Query, sqrt: real -> real)
    requires forall d :: d in ds && d.bucket != Shadow ==> Audit.Billed(d) == d.incumbentCost
    ensures var s := Audit.SummaryOf(ds, os, q, sqrt);
            s.totals.incumbent == s.totals.actual && s.savings == 0.0 && s.savingsPercent == 0.0
  {
    hide Audit.ArmsOf, Audit.ArmInterval, Audit.Ballot, Audit.RowsOf, Audit.BucketCounts, Audit.ById, Audit.Scoped;
    hide Audit.Filter;
    var s := Audit.Production(Audit.Scoped(ds, q));
    ProductionInScope(ds, q);
    TotalCongruence(s, Audit.Billed, Audit.Counterfactual);
  }

  lemma ProductionInScope(ds: set<Decision>, q: Audit.Query)
    ensures forall d :: d in Audit.Production(Audit.Scoped(ds, q)) ==> d in ds && d.bucket != Shadow
  {}

  /** Control requests are never routed ones, so the two counts cannot overlap. */
  lemma RoutedAndControlAreDisjoint(ds: set<Decision>, os: seq<Outcome>, q: Audit.Query, sqrt: real -> real)
    requires forall d :: d in ds && d.bucket == Control ==> d.selected == d.incumbent
    ensures var t := Audit.SummaryOf(ds, os, q, sqrt).totals; t.routed + t.control <= t.requests
  {
    hide Audit.ArmsOf, Audit.ArmInterval, Audit.Ballot, Audit.RowsOf, Audit.BucketCounts, Audit.ById;
    var s := Audit.Scoped(ds, q);
    var routed, control := Audit.Filter(s, Audit.IsRouted), Audit.Filter(s, Audit.IsControl);
    assert routed !! control && routed + control <= Audit.Production(s);
    SubsetSize(routed + control, Audit.Production(s));
  }

  lemma SubsetSize(a: set<Decision>, b: set<Decision>)
    requires a <= b
    ensures |a| <= |b|
  {
    assert b == a + (b - a);
  }
}
