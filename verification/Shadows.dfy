/** Shadow calls and their daily budget (internal/api/server.go:310-394). */
module Shadows {
  import opened Domain
  import opened Policies
  import opened Routing
  import opened RoutingLaws
  import opened Requests

  /** One call of reserveShadowBudget. `configured` tells whether the tenant has the provider: if
      not, the reservation stands but no call is made. */
  datatype Reservation = Reservation(key: string, model: string, budget: real, cost: real, configured: bool)

  type Ledger = map<string, real>

  function SpentOn(spend: Ledger, key: string): real { if key in spend then spend[key] else 0.0 }

  predicate Granted(spend: Ledger, r: Reservation) { SpentOn(spend, r.key) + r.cost <= r.budget }

  function Reserve(spend: Ledger, r: Reservation): Ledger
  {
    if Granted(spend, r) then spend[r.key := SpentOn(spend, r.key) + r.cost] else spend
  }

  /** The reservations of all requests, in the order in which they got the lock. */
  function Run(spend: Ledger, rs: seq<Reservation>): Ledger
    decreases |rs|
  {
    if rs == [] then spend else Run(Reserve(spend, rs[0]), rs[1..])
  }

  function GrantedTotal(spend: Ledger, rs: seq<Reservation>, key: string): real
    decreases |rs|
  {
    if rs == [] then 0.0 else
      (if rs[0].key == key && Granted(spend, rs[0]) then rs[0].cost else 0.0) +
      GrantedTotal(Reserve(spend, rs[0]), rs[1..], key)
  }

  function LaunchedTotal(spend: Ledger, rs: seq<Reservation>, key: string): real
    decreases |rs|
  {
    if rs == [] then 0.0 else
      (if rs[0].key == key && Granted(spend, rs[0]) && rs[0].configured then rs[0].cost else 0.0) +
      LaunchedTotal(Reserve(spend, rs[0]), rs[1..], key)
  }

  function Launched(spend: Ledger, rs: seq<Reservation>): seq<string>
    decreases |rs|
  {
    if rs == [] then [] else
      (if Granted(spend, rs[0]) && rs[0].configured then [rs[0].model] else []) +
      Launched(Reserve(spend, rs[0]), rs[1..])
  }

  /** The running total of a tenant, policy and day is what was granted to it, neither more nor less. */
  lemma {:induction false} SpendIsWhatWasGranted(spend: Ledger, rs: seq<Reservation>, key: string)
    ensures SpentOn(Run(spend, rs), key) == SpentOn(spend, key) + GrantedTotal(spend, rs, key)
    decreases |rs|
  {
    if rs != [] { SpendIsWhatWasGranted(Reserve(spend, rs[0]), rs[1..], key); }
  }

  /** Under any interleaving of requests the total stays within the budget, as long as the policy
      keeps its budget during the day. Negative estimates would not break this. */
  lemma {:induction false} BudgetIsNeverExceeded(spend: Ledger, rs: seq<Reservation>, key: string, budget: real)
    requires SpentOn(spend, key) <= budget
    requires forall r :: r in rs && r.key == key ==> r.budget == budget
    ensures SpentOn(Run(spend, rs), key) <= budget
    decreases |rs|
  {
    if rs != [] {
      assert rs[0] in rs;
      BudgetIsNeverExceeded(Reserve(spend, rs[0]), rs[1..], key, budget);
    }
  }

  /** What is really spent on calls is at most what was reserved. */
  lemma {:induction false} LaunchedWithinGranted(spend: Ledger, rs: seq<Reservation>, key: string)
    requires forall r :: r in rs ==> r.cost >= 0.0
    ensures 0.0 <= LaunchedTotal(spend, rs, key) <= GrantedTotal(spend, rs, key)
    decreases |rs|
  {
    if rs != [] {
      assert rs[0] in rs;
      LaunchedWithinGranted(Reserve(spend, rs[0]), rs[1..], key);
    }
  }

  /** From an empty ledger, for a whole day of requests: launched <= reserved <= budget. */
  lemma ADayOfShadows(rs: seq<Reservation>, key: string, budget: real)
    requires budget >= 0.0
    requires forall r :: r in rs ==> r.cost >= 0.0 && (r.key == key ==> r.budget == budget)
    ensures LaunchedTotal(map[], rs, key) <= SpentOn(Run(map[], rs), key) <= budget
  {
    SpendIsWhatWasGranted(map[], rs, key);
    BudgetIsNeverExceeded(map[], rs, key, budget);
    LaunchedWithinGranted(map[], rs, key);
  }

  // ---------- launching ----------

  function Key(tenant: string, p: Policy, day: string): string { tenant + "|" + p.id + "|" + day }

  predicate ShadowsAllowed(d: Decision) { d.risk != RegulatedRisk && d.risk != HighRisk }

  function ReservationFor(d: Decision, p: Policy, catalog: Catalog, providers: set<string>, day: string, id: string)
    : Reservation
  {
    Reservation(Key(d.tenant, p, day), id, p.shadowBudget, At(d.predictions, id).estimatedCost,
                (if id in catalog then catalog[id].provider else "") in providers)
  }

  /** The reservations one finished request makes. */
  function ReservationsOf(d: Decision, p: Policy, catalog: Catalog, providers: set<string>, day: string,
                          ids: seq<string>): seq<Reservation>
  {
    if ids == [] then [] else
      var n := |ids| - 1;
      ReservationsOf(d, p, catalog, providers, day, ids[..n]) +
      if ids[n] == d.final then [] else [ReservationFor(d, p, catalog, providers, day, ids[n])]
  }

  lemma {:induction false} RunAppend(spend: Ledger, rs: seq<Reservation>, r: Reservation)
    ensures Run(spend, rs + [r]) == Reserve(Run(spend, rs), r)
    ensures Launched(spend, rs + [r]) == Launched(spend, rs) +
              if Granted(Run(spend, rs), r) && r.configured then [r.model] else []
    decreases |rs|
  {
    if rs == [] {
      assert [r][1..] == [];
    } else {
      assert (rs + [r])[1..] == rs[1..] + [r];
      RunAppend(Reserve(spend, rs[0]), rs[1..], r);
    }
  }

  class ShadowBudget {
    var spend: Ledger

    constructor ()
      ensures spend == map[]
    {
      spend := map[];
    }

    method ReserveBudget(r: Reservation) returns (granted: bool)
      modifies this
      ensures granted == Granted(old(spend), r) && spend == Reserve(old(spend), r)
    {
      var spent := if r.key in spend then spend[r.key] else 0.0;
      if spent + r.cost > r.budget { return false; }
      spend := spend[r.key := spent + r.cost];
      granted := true;
    }

    /** launchShadows: the models for which a shadow call is started. */
    method LaunchShadows(d: Decision, p: Policy, catalog: Catalog, providers: set<string>, day: string)
      returns (launched: seq<string>)
      modifies this
      ensures var rs := if ShadowsAllowed(d) then ReservationsOf(d, p, catalog, providers, day, d.shadowModels) else [];
              spend == Run(old(spend), rs) && launched == Launched(old(spend), rs)
    {
      launched := [];
      if |d.shadowModels| == 0 || d.risk == RegulatedRisk || d.risk == HighRisk { return; }
      ghost var rs: seq<Reservation> := [];
      for i := 0 to |d.shadowModels|
        invariant rs == ReservationsOf(d, p, catalog, providers, day, d.shadowModels[..i])
        invariant spend == Run(old(spend), rs) && launched == Launched(old(spend), rs)
      {
        var id := d.shadowModels[i];
        assert d.shadowModels[..i + 1][..i] == d.shadowModels[..i];
        if id == d.final { continue; }
        var r := ReservationFor(d, p, catalog, providers, day, id);
        RunAppend(old(spend), rs, r);
        rs := rs + [r];
        var granted := ReserveBudget(r);
        if !granted { continue; }
        if !r.configured { continue; }
        launched := launched + [id];
      }
      assert d.shadowModels[..|d.shadowModels|] == d.shadowModels;
    }
  }

  /** A reservation that fits when its turn comes, for a provider the tenant has. */
  ghost predicate Starts(spend: Ledger, rs: seq<Reservation>, i: nat)
    requires i < |rs|
  {
    rs[i].configured && SpentOn(Run(spend, rs[..i]), rs[i].key) + rs[i].cost <= rs[i].budget
  }

  /** Exactly the models are launched whose reservation fits when its turn comes and whose provider the tenant
      has. */
  lemma {:induction false} LaunchedIff(spend: Ledger, rs: seq<Reservation>, m: string)
    ensures m in Launched(spend, rs) <==> exists i :: 0 <= i < |rs| && rs[i].model == m && Starts(spend, rs, i)
    decreases |rs|
  {
    hide Run, Launched, SpentOn;
    if rs == [] {
      NothingLaunched(spend);
    } else {
      var n := |rs| - 1;
      assert rs == rs[..n] + [rs[n]];
      LaunchedIff(spend, rs[..n], m);
      RunAppend(spend, rs[..n], rs[n]);
      forall i | 0 <= i < n
        ensures Starts(spend, rs[..n], i) == Starts(spend, rs, i) && rs[..n][i] == rs[i]
      {
        assert rs[..n][..i] == rs[..i];
      }
      if i :| 0 <= i < n && rs[..n][i].model == m && Starts(spend, rs[..n], i) {
        assert rs[i].model == m && Starts(spend, rs, i);
      }
      if Granted(Run(spend, rs[..n]), rs[n]) && rs[n].configured { assert Starts(spend, rs, n); }
    }
  }

  lemma NothingLaunched(spend: Ledger)
    ensures Launched(spend, []) == []
  {}

  /** A finished request asks for budget for every listed model except the one that answered, each on the ledger
      and within the budget of its tenant and policy, at the estimate its own record holds. */
  lemma {:induction false} ReservationsAreListed(d: Decision, p: Policy, catalog: Catalog, providers: set<string>,
                                                 day: string, ids: seq<string>)
    ensures var rs := ReservationsOf(d, p, catalog, providers, day, ids);
            && (forall id :: id in ids && id != d.final <==> exists r :: r in rs && r.model == id)
            && (forall r :: r in rs ==>
                  && r.model in ids && r.model != d.final && r.budget == p.shadowBudget
                  && r.key == d.tenant + "|" + p.id + "|" + day
                  && r.cost == (if r.model in d.predictions then d.predictions[r.model].estimatedCost else 0.0)
                  && (r.model in catalog ==> (r.configured <==> catalog[r.model].provider in providers)))
  {
    if ids != [] {
      var n := |ids| - 1;
      ReservationsAreListed(d, p, catalog, providers, day, ids[..n]);
      var before := ReservationsOf(d, p, catalog, providers, day, ids[..n]);
      var last := ReservationFor(d, p, catalog, providers, day, ids[n]);
      var rs := ReservationsOf(d, p, catalog, providers, day, ids);
      assert forall r :: r in rs <==> r in before || (ids[n] != d.final && r == last);
      assert forall x :: x in ids <==> x in ids[..n] || x == ids[n];
      if ids[n] != d.final { assert last in rs && last.model == ids[n]; }
    }
  }

  /** A shadow call goes to an eligible candidate other than the model that answered, for a request
      that is neither high-risk nor regulated, under a policy with a shadow budget. */
  lemma ShadowsAreSafe(e: Engine, c: Context, p: Policy, r: Request, attempted: seq<string>, final: string,
                       providers: set<string>, day: string, spend: Ledger)
    requires ValidCatalog(e.catalog)
    ensures var d := Finalized(RouteOf(e, c, p, r), attempted, final);
            var rs := if ShadowsAllowed(d) then ReservationsOf(d, p, e.catalog, providers, day, d.shadowModels) else [];
            forall m :: m in Launched(spend, rs) ==>
              && m in p.candidates && m != final && At(d.predictions, m).eligible && p.shadowBudget > 0.0
              && d.risk != HighRisk && d.risk != RegulatedRisk
  {
    hide RouteOf, ReservationsOf, Launched;
    var d := Finalized(RouteOf(e, c, p, r), attempted, final);
    RoutedDecision(e, c, p, r);
    var rs := if ShadowsAllowed(d) then ReservationsOf(d, p, e.catalog, providers, day, d.shadowModels) else [];
    ReservationsAreListed(d, p, e.catalog, providers, day, d.shadowModels);
    forall m | m in Launched(spend, rs)
      ensures exists r :: r in rs && r.model == m
    {
      LaunchedIff(spend, rs, m);
      var i :| 0 <= i < |rs| && rs[i].model == m;
      assert rs[i] in rs;
    }
  }
}
