/** Whose shadow budget a reservation draws on, over whole runs: each tenant, policy and day has a ledger of
    its own, a reservation is granted exactly when it still fits, and a budget that all requests of a
    tenant and policy agree on is never exceeded. */
module Budgets {
  import opened Domain
  import opened Origins
  import opened Policies
  import opened Protocol
  import opened ProtocolInvariant
  import opened ProtocolLaws
  import opened Requests
  import opened Routing
  import RoutingLaws
  import Shadows

  // ---------- ledgers ----------

  /** Joined by one character that does not occur in the parts before it, two lists are the same part by part. */
  lemma {:induction false} SplitsAlike(a: string, b: string, x: string, y: string)
    requires '|' !in a && '|' !in b && a + "|" + x == b + "|" + y
    ensures a == b && x == y
  {
    var s, t := a + "|" + x, b + "|" + y;
    assert s[|a|] == '|' && t[|b|] == '|';
    assert (forall i :: 0 <= i < |a| ==> s[i] == a[i]) && forall i :: 0 <= i < |b| ==> t[i] == b[i];
    assert |a| == |b|;
    assert a == s[..|a|] && b == t[..|b|] && x == s[|a| + 1..] && y == t[|b| + 1..];
  }

  lemma {:induction false} SplitsAlikeAtTheEnd(a: string, b: string, x: string, y: string)
    requires '|' !in x && '|' !in y && a + "|" + x == b + "|" + y
    ensures a == b && x == y
  {
    var s, t := a + "|" + x, b + "|" + y;
    assert s[|a|] == '|' && t[|b|] == '|';
    assert forall i :: |a| < i < |s| ==> s[i] == x[i - |a| - 1];
    assert forall i :: |b| < i < |t| ==> t[i] == y[i - |b| - 1];
    assert |a| == |b|;
    assert a == s[..|a|] && b == t[..|b|] && x == s[|a| + 1..] && y == t[|b| + 1..];
  }

  /** Neither tenants nor days share a ledger, nor do policies, whatever characters their names have, as long
      as tenant names and days do not contain the separator. */
  lemma LedgersAreSeparate(tenant: string, p: Policy, day: string, tenant': string, p': Policy, day': string)
    requires '|' !in tenant && '|' !in tenant' && '|' !in day && '|' !in day'
    ensures Shadows.Key(tenant, p, day) == Shadows.Key(tenant', p', day') <==>
              tenant == tenant' && p.id == p'.id && day == day'
  {
    if Shadows.Key(tenant, p, day) == Shadows.Key(tenant', p', day') {
      assert Shadows.Key(tenant, p, day) == (tenant + "|" + p.id) + "|" + day;
      assert Shadows.Key(tenant', p', day') == (tenant' + "|" + p'.id) + "|" + day';
      SplitsAlikeAtTheEnd(tenant + "|" + p.id, tenant' + "|" + p'.id, day, day');
      SplitsAlike(tenant, tenant', p.id, p'.id);
    }
  }

  /** A tenant with the separator in its name can share the ledger of another one. */
  lemma SeparatorsMixLedgers(p: Policy, day: string)
    ensures var other := p.(id := "b|" + p.id);
            Shadows.Key("a", other, day) == Shadows.Key("a|b", p, day)
  {
    var other := p.(id := "b|" + p.id);
    assert "a" + "|" + other.id == "a|b" + "|" + p.id;
  }

  // ---------- reservations ----------

  /** The reservation draws on the ledger of its request's tenant and policy, within that policy's budget. */
  ghost predicate DrawsFor(r: Shadows.Reservation, a: Action, day: string)
  {
    a.Arrive? && r.key == Shadows.Key(a.c.tenant, a.p, day) && r.budget == a.p.shadowBudget
  }

  ghost predicate IsDay(actions: seq<Action>, day: string)
  {
    exists a :: a in actions && a.ReserveShadow? && a.day == day
  }

  ghost predicate Drawn(actions: seq<Action>, entry: Entry)
  {
    entry.Reserved? ==>
      exists a, day :: a in actions && a.Arrive? && a.c.id == entry.parent && IsDay(actions, day) &&
        DrawsFor(entry.r, a, day)
  }

  ghost predicate AllDrawn(actions: seq<Action>, timeline: seq<Entry>)
  {
    forall entry :: entry in timeline ==> Drawn(actions, entry)
  }

  lemma DrawnRemains(actions: seq<Action>, a: Action, timeline: seq<Entry>)
    requires AllDrawn(actions, timeline)
    ensures AllDrawn(actions + [a], timeline)
  {
    hide DrawsFor;
    forall entry | entry in timeline
      ensures Drawn(actions + [a], entry)
    {
      assert Drawn(actions, entry);
      if entry.Reserved? {
        var b, day :| b in actions && b.Arrive? && b.c.id == entry.parent && IsDay(actions, day) &&
                      DrawsFor(entry.r, b, day);
        var first :| first in actions && first.ReserveShadow? && first.day == day;
        assert first in actions + [a] && b in actions + [a];
      }
    }
  }

  lemma StepDraws(catalog: Catalog, actions: seq<Action>, s: State, a: Action)
    requires ValidCatalog(catalog) && AllDrawn(actions, s.timeline) && AllOriginate(catalog, actions, s)
    requires Enabled(catalog, s, a) && a in actions
    ensures AllDrawn(actions, Step(catalog, s, a).timeline)
  {
    hide RouteOf, PlanFor, Completed, ShadowResult, ReservationOf, Drawn, AllOriginate;
    if a.ReserveShadow? {
      var r := ReservationOf(s, catalog, a.parent, a.model, a.day);
      NewReservationIsDrawn(catalog, actions, s, a);
      forall entry | entry in Step(catalog, s, a).timeline
        ensures Drawn(actions, entry)
      {
        if entry !in s.timeline { assert entry == Reserved(a.parent, a.id, r); }
      }
    } else {
      QuietStepDraws(catalog, actions, s, a);
    }
  }

  lemma QuietStepDraws(catalog: Catalog, actions: seq<Action>, s: State, a: Action)
    requires AllDrawn(actions, s.timeline) && Enabled(catalog, s, a) && !a.ReserveShadow?
    ensures AllDrawn(actions, Step(catalog, s, a).timeline)
  {
    hide RouteOf, PlanFor, Completed, ShadowResult, Finalized, DrawsFor, IsDay;
  }

  lemma NewReservationIsDrawn(catalog: Catalog, actions: seq<Action>, s: State, a: Action)
    requires ValidCatalog(catalog) && AllOriginate(catalog, actions, s) && Enabled(catalog, s, a)
    requires a.ReserveShadow? && a in actions
    ensures Drawn(actions, Reserved(a.parent, a.id, ReservationOf(s, catalog, a.parent, a.model, a.day)))
  {
    hide RouteOf, PlannedCalls, AllOriginate;
    OneOriginates(catalog, actions, s, a.parent);
    var d, w := s.records[a.parent], s.work[a.parent];
    var arrival :| arrival in actions && RoutedBy(catalog, arrival, d) && PlannedBy(catalog, arrival, w);
    SameTenant(catalog, arrival, d);
    assert IsDay(actions, a.day);
    assert DrawsFor(ReservationOf(s, catalog, a.parent, a.model, a.day), arrival, a.day);
  }

  lemma SameTenant(catalog: Catalog, a: Action, d: Decision)
    requires ValidCatalog(catalog) && RoutedBy(catalog, a, d)
    ensures d.tenant == a.c.tenant
  {
    hide RouteOf;
    RoutingLaws.RoutedDecision(a.e, a.c, a.p, a.r);
  }

  lemma {:induction false} RunsDraw(catalog: Catalog, actions: seq<Action>)
    requires ValidCatalog(catalog)
    ensures AllDrawn(actions, Run(catalog, actions).timeline)
  {
    hide AllDrawn, Enabled, Step, AllOriginate;
    if actions == [] {
      NothingDrawn(catalog);
    } else {
      var n := |actions| - 1;
      var s := Run(catalog, actions[..n]);
      RunsDraw(catalog, actions[..n]);
      RunsOriginate(catalog, actions[..n]);
      DrawnRemains(actions[..n], actions[n], s.timeline);
      OriginsRemain(catalog, actions[..n], actions[n], s);
      assert actions[..n] + [actions[n]] == actions;
      if Enabled(catalog, s, actions[n]) { StepDraws(catalog, actions, s, actions[n]); }
    }
  }

  lemma NothingDrawn(catalog: Catalog)
    ensures AllDrawn([], Run(catalog, []).timeline)
  {}

  /** Every request of the tenant under this policy arrived with the same budget. */
  ghost predicate AgreeOnBudget(actions: seq<Action>, tenant: string, policy: string, budget: real)
  {
    forall a :: a in actions && a.Arrive? && a.c.tenant == tenant && a.p.id == policy ==> a.p.shadowBudget == budget
  }

  ghost predicate Separable(actions: seq<Action>)
  {
    && (forall a :: a in actions && a.Arrive? ==> '|' !in a.c.tenant)
    && (forall a :: a in actions && a.ReserveShadow? ==> '|' !in a.day)
  }

  /** In any interleaving, the shadow reservations that the requests of a tenant under a policy make in a day
      stay within the budget those requests agree on, whatever other tenants and policies spend. */
  lemma TenantsKeepTheirBudgets(catalog: Catalog, actions: seq<Action>, tenant: string, p: Policy, day: string)
    requires ValidCatalog(catalog) && Separable(actions) && p.shadowBudget >= 0.0
    requires AgreeOnBudget(actions, tenant, p.id, p.shadowBudget) && '|' !in tenant && '|' !in day
    ensures ReservedOn(Run(catalog, actions).timeline, tenant + "|" + p.id + "|" + day) <= p.shadowBudget
  {
    hide Run, ReservedOn, Shadows.Key;
    var timeline := Run(catalog, actions).timeline;
    var key := Shadows.Key(tenant, p, day);
    KeyIsJoined(tenant, p, day);
    RunsDraw(catalog, actions);
    forall entry | entry in timeline && entry.Reserved? && entry.r.key == key
      ensures entry.r.budget == p.shadowBudget
    {
      assert Drawn(actions, entry);
      var a, d :| a in actions && a.Arrive? && a.c.id == entry.parent && IsDay(actions, d) && DrawsFor(entry.r, a, d);
      LedgersAreSeparate(a.c.tenant, a.p, d, tenant, p, day);
    }
    BudgetHolds(catalog, actions, key, p.shadowBudget);
  }

  lemma KeyIsJoined(tenant: string, p: Policy, day: string)
    ensures Shadows.Key(tenant, p, day) == tenant + "|" + p.id + "|" + day
  {}

  /** No reservation is withheld: one is granted exactly when, with everything granted on its ledger so far, it
      fits the budget of the request's policy. */
  lemma ReservationsAreNotWithheld(catalog: Catalog, actions: seq<Action>, a: Action)
    requires ValidCatalog(catalog) && a.ReserveShadow? && Enabled(catalog, Run(catalog, actions), a)
    ensures var s, t := Run(catalog, actions), Run(catalog, actions + [a]);
            var d, w := s.records[a.parent], s.work[a.parent];
            var cost := if a.model in d.predictions then d.predictions[a.model].estimatedCost else 0.0;
            var asked := Reserved(a.parent, a.id, ReservationOf(s, catalog, a.parent, a.model, a.day));
            if ReservedOn(s.timeline, d.tenant + "|" + w.policy.id + "|" + a.day) + cost <= w.policy.shadowBudget
            then t.timeline == s.timeline + [asked]
            else t == s
  {
    hide Run, ReservedOn, Records, Consistent, WriteAhead;
    var s := Run(catalog, actions);
    Reachable(catalog, actions);
    assert Balanced(s);
    OneMoreAction(catalog, actions, a);
  }
}
