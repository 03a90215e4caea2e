/** How a request moves from model to model, in any run: which models are tried, in which order, after which
    failures the next one is called, and when the request gives up. */
module Failover {
  import opened Domain
  import opened Origins
  import opened Policies
  import opened Protocol
  import opened ProtocolInvariant
  import opened ProtocolLaws
  import opened Requests
  import opened Routing
  import opened Sequences

  /** Failures of the transport or of the circuit, timeouts, conflicts, rate limits and server errors. */
  predicate WorthARetry(r: Reply)
  {
    match r
    case CircuitOpen => true
    case Unsendable => true
    case TransportError => true
    case Upstream(status) => status == 408 || status == 409 || status == 429 || status >= 500
    case Success => false
    case EncodeError => false
  }

  lemma GoesOnIff(r: Reply)
    ensures GoesOn(r) <==> WorthARetry(r)
  {}

  // ---------- the plan ----------

  function FirstIndex(s: seq<string>, x: string): (i: nat)
    requires x in s
    ensures i < |s| && s[i] == x && x !in s[..i]
  {
    var n := |s| - 1;
    if x in s[..n] then FirstIndex(s[..n], x) else n
  }

  /** The selected model, the fallbacks in the order of the policy, then the incumbent. */
  function ListedFor(d: Decision, p: Policy): seq<string> { [d.selected] + p.fallbacks + [p.incumbent] }

  /** A model that may be called: catalogued, of a provider the tenant has, and not found infeasible. */
  predicate Callable(d: Decision, catalog: Catalog, providers: set<string>, id: string)
  {
    && id != "" && id in catalog && catalog[id].provider in providers
    && (id !in d.predictions || d.predictions[id].eligible)
  }

  /** All listed models that may be called, once each, in the order of their first mention. */
  ghost predicate IsPlan(plan: seq<string>, d: Decision, p: Policy, catalog: Catalog, providers: set<string>)
  {
    && NoDuplicates(plan)
    && (forall id :: id in plan <==> id in ListedFor(d, p) && Callable(d, catalog, providers, id))
    && forall i, j :: 0 <= i < j < |plan| ==>
         FirstIndex(ListedFor(d, p), plan[i]) < FirstIndex(ListedFor(d, p), plan[j])
  }

  lemma {:induction false} UniqueInOrder(values: seq<string>)
    ensures forall x :: x in Unique(values) ==> x in values
    ensures forall i, j :: 0 <= i < j < |Unique(values)| ==>
              FirstIndex(values, Unique(values)[i]) < FirstIndex(values, Unique(values)[j])
  {
    UniqueMembers(values);
    if values != [] {
      var n := |values| - 1;
      UniqueMembers(values[..n]);
      UniqueInOrder(values[..n]);
      var before := Unique(values[..n]);
      forall x | x in before
        ensures FirstIndex(values, x) == FirstIndex(values[..n], x) < n
      {
        assert x in values[..n];
      }
      if values[n] != "" && values[n] !in before { assert values[n] !in values[..n]; }
    }
  }

  ghost predicate Rising(s: seq<string>, listed: seq<string>)
  {
    && (forall x :: x in s ==> x in listed)
    && forall i, j :: 0 <= i < j < |s| ==> FirstIndex(listed, s[i]) < FirstIndex(listed, s[j])
  }

  lemma RisingEnd(s: seq<string>, listed: seq<string>)
    requires Rising(s, listed) && s != []
    ensures var n := |s| - 1;
            Rising(s[..n], listed) && s[n] in listed &&
            forall x :: x in s[..n] ==> x in listed && FirstIndex(listed, x) < FirstIndex(listed, s[n])
  {
    hide FirstIndex;
    assert s[|s| - 1] in s;
  }

  lemma RisingAppend(s: seq<string>, x: string, listed: seq<string>)
    requires Rising(s, listed) && x in listed
    requires forall y :: y in s ==> FirstIndex(listed, y) < FirstIndex(listed, x)
    ensures Rising(s + [x], listed)
  {
    hide FirstIndex;
  }

  lemma {:induction false} UsableInOrder(d: Decision, catalog: Catalog, providers: set<string>, order: seq<string>,
                                         listed: seq<string>)
    requires Rising(order, listed)
    ensures Rising(UsableIn(d, catalog, providers, order), listed)
  {
    hide FirstIndex, Usable, Rising;
    if order == [] {
      assert Rising([], listed);
    } else {
      var n := |order| - 1;
      RisingEnd(order, listed);
      UsableInOrder(d, catalog, providers, order[..n], listed);
      UsableMembers(d, catalog, providers, order[..n]);
      var before := UsableIn(d, catalog, providers, order[..n]);
      if Usable(d, catalog, providers, order[n]) {
        RisingAppend(before, order[n], listed);
      } else {
        assert before + [] == before;
      }
    }
  }

  lemma PlannedCallsArePlan(d: Decision, p: Policy, catalog: Catalog, providers: set<string>)
    ensures IsPlan(PlannedCalls(d, p, catalog, providers), d, p, catalog, providers)
  {
    hide Unique, UsableIn, FirstIndex;
    var listed := ListedFor(d, p);
    UniqueMembers(listed);
    UniqueInOrder(listed);
    UsableMembers(d, catalog, providers, Unique(listed));
    UsableInOrder(d, catalog, providers, Unique(listed), listed);
  }

  // ---------- giving up ----------

  /** Some provider refused the request in a way that is not worth a retry, or answered it. */
  ghost predicate Settled(timeline: seq<Entry>, id: string)
  {
    exists entry :: entry in timeline && entry.Replied? && entry.id == id && !WorthARetry(entry.reply)
  }

  ghost predicate AllStopped(actions: seq<Action>, s: State)
  {
    forall id :: id in s.records && id in s.work && s.records[id].bucket != Shadow && s.work[id].phase == Over ==>
        Call(id, false) in actions || Settled(s.timeline, id)
  }

  lemma SettledGrows(s: State, t: State)
    requires s.timeline <= t.timeline
    ensures forall id :: Settled(s.timeline, id) ==> Settled(t.timeline, id)
  {
    forall id | Settled(s.timeline, id)
      ensures Settled(t.timeline, id)
    {
      var entry :| entry in s.timeline && entry.Replied? && entry.id == id && !WorthARetry(entry.reply);
      assert entry in t.timeline;
    }
  }

  lemma StepStops(catalog: Catalog, actions: seq<Action>, s: State, a: Action)
    requires AllStopped(actions, s) && Enabled(catalog, s, a) && a in actions
    ensures AllStopped(actions, Step(catalog, s, a))
  {
    hide RouteOf, PlannedCalls, Completed, ShadowResult, ReservationOf, Settled, GoesOn, Finalized;
    StepGrows(catalog, s, a);
    SettledGrows(s, Step(catalog, s, a));
    if a.FinishShadow? { StaysShadow(catalog, s.records[a.id], a.response, a.now); }
    if a.Answer? && !GoesOn(a.reply) { HeardSettles(s, a.id, a.reply); }
  }

  lemma StaysShadow(catalog: Catalog, d: Decision, response: Response, now: int)
    ensures ShadowResult(d, response, catalog, now).bucket == d.bucket
  {}

  lemma HeardSettles(s: State, id: string, reply: Reply)
    requires Serving(s, id) && !GoesOn(reply)
    ensures Settled(Heard(s, id, reply).timeline, id)
  {
    GoesOnIff(reply);
    assert Replied(id, reply) in Heard(s, id, reply).timeline;
  }

  lemma {:induction false} RunsStop(catalog: Catalog, actions: seq<Action>)
    requires ValidCatalog(catalog)
    ensures AllStopped(actions, Run(catalog, actions))
  {
    hide Enabled, Step, Settled;
    if actions != [] {
      var n := |actions| - 1;
      RunsStop(catalog, actions[..n]);
      var s := Run(catalog, actions[..n]);
      if Enabled(catalog, s, actions[n]) { StepStops(catalog, actions, s, actions[n]); }
    }
  }

  // ---------- over runs ----------

  lemma {:induction false} RepliesHold(timeline: seq<Entry>, id: string, j: nat)
    requires j < |timeline| && timeline[j].Replied? && timeline[j].id == id
    ensures timeline[j].reply in RepliesOf(timeline, id)
  {
    var n := |timeline| - 1;
    if j < n {
      RepliesHold(timeline[..n], id, j);
      assert timeline[..n][j] == timeline[j];
    }
  }

  /** Whatever a provider replied before another model was called was worth a retry. */
  lemma CallsFollowRetries(catalog: Catalog, actions: seq<Action>, j: nat, k: nat)
    requires ValidCatalog(catalog)
    requires var timeline := Run(catalog, actions).timeline;
             j < k < |timeline| && timeline[j].Replied? && timeline[k].Called? && timeline[j].id == timeline[k].id
    ensures WorthARetry(Run(catalog, actions).timeline[j].reply)
  {
    hide Run, Recorded, CallsOf, RepliesOf;
    var timeline := Run(catalog, actions).timeline;
    CallsFollowRecords(catalog, actions, k);
    RepliesHold(timeline[..k], timeline[k].id, j);
    GoesOnIff(timeline[j].reply);
  }

  /** A request calls the models of its plan in order. Once it is completed it has called all of them, unless
      a provider settled it or its body could not be encoded. */
  lemma RequestsTryTheirPlan(catalog: Catalog, actions: seq<Action>, id: string) returns (a: Action, plan: seq<string>)
    requires ValidCatalog(catalog)
    requires id in Run(catalog, actions).records && Run(catalog, actions).records[id].bucket != Shadow
    ensures var s := Run(catalog, actions); var d := s.records[id]; var calls := CallsOf(s.timeline, id);
            && a in actions && RoutedBy(catalog, a, d) && IsPlan(plan, d, a.p, catalog, a.providers)
            && calls <= plan && d.attempted == calls
            && (d.completedAt != None && calls != plan ==> Settled(s.timeline, id) || Call(id, false) in actions)
  {
    hide Run, RoutedBy, PlannedBy, CallsOf, RepliesOf, Settled, PlannedCalls, IsPlan, HasOrigin, Recorded, FinalOf;
    var s := Run(catalog, actions);
    Reachable(catalog, actions);
    RecordIsOk(s, id);
    RunsOriginate(catalog, actions);
    OneOriginates(catalog, actions, s, id);
    RunsStop(catalog, actions);
    a, plan := PlanOfOrigin(catalog, actions, s.records[id], s.work[id]);
  }

  lemma PlanOfOrigin(catalog: Catalog, actions: seq<Action>, d: Decision, w: Work)
    returns (a: Action, plan: seq<string>)
    requires HasOrigin(catalog, actions, d, w)
    ensures a in actions && RoutedBy(catalog, a, d) && plan == w.usable && IsPlan(plan, d, a.p, catalog, a.providers)
  {
    hide RouteOf, PlannedCalls, IsPlan;
    a :| a in actions && RoutedBy(catalog, a, d) && PlannedBy(catalog, a, w);
    var routed := RouteOf(a.e, a.c, a.p, a.r);
    plan := w.usable;
    PlannedCallsArePlan(routed, a.p, catalog, a.providers);
    SamePlan(plan, routed, d, a.p, catalog, a.providers);
  }

  lemma SamePlan(plan: seq<string>, d: Decision, e: Decision, p: Policy, catalog: Catalog, providers: set<string>)
    requires IsPlan(plan, d, p, catalog, providers) && d.selected == e.selected && d.predictions == e.predictions
    ensures IsPlan(plan, e, p, catalog, providers)
  {
    assert ListedFor(d, p) == ListedFor(e, p);
    assert forall id :: Callable(d, catalog, providers, id) <==> Callable(e, catalog, providers, id);
  }
}
