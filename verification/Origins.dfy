/** Where the lines of a run's log come from: every request's line is the decision the engine made when the
    request arrived, and every shadow's line copies a request that listed it; and the models a request calls
    are the plan of that decision, one after another, as long as the failures are worth it. */
module Origins {
  import opened Domain
  import opened Policies
  import opened Protocol
  import opened Requests
  import opened Routing
  import opened RoutingLaws
  import RoutingReference
  import Shadows

  /** The action with which a request arrived. */
  ghost predicate RoutedBy(catalog: Catalog, a: Action, d: Decision)
  {
    && a.Arrive? && a.e.catalog == catalog && a.c.id == d.id
    && SameRouting(d, RouteOf(a.e, a.c, a.p, a.r)) && d.features == a.r.features
    && d.workflow == a.r.metadata.workflow && d.step == a.r.metadata.step
  }

  ghost predicate PlannedBy(catalog: Catalog, a: Action, w: Work)
  {
    && a.Arrive? && w.policy == a.p && w.providers == a.providers
    && w.usable == PlannedCalls(RouteOf(a.e, a.c, a.p, a.r), a.p, catalog, a.providers)
  }

  ghost predicate HasOrigin(catalog: Catalog, actions: seq<Action>, d: Decision, w: Work)
  {
    exists a :: a in actions && RoutedBy(catalog, a, d) && PlannedBy(catalog, a, w)
  }

  /** A shadow repeats its request for another model. */
  ghost predicate ShadowCopies(d: Decision, parent: Decision)
  {
    && d.parentId == parent.id && parent.bucket != Shadow && d.selected in parent.shadowModels
    && d.tenant == parent.tenant && d.trace == parent.trace && d.workflow == parent.workflow && d.step == parent.step
    && d.risk == parent.risk && d.policyId == parent.policyId && d.policyVersion == parent.policyVersion
    && d.snapshotVersion == parent.snapshotVersion && d.catalogVersion == parent.catalogVersion
    && d.incumbent == parent.incumbent && d.predictions == parent.predictions && d.features == parent.features
    && d.attempted == [d.selected] && d.shadowModels == []
  }

  ghost predicate HasParent(s: State, d: Decision)
  {
    d.parentId in s.records && ShadowCopies(d, s.records[d.parentId])
  }

  /** One record of a decision repeats the routing of another. */
  predicate Follows(d: Decision, e: Decision)
  {
    && SameRouting(d, e) && d.features == e.features && d.workflow == e.workflow && d.step == e.step
    && (d.bucket == Shadow ==> d.attempted == e.attempted)
  }

  ghost predicate RecordOriginates(catalog: Catalog, actions: seq<Action>, s: State, id: string)
    requires id in s.records
  {
    && s.records[id].id == id
    && if s.records[id].bucket == Shadow then HasParent(s, s.records[id])
       else id in s.work && HasOrigin(catalog, actions, s.records[id], s.work[id])
  }

  ghost predicate LineOriginates(s: State, entry: Entry)
  {
    entry.Saved? ==> entry.d.id in s.records && Follows(entry.d, s.records[entry.d.id])
  }

  ghost predicate AllOriginate(catalog: Catalog, actions: seq<Action>, s: State)
  {
    && (forall id :: id in s.records ==> RecordOriginates(catalog, actions, s, id))
    && (forall entry :: entry in s.timeline ==> LineOriginates(s, entry))
  }

  // ---------- the steps ----------

  lemma OriginFollows(catalog: Catalog, actions: seq<Action>, d: Decision, e: Decision, w: Work, v: Work)
    requires HasOrigin(catalog, actions, d, w) && Follows(e, d)
    requires v.policy == w.policy && v.providers == w.providers && v.usable == w.usable
    ensures HasOrigin(catalog, actions, e, v)
  {
    hide RouteOf, PlannedCalls;
    var a :| a in actions && RoutedBy(catalog, a, d) && PlannedBy(catalog, a, w);
    assert RoutedBy(catalog, a, e) && PlannedBy(catalog, a, v);
  }

  lemma FollowsOn(d: Decision, e: Decision, f: Decision)
    requires Follows(d, e) && Follows(e, f)
    ensures Follows(d, f)
  {}

  lemma FollowsBack(d: Decision, e: Decision)
    requires Follows(d, e)
    ensures Follows(e, d) && Follows(d, d)
  {}

  lemma ShadowsFollow(d: Decision, parent: Decision, e: Decision, f: Decision)
    requires ShadowCopies(d, parent) && Follows(e, d) && Follows(f, parent) && d.bucket == Shadow
    ensures ShadowCopies(e, f)
  {}

  /** Only one decision moves on, and keeps its routing and its plan. */
  ghost predicate Advances(s: State, t: State, id: string)
  {
    && id in s.records && t.records.Keys == s.records.Keys && Follows(t.records[id], s.records[id])
    && (forall other :: other in s.records && other != id ==> t.records[other] == s.records[other])
    && s.work.Keys <= t.work.Keys
    && (forall other :: other in s.work ==> var v, w := t.work[other], s.work[other];
          v.policy == w.policy && v.providers == w.providers && v.usable == w.usable)
    && s.timeline <= t.timeline
    && (forall i :: |s.timeline| <= i < |t.timeline| && t.timeline[i].Saved? ==> t.timeline[i].d == t.records[id])
  }

  lemma AdvancingFollows(s: State, t: State, id: string, other: string)
    requires Advances(s, t, id) && other in s.records
    ensures Follows(t.records[other], s.records[other]) && Follows(s.records[other], t.records[other])
  {
    hide Follows;
    if other == id {
      FollowsBack(t.records[id], s.records[id]);
    } else {
      EveryRecordFollowsItself(s.records[other]);
    }
  }

  lemma EveryRecordFollowsItself(d: Decision)
    ensures Follows(d, d)
  {}

  lemma AdvanceOriginates(catalog: Catalog, actions: seq<Action>, s: State, t: State, id: string)
    requires AllOriginate(catalog, actions, s) && Advances(s, t, id)
    ensures AllOriginate(catalog, actions, t)
  {
    hide AllOriginate, RecordOriginates, LineOriginates, Advances;
    assert t.records.Keys == s.records.Keys by { AdvancingKeys(s, t, id); }
    forall other | other in t.records
      ensures RecordOriginates(catalog, actions, t, other)
    {
      RecordAdvances(catalog, actions, s, t, id, other);
    }
    forall entry | entry in t.timeline
      ensures LineOriginates(t, entry)
    {
      LineAdvances(catalog, actions, s, t, id, entry);
    }
    AllTogether(catalog, actions, t);
  }

  lemma AllTogether(catalog: Catalog, actions: seq<Action>, s: State)
    requires forall id :: id in s.records ==> RecordOriginates(catalog, actions, s, id)
    requires forall entry :: entry in s.timeline ==> LineOriginates(s, entry)
    ensures AllOriginate(catalog, actions, s)
  {}

  lemma AdvancingKeys(s: State, t: State, id: string)
    requires Advances(s, t, id)
    ensures t.records.Keys == s.records.Keys
  {}

  lemma SameBucket(d: Decision, e: Decision)
    requires Follows(d, e)
    ensures d.id == e.id && d.bucket == e.bucket && d.parentId == e.parentId
  {}

  lemma RecordAdvances(catalog: Catalog, actions: seq<Action>, s: State, t: State, id: string, other: string)
    requires AllOriginate(catalog, actions, s) && Advances(s, t, id) && other in s.records && other in t.records
    ensures RecordOriginates(catalog, actions, t, other)
  {
    hide HasOrigin, ShadowCopies, Follows, LineOriginates;
    OneOriginates(catalog, actions, s, other);
    var d, e := s.records[other], t.records[other];
    AdvancingFollows(s, t, id, other);
    SameBucket(e, d);
    if d.bucket == Shadow {
      AdvancingFollows(s, t, id, d.parentId);
      ShadowsFollow(d, s.records[d.parentId], e, t.records[d.parentId]);
    } else {
      OriginFollows(catalog, actions, d, e, s.work[other], t.work[other]);
    }
  }

  lemma LineAdvances(catalog: Catalog, actions: seq<Action>, s: State, t: State, id: string, entry: Entry)
    requires AllOriginate(catalog, actions, s) && Advances(s, t, id) && entry in t.timeline
    ensures LineOriginates(t, entry)
  {
    hide HasOrigin, HasParent, Follows;
    if entry in s.timeline {
      if entry.Saved? {
        assert LineOriginates(s, entry);
        AdvancingFollows(s, t, id, entry.d.id);
        FollowsOn(entry.d, s.records[entry.d.id], t.records[entry.d.id]);
      }
    } else {
      OneOriginates(catalog, actions, s, id);
      SameBucket(t.records[id], s.records[id]);
      EveryRecordFollowsItself(t.records[id]);
    }
  }

  /** A new decision enters. */
  ghost predicate Enters(s: State, t: State, id: string, entry: Entry)
  {
    && id !in s.records && id in t.records && id in t.work && t.records == s.records[id := t.records[id]]
    && t.work == s.work[id := t.work[id]] && t.timeline == s.timeline + [entry]
    && (entry.Saved? ==> entry.d == t.records[id] && entry.d.id == id)
  }

  lemma AddedOriginates(catalog: Catalog, actions: seq<Action>, s: State, t: State, id: string, entry: Entry)
    requires AllOriginate(catalog, actions, s) && Enters(s, t, id, entry) && RecordOriginates(catalog, actions, t, id)
    ensures AllOriginate(catalog, actions, t)
  {
    hide RecordOriginates, LineOriginates, AllOriginate, Enters;
    forall other | other in t.records && other != id
      ensures RecordOriginates(catalog, actions, t, other)
    {
      OldRecord(catalog, actions, s, t, id, entry, other);
    }
    forall e | e in t.timeline
      ensures LineOriginates(t, e)
    {
      OldLine(catalog, actions, s, t, id, entry, e);
    }
    AllTogether(catalog, actions, t);
  }

  lemma OldRecord(catalog: Catalog, actions: seq<Action>, s: State, t: State, id: string, entry: Entry, other: string)
    requires AllOriginate(catalog, actions, s) && Enters(s, t, id, entry) && other in t.records && other != id
    ensures RecordOriginates(catalog, actions, t, other)
  {
    hide HasOrigin, ShadowCopies, AllOriginate, Enters;
    OldStays(s, t, id, entry, other);
    OneOriginates(catalog, actions, s, other);
    if s.records[other].bucket == Shadow { OldStays(s, t, id, entry, s.records[other].parentId); }
  }

  lemma OneOriginates(catalog: Catalog, actions: seq<Action>, s: State, id: string)
    requires AllOriginate(catalog, actions, s) && id in s.records
    ensures RecordOriginates(catalog, actions, s, id)
  {
    hide RecordOriginates, LineOriginates;
  }

  lemma OldStays(s: State, t: State, id: string, entry: Entry, other: string)
    requires Enters(s, t, id, entry)
    ensures other in s.records ==> other in t.records && t.records[other] == s.records[other]
    ensures other != id && other in t.records ==> other in s.records
    ensures other != id && other in s.work ==> other in t.work && t.work[other] == s.work[other]
  {}

  lemma OldLine(catalog: Catalog, actions: seq<Action>, s: State, t: State, id: string, entry: Entry, e: Entry)
    requires AllOriginate(catalog, actions, s) && Enters(s, t, id, entry) && e in t.timeline
    ensures LineOriginates(t, e)
  {
    hide RecordOriginates, Follows;
    if e in s.timeline {
      assert LineOriginates(s, e);
    } else {
      EveryRecordFollowsItself(t.records[id]);
    }
  }

  lemma ArrivalOriginates(catalog: Catalog, actions: seq<Action>, s: State, a: Action)
    requires ValidCatalog(catalog) && AllOriginate(catalog, actions, s) && Enabled(catalog, s, a) && a in actions
    requires a.Arrive? && a.saved
    ensures AllOriginate(catalog, actions, Step(catalog, s, a))
  {
    hide RouteOf, PlannedCalls, AllOriginate, SameRouting;
    var d := RouteOf(a.e, a.c, a.p, a.r);
    RoutedDecision(a.e, a.c, a.p, a.r);
    RoutingReference.RecordMeans(a.e, a.c, a.p, a.r);
    EveryRecordFollowsItself(d);
    var t := Step(catalog, s, a);
    assert RoutedBy(catalog, a, d) && PlannedBy(catalog, a, t.work[d.id]);
    AddedOriginates(catalog, actions, s, t, d.id, Saved(d));
  }

  lemma ReservationOriginates(catalog: Catalog, actions: seq<Action>, s: State, a: Action)
    requires AllOriginate(catalog, actions, s) && Enabled(catalog, s, a) && a.ReserveShadow?
    ensures AllOriginate(catalog, actions, Step(catalog, s, a))
  {
    hide AllOriginate, HasOrigin, ShadowOf, Shadows.Granted, Follows;
    var r := ReservationOf(s, catalog, a.parent, a.model, a.day);
    if Shadows.Granted(s.spend, r) {
      var t := Step(catalog, s, a);
      if r.configured {
        RecordIsKeyed(catalog, actions, s, a.parent);
        NewShadow(s.records[a.parent], a.id, a.model, a.now);
        AddedOriginates(catalog, actions, s, t, a.id, Reserved(a.parent, a.id, r));
      } else {
        EveryRecordFollowsItself(s.records[a.parent]);
        AdvanceOriginates(catalog, actions, s, t, a.parent);
      }
    }
  }

  lemma RecordIsKeyed(catalog: Catalog, actions: seq<Action>, s: State, id: string)
    requires AllOriginate(catalog, actions, s) && id in s.records
    ensures s.records[id].id == id
  {
    OneOriginates(catalog, actions, s, id);
  }

  lemma NewShadow(parent: Decision, id: string, model: string, now: int)
    requires parent.bucket != Shadow && model in parent.shadowModels
    ensures var d := ShadowOf(parent, id, model, now); ShadowCopies(d, parent) && d.id == id && d.bucket == Shadow
  {}

  lemma SavingAdvances(s: State, id: string, d: Decision, saved: bool)
    requires id in s.records && Follows(d, s.records[id])
    ensures Advances(s, Save(s, id, d, saved), id)
  {
    hide Follows;
  }

  lemma NextAdvances(s: State, id: string)
    requires Serving(s, id) && |s.records[id].attempted| < |s.work[id].usable|
    ensures Advances(s, Next(s, id), id)
  {
    hide Follows;
    TriedFollows(s.records[id]);
  }

  lemma HeardAdvances(s: State, id: string, reply: Reply)
    requires Serving(s, id)
    ensures Advances(s, Heard(s, id, reply), id)
  {
    hide Follows, Finalized, GoesOn;
    EveryRecordFollowsItself(s.records[id]);
    TriedFollows(s.records[id]);
  }

  lemma PhaseAdvances(s: State, id: string, phase: Phase, entry: Entry)
    requires id in s.records && id in s.work && !entry.Saved?
    ensures Advances(s, Move(s, id, phase), id) && Advances(s, Log(Move(s, id, phase), entry), id)
  {
    hide Follows;
    EveryRecordFollowsItself(s.records[id]);
  }

  lemma MoveOriginates(catalog: Catalog, actions: seq<Action>, s: State, a: Action)
    requires AllOriginate(catalog, actions, s) && Enabled(catalog, s, a) && !a.Arrive? && !a.ReserveShadow?
    ensures AllOriginate(catalog, actions, Step(catalog, s, a))
  {
    hide AllOriginate, Completed, ShadowResult, Advances, Follows, Save, Next, Heard, Move, Log;
    match a {
      case Call(id, encodes) => if encodes { NextAdvances(s, id); } else { PhaseAdvances(s, id, Over, Called("", "")); }
      case Answer(id, reply) => HeardAdvances(s, id, reply);
      case Finish(id, response, now, saved) =>
        CompletedFollows(catalog, s.records[id], response, now);
        SavingAdvances(s, id, Completed(s.records[id], response, catalog, now), saved);
      case CallShadow(id) =>
        PhaseAdvances(s, id, Waiting, ShadowCalled(s.records[id].parentId, id, s.records[id].selected));
      case FinishShadow(id, response, now, saved) =>
        ShadowResultFollows(catalog, s.records[id], response, now);
        SavingAdvances(s, id, ShadowResult(s.records[id], response, catalog, now), saved);
    }
    AdvanceOriginates(catalog, actions, s, Step(catalog, s, a), a.id);
  }

  lemma CompletedFollows(catalog: Catalog, d: Decision, response: Response, now: int)
    ensures Follows(Completed(d, response, catalog, now), d)
  {
    hide PricedIn;
    CompletionKeepsRouting(d, [], "", response, catalog, now);
    hide SameRouting;
  }

  lemma ShadowResultFollows(catalog: Catalog, d: Decision, response: Response, now: int)
    ensures Follows(ShadowResult(d, response, catalog, now), d)
  {
    hide PricedIn;
  }

  lemma TriedFollows(d: Decision)
    requires d.bucket != Shadow
    ensures forall attempted :: Follows(d.(attempted := attempted), d)
    ensures forall attempted, final :: Follows(Finalized(d, attempted, final), d)
  {}

  lemma StepOriginates(catalog: Catalog, actions: seq<Action>, s: State, a: Action)
    requires ValidCatalog(catalog) && AllOriginate(catalog, actions, s) && Enabled(catalog, s, a) && a in actions
    ensures AllOriginate(catalog, actions, Step(catalog, s, a))
  {
    hide AllOriginate, RouteOf;
    if a.Arrive? {
      if a.saved { ArrivalOriginates(catalog, actions, s, a); }
    } else if a.ReserveShadow? {
      ReservationOriginates(catalog, actions, s, a);
    } else {
      MoveOriginates(catalog, actions, s, a);
    }
  }

  lemma OriginsRemain(catalog: Catalog, actions: seq<Action>, a: Action, s: State)
    requires AllOriginate(catalog, actions, s)
    ensures AllOriginate(catalog, actions + [a], s)
  {
    hide LineOriginates, RoutedBy, PlannedBy, HasParent;
    forall id | id in s.records
      ensures RecordOriginates(catalog, actions + [a], s, id)
    {
      OneOriginates(catalog, actions, s, id);
    }
  }

  lemma {:induction false} RunsOriginate(catalog: Catalog, actions: seq<Action>)
    requires ValidCatalog(catalog)
    ensures AllOriginate(catalog, actions, Run(catalog, actions))
  {
    hide AllOriginate, Enabled, Step;
    if actions == [] {
      IdleOriginates(catalog);
    } else {
      var n := |actions| - 1;
      var s := Run(catalog, actions[..n]);
      RunsOriginate(catalog, actions[..n]);
      OriginsRemain(catalog, actions[..n], actions[n], s);
      assert actions[..n] + [actions[n]] == actions;
      if Enabled(catalog, s, actions[n]) { StepOriginates(catalog, actions, s, actions[n]); }
    }
  }

  lemma IdleOriginates(catalog: Catalog)
    ensures AllOriginate(catalog, [], Run(catalog, []))
  {}

  // ---------- what the log holds ----------

  /** Every line of a request states the routing the engine decided on when that request arrived. */
  lemma LinesComeFromRouting(catalog: Catalog, actions: seq<Action>, k: nat) returns (a: Action)
    requires ValidCatalog(catalog) && k < |Run(catalog, actions).timeline| && Run(catalog, actions).timeline[k].Saved?
    requires Run(catalog, actions).timeline[k].d.bucket != Shadow
    ensures a in actions && RoutedBy(catalog, a, Run(catalog, actions).timeline[k].d)
  {
    hide Run, RoutedBy, PlannedBy, HasParent, Follows;
    var s := Run(catalog, actions);
    var d := s.timeline[k].d;
    RunsOriginate(catalog, actions);
    assert s.timeline[k] in s.timeline && LineOriginates(s, s.timeline[k]);
    SameBucket(d, s.records[d.id]);
    OneOriginates(catalog, actions, s, d.id);
    var w := s.work[d.id];
    OriginFollows(catalog, actions, s.records[d.id], d, w, w);
    a :| a in actions && RoutedBy(catalog, a, d) && PlannedBy(catalog, a, w);
  }

  /** Every line of a shadow copies a request of the run that listed its model as a shadow. */
  lemma ShadowLinesCopyRequests(catalog: Catalog, actions: seq<Action>, k: nat) returns (a: Action, parent: Decision)
    requires ValidCatalog(catalog) && k < |Run(catalog, actions).timeline| && Run(catalog, actions).timeline[k].Saved?
    requires Run(catalog, actions).timeline[k].d.bucket == Shadow
    ensures a in actions && RoutedBy(catalog, a, parent) && ShadowCopies(Run(catalog, actions).timeline[k].d, parent)
  {
    hide Run, RoutedBy, PlannedBy, ShadowCopies, Follows;
    var s := Run(catalog, actions);
    var d := s.timeline[k].d;
    RunsOriginate(catalog, actions);
    assert s.timeline[k] in s.timeline && LineOriginates(s, s.timeline[k]);
    SameBucket(d, s.records[d.id]);
    OneOriginates(catalog, actions, s, d.id);
    parent := s.records[d.parentId];
    EveryRecordFollowsItself(parent);
    ShadowsFollow(s.records[d.id], parent, d, parent);
    OneOriginates(catalog, actions, s, d.parentId);
    CopiesProduction(d, parent);
    var w := s.work[d.parentId];
    a :| a in actions && RoutedBy(catalog, a, parent) && PlannedBy(catalog, a, w);
  }

  lemma CopiesProduction(d: Decision, parent: Decision)
    requires ShadowCopies(d, parent)
    ensures parent.bucket != Shadow
  {}

  /** In any log, an explored request is a low-risk one, its draw lies below the exploration share of its
      policy, and it is past the control group. */
  lemma LoggedExplorationsWereDrawn(catalog: Catalog, actions: seq<Action>, k: nat) returns (a: Action)
    requires ValidCatalog(catalog) && k < |Run(catalog, actions).timeline| && Run(catalog, actions).timeline[k].Saved?
    requires Run(catalog, actions).timeline[k].d.bucket == Exploration
    ensures var d := Run(catalog, actions).timeline[k].d;
            && a in actions && RoutedBy(catalog, a, d) && d.risk == LowRisk
            && (a.c.hash(d.trace + "|explore|" + d.policyVersion) % 1_000_000) as real / 10_000.0 <
               a.p.explorationPercent
            && (a.c.hash(d.trace + "|" + d.policyVersion) % 1_000_000) as real / 10_000.0 >= a.p.controlPercent
  {
    hide Run, RouteOf, PredictionsOf, RoutingReference.SomeQualifies;
    a := LinesComeFromRouting(catalog, actions, k);
    RoutingReference.BucketIff(a.e, a.c, a.p, a.r);
    RoutingReference.RecordMeans(a.e, a.c, a.p, a.r);
    RoutedDecision(a.e, a.c, a.p, a.r);
  }
}
