/** The randomised control arm over whole runs. No trace that was routed away from its incumbent is counted
    in it. What it can contain besides requests served by their incumbent is requests whose incumbent
    failed: they stay in the arm although another model has served them. */
module ControlArm {
  import opened Domain
  import opened AuditReference
  import opened Policies
  import opened Protocol
  import opened ProtocolLaws
  import opened Records
  import opened Requests
  import opened Routing
  import Audit
  import Billing
  import FileStores
  import RoutingLaws
  import RoutingReference

  /** The decisions an audit of a run reads: the last line of each. */
  ghost function Audited(catalog: Catalog, actions: seq<Action>): set<Decision>
  {
    Replay(DecisionsOf(Run(catalog, actions).timeline)).Values
  }

  lemma {:induction false} LineHasLast(log: seq<Decision>, d: Decision) returns (last: Decision)
    requires d in log
    ensures last in Replay(log).Values && last.id == d.id
  {
    ReplayKeys(log);
    ReplayIsKeyed(log);
    last := Replay(log)[d.id];
  }

  lemma AuditedIsLogged(log: seq<Decision>)
    ensures forall d :: d in Replay(log).Values ==> d in log
  {
    FileStores.ReplayInLog(log);
  }

  lemma AuditedIsKeyed(log: seq<Decision>)
    ensures Audit.DistinctIds(Replay(log).Values)
  {
    ReplayIsKeyed(log);
  }

  lemma SameWindow(d: Decision, e: Decision, q: Audit.Query)
    requires SameRouting(d, e)
    ensures InWindow(d, q) <==> InWindow(e, q)
    ensures d.trace == e.trace && d.bucket == e.bucket && d.selected == e.selected && d.incumbent == e.incumbent
  {}

  /** In the summary of any run, a trace with a request that was routed to another model than its incumbent
      counts in the treatment arm, whatever its votes are, and never in the control arm. */
  lemma RoutedTracesAreNotControls(catalog: Catalog, actions: seq<Action>, os: seq<Outcome>, q: Audit.Query,
                                   sqrt: real -> real, d: Decision) returns (votes: map<string, real>)
    requires ValidCatalog(catalog) && d in DecisionsOf(Run(catalog, actions).timeline)
    requires InWindow(d, q) && d.bucket != Shadow && d.selected != d.incumbent
    ensures var s := Window(Audited(catalog, actions), q);
            var summary := Audit.SummaryOf(Audited(catalog, actions), os, q, sqrt);
            && VotesAre(votes, os, s, q)
            && d.trace in TreatedTraces(s) && ArmIs(summary.treatment, TreatedTraces(s), votes)
            && d.trace !in ControlTraces(s) && ArmIs(summary.control, ControlTraces(s), votes)
  {
    hide Run, Audit.SummaryOf, VotesAre, ArmIs, SameRouting, InWindow, DecisionsOf, Replay;
    var log := DecisionsOf(Run(catalog, actions).timeline);
    AuditedIsKeyed(log);
    votes := ArmsMean(Audited(catalog, actions), os, q, sqrt);
    var last := LineHasLast(log, d);
    AuditedIsLogged(log);
    LogIsConsistent(catalog, actions, last, d);
    SameWindow(last, d, q);
    assert last in Window(Audited(catalog, actions), q);
  }

  /** Exactly which requests of the control arm were served by another model than their incumbent: those
      whose record says that the selected model failed. */
  lemma ControlsLeaveTheIncumbentIff(catalog: Catalog, actions: seq<Action>, q: Audit.Query, d: Decision)
    requires ValidCatalog(catalog) && d in Window(Audited(catalog, actions), q) && d.bucket != Shadow
    requires d.trace in ControlTraces(Window(Audited(catalog, actions), q))
    ensures d.selected == d.incumbent
    ensures d.final != "" && d.final != d.incumbent <==> d.fallbackReason == "selected_model_failed"
  {
    hide Run, DecisionsOf, Replay, InWindow;
    var log := DecisionsOf(Run(catalog, actions).timeline);
    AuditedIsLogged(log);
    LogIsConsistent(catalog, actions, d, d);
    LoggedDecisions(Run(catalog, actions).timeline);
    var k :| 0 <= k < |Run(catalog, actions).timeline| && Run(catalog, actions).timeline[k] == Saved(d);
    Billing.FailoverIsReported(catalog, actions, k);
  }

  // ---------- a control request served by a fallback ----------

  lemma TwoMoreActions(catalog: Catalog, actions: seq<Action>, a: Action, b: Action)
    requires Enabled(catalog, Run(catalog, actions), a)
    requires Enabled(catalog, Step(catalog, Run(catalog, actions), a), b)
    ensures Run(catalog, actions + [a, b]) == Step(catalog, Step(catalog, Run(catalog, actions), a), b)
  {
    hide Enabled, Step, Run;
    OneMoreAction(catalog, actions, a);
    OneMoreAction(catalog, actions + [a], b);
    assert actions + [a] + [b] == actions + [a, b];
  }

  /** A request is about to call its model number `n`. */
  predicate CallsNext(s: State, id: string, d: Decision, w: Work, n: nat)
  {
    && n <= |w.usable| && Serving(s, id)
    && s.records[id] == d.(attempted := w.usable[..n]) && s.work[id] == w.(phase := Ready)
    && d.completedAt == None && d.bucket != Shadow
  }

  lemma ModelAnswers(catalog: Catalog, s: State, id: string, d: Decision, w: Work, n: nat, reply: Reply)
    returns (t: State)
    requires n < |w.usable| && CallsNext(s, id, d, w, n) && reply != EncodeError
    ensures Enabled(catalog, s, Call(id, true)) && Enabled(catalog, Step(catalog, s, Call(id, true)), Answer(id, reply))
    ensures t == Step(catalog, Step(catalog, s, Call(id, true)), Answer(id, reply))
    ensures t.timeline == s.timeline + [Called(id, w.usable[n])] + [Replied(id, reply)]
    ensures GoesOn(reply) ==> CallsNext(t, id, d, w, n + 1)
    ensures reply == Success ==>
              && Serving(t, id) && t.work[id].phase == Over
              && t.records[id] == Finalized(d, w.usable[..n + 1], w.usable[n])
  {
    hide RouteOf, Completed, ShadowResult, ShadowOf, ReservationOf;
    t := Heard(Next(s, id), id, reply);
    assert w.usable[..n] + [w.usable[n]] == w.usable[..n + 1];
  }

  lemma QuietEntries(timeline: seq<Entry>, a: Entry, b: Entry)
    requires !a.Saved? && !b.Saved?
    ensures DecisionsOf(timeline + [a] + [b]) == DecisionsOf(timeline)
  {
    assert (timeline + [a] + [b])[..|timeline| + 1] == timeline + [a] && (timeline + [a])[..|timeline|] == timeline;
  }

  lemma NewLine(timeline: seq<Entry>, d: Decision)
    ensures DecisionsOf(timeline + [Saved(d)]) == DecisionsOf(timeline) + [d]
  {
    assert (timeline + [Saved(d)])[..|timeline|] == timeline;
  }

  /** The first model of a request fails, the second answers. */
  function FailsOver(id: string): seq<Action>
  {
    [Call(id, true), Answer(id, Upstream(503))] + [Call(id, true), Answer(id, Success)] +
    [Finish(id, Answered(200, 1, 1), 0, true)]
  }

  lemma FailedOver(catalog: Catalog, actions: seq<Action>, id: string, d: Decision, w: Work) returns (done: Decision)
    requires CallsNext(Run(catalog, actions), id, d, w, 0) && |w.usable| >= 2 && w.usable[1] != ""
    ensures DecisionsOf(Run(catalog, actions + FailsOver(id)).timeline) ==
            DecisionsOf(Run(catalog, actions).timeline) + [done]
    ensures SameRouting(done, d) && done.final == w.usable[1]
  {
    hide DecisionsOf, Run, Step, SameRouting, Enabled, Completed;
    var s := Run(catalog, actions);
    var first, second := [Call(id, true), Answer(id, Upstream(503))], [Call(id, true), Answer(id, Success)];
    var t := ModelAnswers(catalog, s, id, d, w, 0, Upstream(503));
    TwoMoreActions(catalog, actions, first[0], first[1]);
    QuietEntries(s.timeline, Called(id, w.usable[0]), Replied(id, Upstream(503)));
    var u := ModelAnswers(catalog, t, id, d, w, 1, Success);
    TwoMoreActions(catalog, actions + first, second[0], second[1]);
    QuietEntries(t.timeline, Called(id, w.usable[1]), Replied(id, Success));
    done := Ended(catalog, u, id, d, w);
    OneMoreAction(catalog, actions + first + second, Finish(id, Answered(200, 1, 1), 0, true));
    NewLine(u.timeline, done);
    assert actions + first + second + [Finish(id, Answered(200, 1, 1), 0, true)] == actions + FailsOver(id);
  }

  lemma Ended(catalog: Catalog, s: State, id: string, d: Decision, w: Work) returns (done: Decision)
    requires Serving(s, id) && s.work[id].phase == Over && |w.usable| >= 2 && w.usable[1] != ""
    requires s.records[id] == Finalized(d, w.usable[..2], w.usable[1])
    ensures Enabled(catalog, s, Finish(id, Answered(200, 1, 1), 0, true))
    ensures Step(catalog, s, Finish(id, Answered(200, 1, 1), 0, true)).timeline == s.timeline + [Saved(done)]
    ensures SameRouting(done, d) && done.final == w.usable[1]
  {
    hide PricedIn;
    done := Completed(s.records[id], Answered(200, 1, 1), catalog, 0);
    CompletionKeepsRouting(d, w.usable[..2], w.usable[1], Answered(200, 1, 1), catalog, 0);
  }

  function Plain(id: string): Model
  {
    Model(id, "provider", "", Standard, 0, true, true, true, 1.0, 1.0, 0, 0.5, true)
  }

  function TwoModels(): Catalog { map["a" := Plain("a"), "b" := Plain("b")] }

  /** Everything is control traffic; the incumbent "a" is backed by "b". */
  function ControllingPolicy(): Policy
  {
    Policy("policy", "tenant", "1", ActiveMode, "a", [], ["b"], 0.0, 1.0, 0, 100.0, 0.0, 0.0, 0.0, "resolved",
           Constraints([], Unset, 0.0, 0), Snapshot("", "", map[], map[]), false)
  }

  function Zero(): string -> nat { (key: string) => 0 }

  function Everything(): Audit.Query { Audit.Query("tenant", "", "resolved", 0) }

  lemma ControlledRoute(e: Engine, c: Context) returns (d: Decision)
    requires e.catalog == TwoModels() && e.open == {} && c == Context("tenant", "id", "trace", 0, Zero())
    ensures d == RouteOf(e, c, ControllingPolicy(), PlainRequest())
    ensures d.id == "id" && d.tenant == "tenant" && d.trace == "trace" && d.policyId == "policy" && d.createdAt == 0
    ensures d.bucket == Control && d.selected == "a" && d.incumbent == "a" && d.completedAt == None && d.attempted == []
    ensures PlannedCalls(d, ControllingPolicy(), e.catalog, {"provider"}) == ["a", "b"]
  {
    hide RouteOf, PlannedCalls, PredictionsOf, RoutingReference.SomeQualifies;
    var p, r := ControllingPolicy(), PlainRequest();
    d := RouteOf(e, c, p, r);
    RoutingLaws.RoutedDecision(e, c, p, r);
    RoutingReference.BucketIff(e, c, p, r);
    PlainIsEligible(e, p, "a");
    PlainIsEligible(e, p, "b");
    BothUsable(d);
  }

  lemma BothUsable(d: Decision)
    requires forall id :: id == "a" || id == "b" ==> id in d.predictions && d.predictions[id].eligible
    requires d.selected == "a"
    ensures PlannedCalls(d, ControllingPolicy(), TwoModels(), {"provider"}) == ["a", "b"]
  {
    hide Unique, UsableIn;
    TwoOfThree();
    TwoUsable(d, TwoModels(), {"provider"});
    assert ["a"] + ["b"] + ["a"] == ["a", "b", "a"];
  }

  lemma TwoOfThree()
    ensures Unique(["a", "b", "a"]) == ["a", "b"]
  {
    assert ["a", "b", "a"][..2] == ["a", "b"] && ["a", "b"][..1] == ["a"] && ["a"][..0] == [];
    assert Unique([]) == [] && Unique(["a"]) == ["a"] && Unique(["a", "b"]) == ["a", "b"];
  }

  lemma TwoUsable(d: Decision, catalog: Catalog, providers: set<string>)
    requires Usable(d, catalog, providers, "a") && Usable(d, catalog, providers, "b")
    ensures UsableIn(d, catalog, providers, ["a", "b"]) == ["a", "b"]
  {
    hide Usable;
    assert ["a", "b"][..1] == ["a"] && ["a"][..0] == [];
    assert UsableIn(d, catalog, providers, []) == [];
    assert UsableIn(d, catalog, providers, ["a"]) == ["a"];
  }

  lemma PlainIsEligible(e: Engine, p: Policy, id: string)
    requires e.catalog == TwoModels() && e.open == {} && p == ControllingPolicy() && (id == "a" || id == "b")
    ensures var predictions := PredictionsOf(e, p, PlainRequest()); id in predictions && predictions[id].eligible
  {
    RoutingReference.EligibleIffFeasible(e, p, Plain(id), PlainRequest());
    hide PredictionOf;
  }

  /** Such a request exists: its incumbent fails, its fallback answers, and it counts in the control arm. */
  lemma FallbacksStayInTheControlArm(fold: char -> char) returns (catalog: Catalog, actions: seq<Action>, d: Decision)
    ensures ValidCatalog(catalog) && d in Window(Audited(catalog, actions), Everything()) && d.bucket == Control
    ensures d.final != "" && d.final != d.incumbent
    ensures d.trace in ControlTraces(Window(Audited(catalog, actions), Everything()))
  {
    hide RouteOf, PlannedCalls, DecisionsOf, Run, Step, ControllingPolicy, PlainRequest, Replay;
    catalog := TwoModels();
    var e, c := Engine(catalog, {}, fold), Context("tenant", "id", "trace", 0, Zero());
    var routed := ControlledRoute(e, c);
    var arrival := Arrive(c, ControllingPolicy(), PlainRequest(), e, {"provider"}, true);
    var w := Begun(catalog, arrival, routed);
    d := FailedOver(catalog, [arrival], "id", routed, w);
    actions := [arrival] + FailsOver("id");
    assert DecisionsOf(Run(catalog, actions).timeline) == [routed, d];
    TwoLines(routed, d);
    assert Window(Audited(catalog, actions), Everything()) == {d};
  }

  lemma Begun(catalog: Catalog, a: Action, d: Decision) returns (w: Work)
    requires a.Arrive? && a.saved && a.e.catalog == catalog && d == RouteOf(a.e, a.c, a.p, a.r)
    requires d.id == a.c.id == "id"
    requires d.attempted == [] && d.completedAt == None && d.bucket == Control
    requires PlannedCalls(d, a.p, catalog, a.providers) == ["a", "b"]
    ensures w.usable == ["a", "b"] && CallsNext(Run(catalog, [a]), "id", d, w, 0)
    ensures DecisionsOf(Run(catalog, [a]).timeline) == [d]
  {
    hide RouteOf, PlannedCalls, Run, DecisionsOf;
    w := PlanFor(d, a.p, catalog, a.providers);
    NothingRan(catalog);
    assert [] + [a] == [a];
    OneMoreAction(catalog, [], a);
    NewLine([], d);
    assert w.usable[..0] == [];
  }

  lemma NothingRan(catalog: Catalog)
    ensures Run(catalog, []) == Idle && DecisionsOf([]) == []
  {}

  lemma TwoLines(first: Decision, last: Decision)
    requires first.id == last.id
    ensures Replay([first, last]).Values == {last}
  {
    assert [first, last][..1] == [first] && [first][..0] == [];
    assert Replay([]) == map[] && Replay([first]) == map[first.id := first];
    var kept := Replay([first, last]);
    assert kept == map[first.id := first][last.id := last];
    assert kept[last.id] == last && kept.Keys == {last.id};
    assert forall d :: d in kept.Values ==> exists id :: id in kept && kept[id] == d;
  }
}
