/** Many requests at once (internal/api/server.go:95-200, 310-394). Each request is routed, recorded, sent
    to one provider after another, answered and recorded again; it may start shadow calls, which run on
    their own and draw on a shared daily budget. The steps of different requests interleave in any way,
    and any write may fail. */
module Protocol {
  import opened Domain
  import opened Requests
  import opened Routing
  import Shadows

  /** What happened, in order: lines that reached the decision log, calls to providers and their replies,
      and granted reservations of shadow budget. */
  datatype Entry =
    | Saved(d: Decision)
    | Called(id: string, model: string)
    | Replied(id: string, reply: Reply)
    | Reserved(parent: string, id: string, r: Shadows.Reservation)
    | ShadowCalled(parent: string, id: string, model: string)

  /** Where the attempt loop is: about to take the next model, waiting for a provider, or left. */
  datatype Phase = Ready | Waiting | Over

  /** The plan of a request: its policy, the tenant's providers, and the models the loop may call. */
  datatype Work = Work(policy: Policy, providers: set<string>, usable: seq<string>, phase: Phase)

  /** `records` holds the decision every request or shadow is working on, also after it has ended. */
  datatype State = State(
    records: map<string, Decision>, work: map<string, Work>, spend: Shadows.Ledger, timeline: seq<Entry>)

  const Idle := State(map[], map[], map[], [])

  /** `saved` tells whether the line reached the log. If the store reports an error all the same, the
      request simply takes no further step, which every run leaves open. */
  datatype Action =
    | Arrive(c: Context, p: Policy, r: Request, e: Engine, providers: set<string>, saved: bool)
    | Call(id: string, encodes: bool)
    | Answer(id: string, reply: Reply)
    | Finish(id: string, response: Response, now: int, saved: bool)
    | ReserveShadow(parent: string, id: string, model: string, day: string, now: int)
    | CallShadow(id: string)
    | FinishShadow(id: string, response: Response, now: int, saved: bool)

  /** A copy of the parent under a new identifier, as a shadow of one model. */
  function ShadowOf(parent: Decision, id: string, model: string, now: int): Decision
  {
    parent.(id := id, parentId := parent.id, selected := model, final := "", bucket := Shadow, shadowModels := [],
            attempted := [model], estimatedCost := At(parent.predictions, model).estimatedCost, actualCost := 0.0,
            createdAt := now, completedAt := None, error := "")
  }

  /** The record a shadow call leaves. */
  function ShadowResult(d: Decision, response: Response, catalog: Catalog, now: int): Decision
  {
    var d := d.(upstreamStatus := response.status, completedAt := Some(now));
    match response
    case Failed(_, error) => d.(error := error)
    case Answered(_, input, output) =>
      d.(inputTokens := input, outputTokens := output, final := d.selected,
         actualCost := if input > 0 || output > 0 then PricedIn(catalog, d.selected, input, output, 0.0)
                       else d.estimatedCost)
    case _ => d.(final := d.selected, actualCost := d.estimatedCost)
  }

  predicate IsFresh(s: State, id: string) { id != "" && id !in s.records }

  predicate InWork(s: State, id: string) { id in s.records && id in s.work && s.records[id].completedAt == None }

  predicate Serving(s: State, id: string) { InWork(s, id) && s.records[id].bucket != Shadow }

  predicate Shadowing(s: State, id: string) { InWork(s, id) && s.records[id].bucket == Shadow }

  /** The loop was left, or no model remains. */
  predicate LoopEnded(d: Decision, w: Work) { w.phase == Over || (w.phase == Ready && |d.attempted| == |w.usable|) }

  function PlanFor(d: Decision, p: Policy, catalog: Catalog, providers: set<string>): Work
  {
    Work(p, providers, PlannedCalls(d, p, catalog, providers), Ready)
  }

  /** The reservation launchShadows makes for one model of a request. */
  function ReservationOf(s: State, catalog: Catalog, parent: string, model: string, day: string): Shadows.Reservation
    requires Serving(s, parent)
  {
    Shadows.ReservationFor(s.records[parent], s.work[parent].policy, catalog, s.work[parent].providers, day, model)
  }

  predicate Enabled(catalog: Catalog, s: State, a: Action)
  {
    match a
    case Arrive(c, _, _, e, _, _) => IsFresh(s, c.id) && e.catalog == catalog
    case Call(id, _) =>
      Serving(s, id) && s.work[id].phase == Ready && |s.records[id].attempted| < |s.work[id].usable|
    case Answer(id, reply) => Serving(s, id) && s.work[id].phase == Waiting && reply != EncodeError
    case Finish(id, response, _, _) =>
      && Serving(s, id) && (response.Failed? <==> s.records[id].final == "")
      && LoopEnded(s.records[id], s.work[id])
    case ReserveShadow(parent, id, model, _, _) =>
      && Serving(s, parent) && s.records[parent].final != "" && Shadows.ShadowsAllowed(s.records[parent])
      && model in s.records[parent].shadowModels && model != s.records[parent].final && IsFresh(s, id)
    case CallShadow(id) => Shadowing(s, id) && s.work[id].phase == Ready
    case FinishShadow(id, _, _, _) => Shadowing(s, id)
  }

  function Store(s: State, id: string, d: Decision): State { s.(records := s.records[id := d]) }

  function Move(s: State, id: string, phase: Phase): State
    requires id in s.work
  {
    s.(work := s.work[id := s.work[id].(phase := phase)])
  }

  function Log(s: State, entry: Entry): State { s.(timeline := s.timeline + [entry]) }

  /** Updates the record and tries to save it. */
  function Save(s: State, id: string, d: Decision, saved: bool): State
  {
    if saved then Log(Store(s, id, d), Saved(d)) else Store(s, id, d)
  }

  function Begin(s: State, d: Decision, w: Work): State
  {
    Log(State(s.records[d.id := d], s.work[d.id := w], s.spend, s.timeline), Saved(d))
  }

  /** The loop takes its next model. */
  function Next(s: State, id: string): State
    requires Serving(s, id) && |s.records[id].attempted| < |s.work[id].usable|
  {
    var d := s.records[id];
    var model := s.work[id].usable[|d.attempted|];
    Log(Move(Store(s, id, d.(attempted := d.attempted + [model])), id, Waiting), Called(id, model))
  }

  function Last<T>(s: seq<T>): T
    requires s != []
  {
    s[|s| - 1]
  }

  /** The provider has answered: the request is served, goes on to the next model, or gives up. */
  function Heard(s: State, id: string, reply: Reply): State
    requires Serving(s, id)
  {
    var d := s.records[id];
    var served := if reply == Success && d.attempted != [] then Finalized(d, d.attempted, Last(d.attempted)) else d;
    Log(Move(Store(s, id, served), id, if GoesOn(reply) then Ready else Over), Replied(id, reply))
  }

  /** A granted reservation; the shadow is started if the tenant has the provider. */
  function Reserve(s: State, parent: string, id: string, r: Shadows.Reservation, now: int): State
    requires Serving(s, parent)
  {
    var t := s.(spend := Shadows.Reserve(s.spend, r));
    var started := if !r.configured then t else
      t.(records := t.records[id := ShadowOf(s.records[parent], id, r.model, now)],
         work := t.work[id := s.work[parent].(usable := [r.model], phase := Ready)]);
    Log(started, Reserved(parent, id, r))
  }

  ghost function Step(catalog: Catalog, s: State, a: Action): State
    requires Enabled(catalog, s, a)
  {
    match a
    case Arrive(c, p, r, e, providers, saved) =>
      var d := RouteOf(e, c, p, r);
      if saved then Begin(s, d, PlanFor(d, p, catalog, providers)) else s
    case Call(id, encodes) => if encodes then Next(s, id) else Move(s, id, Over)
    case Answer(id, reply) => Heard(s, id, reply)
    case Finish(id, response, now, saved) => Save(s, id, Completed(s.records[id], response, catalog, now), saved)
    case ReserveShadow(parent, id, model, day, now) =>
      var r := ReservationOf(s, catalog, parent, model, day);
      if Shadows.Granted(s.spend, r) then Reserve(s, parent, id, r, now) else s
    case CallShadow(id) => Log(Move(s, id, Waiting), ShadowCalled(s.records[id].parentId, id, s.records[id].selected))
    case FinishShadow(id, response, now, saved) =>
      Save(s, id, ShadowResult(s.records[id], response, catalog, now), saved)
  }

  /** Any interleaving: a list of actions, those that are not enabled when their turn comes having
      no effect. */
  ghost function Run(catalog: Catalog, actions: seq<Action>): State
  {
    if actions == [] then Idle else
      var n := |actions| - 1;
      var s := Run(catalog, actions[..n]);
      if Enabled(catalog, s, actions[n]) then Step(catalog, s, actions[n]) else s
  }

  // ---------- reading the timeline ----------

  /** The log holds a record of this decision that satisfies `ok`. */
  predicate Recorded(timeline: seq<Entry>, id: string, ok: Decision -> bool)
  {
    exists k :: 0 <= k < |timeline| && timeline[k].Saved? && timeline[k].d.id == id && ok(timeline[k].d)
  }

  function Any(): Decision -> bool { (d: Decision) => true }

  predicate Logged(timeline: seq<Entry>, id: string) { Recorded(timeline, id, Any()) }

  /** The decision found the model feasible for its request. */
  function Clears(model: string): Decision -> bool
  {
    (d: Decision) => model in d.predictions && d.predictions[model].eligible
  }

  /** The decision lists the model as a feasible shadow at this cost, and its risk allows shadows. */
  function ClearsShadow(model: string, cost: real): Decision -> bool
  {
    (d: Decision) => && model in d.shadowModels && At(d.predictions, model).eligible && Shadows.ShadowsAllowed(d)
                     && At(d.predictions, model).estimatedCost == cost
  }

  /** The models called for a request, and what their providers replied. */
  function CallsOf(timeline: seq<Entry>, id: string): seq<string>
  {
    if timeline == [] then [] else
      var n := |timeline| - 1;
      CallsOf(timeline[..n], id) + if timeline[n].Called? && timeline[n].id == id then [timeline[n].model] else []
  }

  function RepliesOf(timeline: seq<Entry>, id: string): seq<Reply>
  {
    if timeline == [] then [] else
      var n := |timeline| - 1;
      RepliesOf(timeline[..n], id) + if timeline[n].Replied? && timeline[n].id == id then [timeline[n].reply] else []
  }

  /** Some reservation for this shadow was granted and its provider is configured. */
  predicate Paid(timeline: seq<Entry>, parent: string, id: string, model: string)
  {
    exists k :: 0 <= k < |timeline| && timeline[k].Reserved? && timeline[k].parent == parent && timeline[k].id == id &&
                timeline[k].r.model == model && timeline[k].r.configured
  }

  predicate Started(timeline: seq<Entry>, id: string)
  {
    exists k :: 0 <= k < |timeline| && timeline[k].Reserved? && timeline[k].id == id && timeline[k].r.configured
  }

  predicate ShadowAsked(timeline: seq<Entry>, id: string)
  {
    exists k :: 0 <= k < |timeline| && timeline[k].ShadowCalled? && timeline[k].id == id
  }

  predicate AllGoOn(replies: seq<Reply>) { forall i :: 0 <= i < |replies| ==> GoesOn(replies[i]) }

  /** Every reply before the last was worth trying the next model. */
  predicate OnlyLastEnds(replies: seq<Reply>) { forall i :: 0 <= i < |replies| - 1 ==> GoesOn(replies[i]) }

  predicate Succeeded(replies: seq<Reply>) { replies != [] && Last(replies) == Success }

  /** The model that answered: the last one called, if its provider succeeded. */
  function FinalOf(calls: seq<string>, replies: seq<Reply>): string
  {
    if Succeeded(replies) && calls != [] then Last(calls) else ""
  }

  // ---------- what the timeline guarantees ----------

  /** A line of a request tells what happened: the models called so far, in order, each answered, all but
      the last worth a retry; and its final model is the last one, if that succeeded. */
  predicate Truthful(before: seq<Entry>, d: Decision)
  {
    var calls, replies := CallsOf(before, d.id), RepliesOf(before, d.id);
    d.attempted == calls && |replies| == |calls| && OnlyLastEnds(replies) && d.final == FinalOf(calls, replies) &&
    (d.final != "" <==> Succeeded(replies))
  }

  ghost predicate EntryOk(before: seq<Entry>, entry: Entry)
  {
    match entry
    case Saved(d) => d.bucket != Shadow ==> Truthful(before, d)
    case Called(id, model) =>
      && Recorded(before, id, Clears(model)) && model !in CallsOf(before, id)
      && AllGoOn(RepliesOf(before, id)) && |RepliesOf(before, id)| == |CallsOf(before, id)|
    case Replied(id, _) => |CallsOf(before, id)| == |RepliesOf(before, id)| + 1
    case Reserved(parent, id, r) =>
      && Recorded(before, parent, ClearsShadow(r.model, r.cost))
      && Succeeded(RepliesOf(before, parent)) && r.model != FinalOf(CallsOf(before, parent), RepliesOf(before, parent))
      && !(r.configured && Started(before, id))
    case ShadowCalled(parent, id, model) =>
      Paid(before, parent, id, model) && !Logged(before, id) && !ShadowAsked(before, id)
  }

  /** Every entry is justified by those before it. */
  ghost predicate WriteAhead(timeline: seq<Entry>)
  {
    forall k :: 0 <= k < |timeline| ==> EntryOk(timeline[..k], timeline[k])
  }
}
