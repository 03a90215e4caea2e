/** What every run of the request protocol guarantees. */
module ProtocolLaws {
  import opened Domain
  import opened Policies
  import opened Protocol
  import opened ProtocolInvariant
  import opened Requests
  import opened Routing
  import opened Sequences
  import Audit
  import FileStores
  import PostgresStores
  import Shadows

  lemma EveryEntryIsOk(catalog: Catalog, actions: seq<Action>, k: nat)
    requires ValidCatalog(catalog) && k < |Run(catalog, actions).timeline|
    ensures var timeline := Run(catalog, actions).timeline; EntryOk(timeline[..k], timeline[k])
  {
    hide Run, EntryOk, Records, Consistent, Balanced;
    Reachable(catalog, actions);
  }

  lemma OneMoreAction(catalog: Catalog, actions: seq<Action>, a: Action)
    requires Enabled(catalog, Run(catalog, actions), a)
    ensures Run(catalog, actions + [a]) == Step(catalog, Run(catalog, actions), a)
  {
    hide Enabled, Step;
    assert (actions + [a])[..|actions|] == actions;
  }

  // ---------- calls and lines ----------

  /** No unaudited inference: whatever interleaves and whatever writes fail, each provider call of a
      request comes after a record of that request which found the model feasible, is the first call to
      that model, and follows only failures worth a retry. */
  lemma CallsFollowRecords(catalog: Catalog, actions: seq<Action>, k: nat)
    requires ValidCatalog(catalog) && k < |Run(catalog, actions).timeline| && Run(catalog, actions).timeline[k].Called?
    ensures var timeline := Run(catalog, actions).timeline; var before := timeline[..k]; var id := timeline[k].id;
            && Recorded(before, id, Clears(timeline[k].model)) && timeline[k].model !in CallsOf(before, id)
            && AllGoOn(RepliesOf(before, id)) && |RepliesOf(before, id)| == |CallsOf(before, id)|
  {
    hide Run, Recorded, CallsOf, RepliesOf;
    EveryEntryIsOk(catalog, actions, k);
  }

  /** The ledger tells the truth: a line of a request lists exactly the models called for it until then,
      in order, each answered; and its final model is the last one called, if that one succeeded. */
  lemma LinesAreTruthful(catalog: Catalog, actions: seq<Action>, k: nat)
    requires ValidCatalog(catalog) && k < |Run(catalog, actions).timeline|
    requires Run(catalog, actions).timeline[k].Saved? && Run(catalog, actions).timeline[k].d.bucket != Shadow
    ensures var timeline := Run(catalog, actions).timeline; var d := timeline[k].d;
            var replies := RepliesOf(timeline[..k], d.id);
            && d.attempted == CallsOf(timeline[..k], d.id) && |replies| == |d.attempted| && OnlyLastEnds(replies)
            && (d.final != "" <==> replies != [] && Last(replies) == Success)
            && (d.final != "" ==> d.attempted != [] && d.final == Last(d.attempted))
  {
    hide Run, CallsOf, RepliesOf;
    EveryEntryIsOk(catalog, actions, k);
  }

  function ReplyTo(calls: seq<string>, replies: seq<Reply>, model: string): Reply
    requires |calls| == |replies|
  {
    if calls == [] then EncodeError else
      var n := |calls| - 1;
      if calls[n] == model then replies[n] else ReplyTo(calls[..n], replies[..n], model)
  }

  lemma {:induction false} ReplyIsFound(calls: seq<string>, replies: seq<Reply>, i: nat)
    requires |calls| == |replies| && NoDuplicates(calls) && i < |calls|
    ensures ReplyTo(calls, replies, calls[i]) == replies[i]
  {
    var n := |calls| - 1;
    if i < n { ReplyIsFound(calls[..n], replies[..n], i); }
  }

  lemma {:induction false} NoReplyElsewhere(calls: seq<string>, replies: seq<Reply>, model: string)
    requires |calls| == |replies| && model !in calls
    ensures ReplyTo(calls, replies, model) == EncodeError
  {
    if calls != [] { NoReplyElsewhere(calls[..|calls| - 1], replies[..|calls| - 1], model); }
  }

  /** The replies a request received, by model; a model that was not called could not be encoded for. */
  function RepliesIn(s: State, id: string): string -> Reply
    requires |CallsOf(s.timeline, id)| == |RepliesOf(s.timeline, id)|
  {
    (model: string) => ReplyTo(CallsOf(s.timeline, id), RepliesOf(s.timeline, id), model)
  }

  /** However requests interleave, each completed one has gone through the attempt loop as if alone. */
  lemma RequestsFollowTheLoop(catalog: Catalog, actions: seq<Action>, id: string)
    requires ValidCatalog(catalog)
    requires var s := Run(catalog, actions);
             id in s.records && s.records[id].bucket != Shadow && s.records[id].completedAt != None
    ensures var s := Run(catalog, actions);
            && id in s.work && |CallsOf(s.timeline, id)| == |RepliesOf(s.timeline, id)|
            && AttemptsOf(s.records[id].attempted, s.records[id].final, s.work[id].usable, RepliesIn(s, id))
  {
    hide Run, Inv, RecordOk, Conversing, NoDuplicates, CallsOf, RepliesOf, AttemptsOf, ReplyTo;
    Reachable(catalog, actions);
    var s := Run(catalog, actions);
    RecordIsOk(s, id);
    CompletedTalk(s.timeline, s.records[id], s.work[id]);
    ConversationIsLoop(s.timeline, s.records[id], s.work[id], RepliesIn(s, id));
  }

  lemma CompletedTalk(timeline: seq<Entry>, d: Decision, w: Work)
    requires RecordOk(timeline, d, w) && d.bucket != Shadow && d.completedAt != None
    ensures Conversing(timeline, d, w) && NoDuplicates(w.usable) && LoopEnded(d, w)
    ensures |CallsOf(timeline, d.id)| == |RepliesOf(timeline, d.id)|
  {
    hide Recorded, CallsOf, RepliesOf, FinalOf, WellBucketed;
  }

  lemma ConversationIsLoop(timeline: seq<Entry>, d: Decision, w: Work, reply: string -> Reply)
    requires Conversing(timeline, d, w) && NoDuplicates(w.usable) && LoopEnded(d, w)
    requires |CallsOf(timeline, d.id)| == |RepliesOf(timeline, d.id)|
    requires forall m :: reply(m) == ReplyTo(CallsOf(timeline, d.id), RepliesOf(timeline, d.id), m)
    ensures AttemptsOf(d.attempted, d.final, w.usable, reply)
  {
    hide CallsOf, RepliesOf, ReplyTo;
    var calls, replies := CallsOf(timeline, d.id), RepliesOf(timeline, d.id);
    assert NoDuplicates(calls) by { assert forall i :: 0 <= i < |calls| ==> calls[i] == w.usable[i]; }
    forall i | 0 <= i < |calls|
      ensures reply(calls[i]) == replies[i] && reply(calls[i]) in replies
    {
      ReplyIsFound(calls, replies, i);
    }
    if calls < w.usable {
      NewInPrefix(w.usable, calls);
      NoReplyElsewhere(calls, replies, w.usable[|calls|]);
    }
    if w.phase == Ready { NothingServed(calls, replies); }
  }

  // ---------- shadows ----------

  /** A call or a reply never comes out of turn. */
  lemma {:induction false} CallsAlternate(timeline: seq<Entry>, id: string)
    requires WriteAhead(timeline)
    ensures var calls, replies := CallsOf(timeline, id), RepliesOf(timeline, id);
            || |calls| == |replies|
            || (|calls| == |replies| + 1 && AllGoOn(replies))
  {
    hide Recorded, FinalOf;
    if timeline != [] {
      var n := |timeline| - 1;
      PrefixIsOk(timeline, n);
      CallsAlternate(timeline[..n], id);
    }
  }

  lemma PrefixIsOk(timeline: seq<Entry>, n: nat)
    requires WriteAhead(timeline) && n <= |timeline|
    ensures WriteAhead(timeline[..n]) && (n < |timeline| ==> EntryOk(timeline[..n], timeline[n]))
  {
    hide EntryOk;
    forall k | 0 <= k < n
      ensures EntryOk(timeline[..n][..k], timeline[..n][k])
    {
      assert timeline[..n][..k] == timeline[..k];
    }
  }

  /** Once a provider has answered a request, nobody else is asked for it. */
  lemma {:induction false} ServedForGood(timeline: seq<Entry>, id: string, j: nat)
    requires WriteAhead(timeline) && j <= |timeline| && Succeeded(RepliesOf(timeline[..j], id))
    ensures CallsOf(timeline, id) == CallsOf(timeline[..j], id) &&
            RepliesOf(timeline, id) == RepliesOf(timeline[..j], id)
    decreases |timeline|
  {
    hide Succeeded, CallsOf, RepliesOf, EntryOk, WriteAhead, AllGoOn;
    if j == |timeline| {
      assert timeline[..j] == timeline;
    } else {
      var n := |timeline| - 1;
      PrefixIsOk(timeline, n);
      assert timeline[..n][..j] == timeline[..j];
      ServedForGood(timeline[..n], id, j);
      CallsAlternate(timeline[..n], id);
      SilentAfterSuccess(timeline[..n], timeline[n], id);
      assert timeline == timeline[..n] + [timeline[n]];
    }
  }

  lemma SilentAfterSuccess(before: seq<Entry>, entry: Entry, id: string)
    requires EntryOk(before, entry) && Succeeded(RepliesOf(before, id))
    requires |CallsOf(before, id)| == |RepliesOf(before, id)| || AllGoOn(RepliesOf(before, id))
    ensures CallsOf(before + [entry], id) == CallsOf(before, id) &&
            RepliesOf(before + [entry], id) == RepliesOf(before, id)
  {
    hide Recorded, FinalOf, CallsOf, RepliesOf, Succeeded, AllGoOn;
    SuccessEnds(RepliesOf(before, id));
    TalkGrows(before, entry, id);
    assert CallsOf(before, id) + [] == CallsOf(before, id) && RepliesOf(before, id) + [] == RepliesOf(before, id);
  }

  lemma SuccessEnds(replies: seq<Reply>)
    requires Succeeded(replies)
    ensures !AllGoOn(replies)
  {
    assert !GoesOn(Last(replies));
  }

  ghost predicate Pays(timeline: seq<Entry>, j: int, parent: string, id: string, model: string)
  {
    0 <= j < |timeline| && timeline[j].Reserved? && timeline[j].parent == parent && timeline[j].id == id &&
    timeline[j].r.model == model && timeline[j].r.configured
  }

  /** Every shadow call was paid for by a reservation of its own, made after its request was served by
      another model, at the price the request's record states; no reservation pays for two calls. The
      shadow's own record never precedes the call. */
  lemma ShadowsArePaidFor(catalog: Catalog, actions: seq<Action>, k: nat) returns (j: nat)
    requires ValidCatalog(catalog) && k < |Run(catalog, actions).timeline| &&
             Run(catalog, actions).timeline[k].ShadowCalled?
    ensures var timeline := Run(catalog, actions).timeline; var ShadowCalled(parent, id, model) := timeline[k];
            && j < k && Pays(timeline, j, parent, id, model)
            && Recorded(timeline[..j], parent, ClearsShadow(model, timeline[j].r.cost))
            && (forall i :: Pays(timeline, i, parent, id, model) ==> i == j)
            && (forall i :: 0 <= i < |timeline| && i != k && timeline[i].ShadowCalled? ==> timeline[i].id != id)
            && !Logged(timeline[..k], id)
  {
    hide Run, Recorded, CallsOf, RepliesOf, FinalOf;
    var timeline := Run(catalog, actions).timeline;
    var ShadowCalled(parent, id, model) := timeline[k];
    Reachable(catalog, actions);
    EveryEntryIsOk(catalog, actions, k);
    var before := timeline[..k];
    var i :| 0 <= i < k && before[i].Reserved? && before[i].parent == parent && before[i].id == id &&
             before[i].r.model == model && before[i].r.configured;
    j := i;
    EveryEntryIsOk(catalog, actions, j);
    PaidOnce(timeline, j, id);
    AskedOnce(timeline, k, id);
  }

  lemma StartsOnce(timeline: seq<Entry>, i: nat, j: nat)
    requires WriteAhead(timeline) && i < j < |timeline|
    requires timeline[i].Reserved? && timeline[i].r.configured && timeline[j].Reserved? && timeline[j].r.configured
    ensures timeline[i].id != timeline[j].id
  {
    hide Recorded, CallsOf, RepliesOf, FinalOf;
    assert EntryOk(timeline[..j], timeline[j]);
    assert Started(timeline[..j], timeline[i].id) by { assert timeline[..j][i] == timeline[i]; }
  }

  lemma PaidOnce(timeline: seq<Entry>, j: nat, id: string)
    requires WriteAhead(timeline) && j < |timeline| && timeline[j].Reserved? && timeline[j].id == id &&
             timeline[j].r.configured
    ensures forall i, parent, model :: Pays(timeline, i, parent, id, model) ==> i == j
  {
    hide WriteAhead;
    forall i, parent, model | Pays(timeline, i, parent, id, model)
      ensures i == j
    {
      if i < j { StartsOnce(timeline, i, j); }
      if j < i { StartsOnce(timeline, j, i); }
    }
  }

  lemma AsksOnce(timeline: seq<Entry>, i: nat, k: nat)
    requires WriteAhead(timeline) && i < k < |timeline| && timeline[i].ShadowCalled? && timeline[k].ShadowCalled?
    ensures timeline[i].id != timeline[k].id
  {
    hide Recorded, CallsOf, RepliesOf, FinalOf, Paid;
    assert EntryOk(timeline[..k], timeline[k]);
    assert ShadowAsked(timeline[..k], timeline[i].id) by { assert timeline[..k][i] == timeline[i]; }
  }

  lemma AskedOnce(timeline: seq<Entry>, k: nat, id: string)
    requires WriteAhead(timeline) && k < |timeline| && timeline[k].ShadowCalled? && timeline[k].id == id
    ensures forall i :: 0 <= i < |timeline| && i != k && timeline[i].ShadowCalled? ==> timeline[i].id != id
  {
    hide WriteAhead;
    forall i | 0 <= i < |timeline| && i != k && timeline[i].ShadowCalled?
      ensures timeline[i].id != id
    {
      if i < k { AsksOnce(timeline, i, k); } else { AsksOnce(timeline, k, i); }
    }
  }

  /** A shadow is never the model that served its request, in any line of that request before or after. */
  lemma ShadowsAreNotFinal(catalog: Catalog, actions: seq<Action>, j: nat, k: nat)
    requires ValidCatalog(catalog)
    requires var timeline := Run(catalog, actions).timeline;
             && j < |timeline| && timeline[j].Reserved? && k < |timeline| && timeline[k].Saved?
             && timeline[k].d.id == timeline[j].parent && timeline[k].d.bucket != Shadow
    ensures var timeline := Run(catalog, actions).timeline;
            timeline[k].d.final == "" || timeline[k].d.final != timeline[j].r.model
  {
    hide Run, Recorded, CallsOf, RepliesOf, Records, Consistent, Balanced;
    var timeline := Run(catalog, actions).timeline;
    var parent := timeline[j].parent;
    Reachable(catalog, actions);
    EveryEntryIsOk(catalog, actions, j);
    EveryEntryIsOk(catalog, actions, k);
    if timeline[k].d.final != "" {
      PrefixIsOk(timeline, j);
      PrefixIsOk(timeline, k);
      if j <= k {
        assert timeline[..k][..j] == timeline[..j];
        ServedForGood(timeline[..k], parent, j);
      } else {
        assert timeline[..j][..k] == timeline[..k];
        ServedForGood(timeline[..j], parent, k);
      }
    }
  }

  // ---------- the budget ----------

  lemma StepGrows(catalog: Catalog, s: State, a: Action)
    requires Enabled(catalog, s, a)
    ensures s.timeline <= Step(catalog, s, a).timeline
  {
    hide RouteOf, PlanFor, Completed, ShadowResult, ReservationOf;
  }

  /** The policy keeps its budget during the day. */
  ghost predicate FixedBudget(timeline: seq<Entry>, key: string, budget: real)
  {
    forall entry :: entry in timeline && entry.Reserved? && entry.r.key == key ==> entry.r.budget == budget
  }

  /** In any interleaving, the reservations granted to a tenant and policy in a day are what the ledger
      shows, and they stay within the budget. */
  lemma {:induction false} BudgetHolds(catalog: Catalog, actions: seq<Action>, key: string, budget: real)
    requires ValidCatalog(catalog) && budget >= 0.0 && FixedBudget(Run(catalog, actions).timeline, key, budget)
    ensures var s := Run(catalog, actions); Shadows.SpentOn(s.spend, key) == ReservedOn(s.timeline, key) <= budget
  {
    hide FixedBudget, Enabled, Step, ReservedOn, Records, Consistent, WriteAhead;
    Reachable(catalog, actions);
    if actions != [] {
      var n := |actions| - 1;
      var s := Run(catalog, actions[..n]);
      if Enabled(catalog, s, actions[n]) {
        StepGrows(catalog, s, actions[n]);
        EarlierBudget(s.timeline, Step(catalog, s, actions[n]).timeline, key, budget);
        BudgetHolds(catalog, actions[..n], key, budget);
        StepSpends(catalog, s, actions[n], key, budget);
      } else {
        BudgetHolds(catalog, actions[..n], key, budget);
      }
    } else {
      assert ReservedOn([], key) == 0.0 by { EmptyLedger(key); }
    }
  }

  lemma EmptyLedger(key: string)
    ensures ReservedOn([], key) == 0.0
  {}

  lemma EarlierBudget(earlier: seq<Entry>, later: seq<Entry>, key: string, budget: real)
    requires earlier <= later && FixedBudget(later, key, budget)
    ensures FixedBudget(earlier, key, budget)
  {
    forall entry | entry in earlier
      ensures entry in later
    {
      var i :| 0 <= i < |earlier| && earlier[i] == entry;
      assert later[i] == entry;
    }
  }

  lemma StepSpends(catalog: Catalog, s: State, a: Action, key: string, budget: real)
    requires Enabled(catalog, s, a) && Shadows.SpentOn(s.spend, key) <= budget
    requires FixedBudget(Step(catalog, s, a).timeline, key, budget)
    ensures Shadows.SpentOn(Step(catalog, s, a).spend, key) <= budget
  {
    hide RouteOf, PlanFor, Completed, ShadowResult, ReservationOf;
    if a.ReserveShadow? {
      var r := ReservationOf(s, catalog, a.parent, a.model, a.day);
      if Shadows.Granted(s.spend, r) { assert Reserved(a.parent, a.id, r) in Step(catalog, s, a).timeline; }
    }
  }

  /** The part of the reservations whose shadow was started. */
  function StartedOn(timeline: seq<Entry>, key: string): real
  {
    if timeline == [] then 0.0 else
      var last := timeline[|timeline| - 1];
      StartedOn(timeline[..|timeline| - 1], key) +
          if last.Reserved? && last.r.configured then CostOn(last, key) else 0.0
  }

  lemma {:induction false} StartedWithinReserved(timeline: seq<Entry>, key: string)
    requires forall entry :: entry in timeline && entry.Reserved? ==> entry.r.cost >= 0.0
    ensures 0.0 <= StartedOn(timeline, key) <= ReservedOn(timeline, key)
  {
    if timeline != [] {
      var n := |timeline| - 1;
      assert timeline[n] in timeline && forall entry :: entry in timeline[..n] ==> entry in timeline;
      StartedWithinReserved(timeline[..n], key);
    }
  }

  /** With estimates that are not negative, the shadows started in a day cost at most the budget. */
  lemma StartedShadowsWithinBudget(catalog: Catalog, actions: seq<Action>, key: string, budget: real)
    requires ValidCatalog(catalog) && budget >= 0.0 && FixedBudget(Run(catalog, actions).timeline, key, budget)
    requires forall entry :: entry in Run(catalog, actions).timeline && entry.Reserved? ==> entry.r.cost >= 0.0
    ensures 0.0 <= StartedOn(Run(catalog, actions).timeline, key) <= budget
  {
    hide Run;
    BudgetHolds(catalog, actions, key, budget);
    StartedWithinReserved(Run(catalog, actions).timeline, key);
  }

  // ---------- the decision log ----------

  function DecisionsOf(timeline: seq<Entry>): seq<Decision>
  {
    if timeline == [] then [] else
      var last := timeline[|timeline| - 1];
      DecisionsOf(timeline[..|timeline| - 1]) + if last.Saved? then [last.d] else []
  }

  lemma {:induction false} LoggedDecisions(timeline: seq<Entry>)
    ensures forall d :: d in DecisionsOf(timeline) ==> Saved(d) in timeline
  {
    if timeline != [] {
      LoggedDecisions(timeline[..|timeline| - 1]);
      assert timeline == timeline[..|timeline| - 1] + [timeline[|timeline| - 1]];
    }
  }

  /** The decision log of any run: all lines with one identifier agree on tenant, trace, policy, risk,
      snapshot, catalog, randomisation, selected model and creation time; none is anonymous; and a
      control request was served by its incumbent. */
  lemma LogIsConsistent(catalog: Catalog, actions: seq<Action>, d: Decision, e: Decision)
    requires ValidCatalog(catalog)
    requires d in DecisionsOf(Run(catalog, actions).timeline) && e in DecisionsOf(Run(catalog, actions).timeline)
    ensures d.id == e.id ==> SameRouting(d, e)
    ensures d.id != "" && WellBucketed(d)
  {
    hide Run, WriteAhead, Records, Consistent, Balanced, SameRouting, DecisionsOf;
    Reachable(catalog, actions);
    var s := Run(catalog, actions);
    LoggedDecisions(s.timeline);
    SavedIsKnown(s, Saved(d));
    SavedIsKnown(s, Saved(e));
    RecordIsOk(s, d.id);
    AgreeWithOne(d, e, s.records[d.id], s.records[e.id]);
    SameBuckets(d, s.timeline, s.records[d.id], s.work[d.id]);
  }

  lemma AgreeWithOne(d: Decision, e: Decision, a: Decision, b: Decision)
    requires SameRouting(d, a) && SameRouting(e, b)
    ensures a == b ==> SameRouting(d, e)
  {}

  lemma SameBuckets(d: Decision, timeline: seq<Entry>, a: Decision, w: Work)
    requires SameRouting(d, a) && RecordOk(timeline, a, w)
    ensures WellBucketed(d)
  {
    hide MainOk, ShadowOk;
  }

  /** In the summary of any run, for any query, routed and control requests are disjoint. */
  lemma RoutedPlusControlWithinRequests(catalog: Catalog, actions: seq<Action>, os: seq<Outcome>, q: Audit.Query,
                                        sqrt: real -> real)
    requires ValidCatalog(catalog)
    ensures var log := DecisionsOf(Run(catalog, actions).timeline);
            var ds := FileStores.ReadBack(FileStores.Disk(log, os, [])).decisions.Values;
            var t := Audit.SummaryOf(ds, os, q, sqrt).totals;
            t.routed + t.control <= t.requests
  {
    hide Run, WellBucketed, Audit.SummaryOf;
    var log := DecisionsOf(Run(catalog, actions).timeline);
    var ds := FileStores.ReadBack(FileStores.Disk(log, os, [])).decisions.Values;
    forall d | d in ds && d.bucket == Control
      ensures d.selected == d.incumbent
    {
      FileStores.ReplayInLog(log);
      LogIsConsistent(catalog, actions, d, d);
      ControlIsIncumbent(d);
    }
    RoutedAndControlAreDisjoint(ds, os, q, sqrt);
  }

  lemma ControlIsIncumbent(d: Decision)
    requires WellBucketed(d) && d.bucket == Control
    ensures d.selected == d.incumbent
  {}

  /** A run of the server, with outcomes and policies saved in between, leaves both repositories
      with the same answers: the log it writes is stable enough for the SQL filter columns. */
  lemma RunsKeepStoresInterchangeable(catalog: Catalog, actions: seq<Action>, saves: seq<FileStores.Save>,
                                      q: Audit.Query,
                                      rows: seq<Outcome>, sqrt: real -> real)
    requires ValidCatalog(catalog)
    requires PostgresStores.AllWritten(saves) && PostgresStores.TargetedOnce(PostgresStores.OutcomeLog(saves))
    requires PostgresStores.DecisionLog(saves) == DecisionsOf(Run(catalog, actions).timeline)
    requires multiset(rows) == multiset(PostgresStores.SelectedOutcomes(PostgresStores.TableRun(saves).outcomes, q))
    ensures PostgresStores.Interchangeable(saves, q, rows, sqrt)
  {
    hide Run, PostgresStores.Interchangeable;
    var log := PostgresStores.DecisionLog(saves);
    forall d, e | d in log && e in log && d.id == e.id
      ensures PostgresStores.SameIdentity(d, e)
    {
      LogIsConsistent(catalog, actions, d, e);
    }
    PostgresStores.StableLogsAreDisciplined(saves);
    PostgresStores.StoresAreInterchangeable(saves, q, rows, sqrt);
  }
}
