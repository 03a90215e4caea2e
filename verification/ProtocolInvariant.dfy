/** What every step of the request protocol keeps. */
module ProtocolInvariant {
  import opened Domain
  import opened Policies
  import opened Protocol
  import opened Requests
  import opened Routing
  import opened RoutingLaws
  import opened Sequences
  import Shadows

  /** Whatever the attempt loop may call has been assessed and found feasible, and each model occurs once. */
  ghost predicate Planned(d: Decision, w: Work)
  {
    && NoDuplicates(w.usable) && "" !in w.usable && (forall m :: m in w.usable ==> Clears(m)(d))
    && forall m :: m in d.shadowModels ==> At(d.predictions, m).eligible
  }

  /** The record, the phase of the loop and the timeline agree. */
  predicate Conversing(timeline: seq<Entry>, d: Decision, w: Work)
  {
    var calls, replies := CallsOf(timeline, d.id), RepliesOf(timeline, d.id);
    && d.attempted == calls && calls <= w.usable
    && |calls| == |replies| + (if w.phase == Waiting then 1 else 0)
    && (if w.phase == Over then OnlyLastEnds(replies) else AllGoOn(replies))
    && d.final == FinalOf(calls, replies) && EncodeError !in replies
    && (d.completedAt != None ==> LoopEnded(d, w))
  }

  ghost predicate MainOk(timeline: seq<Entry>, d: Decision, w: Work)
  {
    Logged(timeline, d.id) && Planned(d, w) && Conversing(timeline, d, w)
  }

  ghost predicate ShadowOk(timeline: seq<Entry>, d: Decision, w: Work)
  {
    && Paid(timeline, d.parentId, d.id, d.selected)
    && (d.completedAt == None ==> !Logged(timeline, d.id))
    && (w.phase == Ready ==> !ShadowAsked(timeline, d.id))
  }

  /** Only treatments and explorations select another model than the incumbent; shadows have a parent. */
  predicate WellBucketed(d: Decision)
  {
    && (d.bucket != Shadow && d.selected != d.incumbent ==> d.bucket == Treatment || d.bucket == Exploration)
    && (d.bucket == Shadow <==> d.parentId != "")
  }

  ghost predicate RecordOk(timeline: seq<Entry>, d: Decision, w: Work)
  {
    d.id != "" && WellBucketed(d) && if d.bucket == Shadow then ShadowOk(timeline, d, w) else MainOk(timeline, d, w)
  }

  ghost predicate Records(s: State)
  {
    forall id :: id in s.records ==>
        id in s.work && s.records[id].id == id && RecordOk(s.timeline, s.records[id], s.work[id])
  }

  predicate Mentions(entry: Entry, id: string)
  {
    match entry
    case Saved(d) => d.id == id
    case Called(other, _) => other == id
    case Replied(other, _) => other == id
    case Reserved(_, shadow, r) => shadow == id && r.configured
    case ShadowCalled(_, shadow, _) => shadow == id
  }

  /** The timeline speaks only of decisions that exist, and its lines agree with the records in work on
      everything that identifies a decision. */
  ghost predicate Consistent(s: State)
  {
    && (forall entry, id :: entry in s.timeline && Mentions(entry, id) ==> id in s.records)
    && (forall entry :: entry in s.timeline && entry.Saved? ==> SameRouting(entry.d, s.records[entry.d.id]))
  }

  function CostOn(entry: Entry, key: string): real
  {
    if entry.Reserved? && entry.r.key == key then entry.r.cost else 0.0
  }

  /** Granted reservations of a tenant, policy and day. */
  function ReservedOn(timeline: seq<Entry>, key: string): real
  {
    if timeline == [] then 0.0 else
      ReservedOn(timeline[..|timeline| - 1], key) + CostOn(timeline[|timeline| - 1], key)
  }

  ghost predicate Balanced(s: State) { forall key :: Shadows.SpentOn(s.spend, key) == ReservedOn(s.timeline, key) }

  ghost predicate Inv(s: State) { Records(s) && Consistent(s) && WriteAhead(s.timeline) && Balanced(s) }

  // ---------- one more entry ----------

  lemma RecordedGrows(timeline: seq<Entry>, entry: Entry, id: string, ok: Decision -> bool)
    ensures Recorded(timeline + [entry], id, ok) <==>
            Recorded(timeline, id, ok) || (entry.Saved? && entry.d.id == id && ok(entry.d))
  {
    var after := timeline + [entry];
    if Recorded(timeline, id, ok) {
      var k :| 0 <= k < |timeline| && timeline[k].Saved? && timeline[k].d.id == id && ok(timeline[k].d);
      assert after[k] == timeline[k];
    }
    if entry.Saved? && entry.d.id == id && ok(entry.d) { assert after[|timeline|] == entry; }
  }

  lemma PaidGrows(timeline: seq<Entry>, entry: Entry, parent: string, id: string, model: string)
    ensures Paid(timeline + [entry], parent, id, model) <==>
            || Paid(timeline, parent, id, model)
            || (entry.Reserved? && entry.parent == parent && entry.id == id && entry.r.model == model &&
                entry.r.configured)
  {
    var after := timeline + [entry];
    if Paid(timeline, parent, id, model) {
      var k :| 0 <= k < |timeline| && timeline[k].Reserved? && timeline[k].parent == parent && timeline[k].id == id &&
               timeline[k].r.model == model && timeline[k].r.configured;
      assert after[k] == timeline[k];
    }
    if entry.Reserved? { assert after[|timeline|] == entry; }
  }

  lemma AskedGrows(timeline: seq<Entry>, entry: Entry, id: string)
    ensures ShadowAsked(timeline + [entry], id) <==>
              ShadowAsked(timeline, id) || (entry.ShadowCalled? && entry.id == id)
  {
    var after := timeline + [entry];
    if ShadowAsked(timeline, id) {
      var k :| 0 <= k < |timeline| && timeline[k].ShadowCalled? && timeline[k].id == id;
      assert after[k] == timeline[k];
    }
    if entry.ShadowCalled? { assert after[|timeline|] == entry; }
  }

  lemma TalkGrows(timeline: seq<Entry>, entry: Entry, id: string)
    ensures CallsOf(timeline + [entry], id) ==
            CallsOf(timeline, id) + if entry.Called? && entry.id == id then [entry.model] else []
    ensures RepliesOf(timeline + [entry], id) ==
            RepliesOf(timeline, id) + if entry.Replied? && entry.id == id then [entry.reply] else []
  {
    assert (timeline + [entry])[..|timeline|] == timeline;
  }

  lemma WriteAheadGrows(timeline: seq<Entry>, entry: Entry)
    requires WriteAhead(timeline) && EntryOk(timeline, entry)
    ensures WriteAhead(timeline + [entry])
  {
    hide EntryOk;
    var after := timeline + [entry];
    forall k | 0 <= k < |after|
      ensures EntryOk(after[..k], after[k])
    {
      if k < |timeline| {
        assert after[..k] == timeline[..k] && after[k] == timeline[k];
      } else {
        assert after[..k] == timeline;
      }
    }
  }

  lemma ReservedGrows(timeline: seq<Entry>, entry: Entry, key: string)
    ensures ReservedOn(timeline + [entry], key) == ReservedOn(timeline, key) + CostOn(entry, key)
  {
    assert (timeline + [entry])[..|timeline|] == timeline;
  }

  /** An entry about another decision leaves a record as it was. */
  lemma RecordStaysOk(timeline: seq<Entry>, entry: Entry, d: Decision, w: Work)
    requires RecordOk(timeline, d, w) && !Mentions(entry, d.id)
    ensures RecordOk(timeline + [entry], d, w)
  {
    hide Recorded, Paid, ShadowAsked, CallsOf, RepliesOf, Planned, WellBucketed, FinalOf;
    RecordedGrows(timeline, entry, d.id, Any());
    PaidGrows(timeline, entry, d.parentId, d.id, d.selected);
    AskedGrows(timeline, entry, d.id);
    TalkGrows(timeline, entry, d.id);
    assert CallsOf(timeline, d.id) + [] == CallsOf(timeline, d.id);
    assert RepliesOf(timeline, d.id) + [] == RepliesOf(timeline, d.id);
  }

  /** What happens to one decision and is written down leaves all others as they were. */
  lemma OthersStayOk(s: State, t: State, id: string, entry: Entry)
    requires Records(s) && t.timeline == s.timeline + [entry]
    requires forall other :: other in s.records && other != id ==> !Mentions(entry, other)
    requires forall other :: other in t.records && other != id ==>
               other in s.records && other in s.work && other in t.work &&
               t.records[other] == s.records[other] && t.work[other] == s.work[other]
    requires id in t.records ==>
               id in t.work && t.records[id].id == id && RecordOk(t.timeline, t.records[id], t.work[id])
    ensures Records(t)
  {
    hide RecordOk, Mentions;
    forall other | other in t.records && other != id
      ensures RecordOk(t.timeline, t.records[other], t.work[other])
    {
      RecordStaysOk(s.timeline, entry, s.records[other], s.work[other]);
    }
  }

  lemma ConsistentGrows(s: State, t: State, entry: Entry)
    requires Consistent(s) && t.timeline == s.timeline + [entry]
    requires forall id :: id in s.records ==> id in t.records && SameRouting(s.records[id], t.records[id])
    requires forall id :: Mentions(entry, id) ==> id in t.records
    requires entry.Saved? ==> entry.d.id in t.records && SameRouting(entry.d, t.records[entry.d.id])
    ensures Consistent(t)
  {
    hide Mentions, SameRouting;
    forall e | e in t.timeline && e.Saved?
      ensures e.d.id in t.records && SameRouting(e.d, t.records[e.d.id])
    {
      if e in s.timeline {
        SavedIsKnown(s, e);
        Transitive(e.d, s.records[e.d.id], t.records[e.d.id]);
      }
    }
  }

  lemma SavedIsKnown(s: State, e: Entry)
    requires Consistent(s) && e in s.timeline && e.Saved?
    ensures e.d.id in s.records && SameRouting(e.d, s.records[e.d.id])
  {
    assert Mentions(e, e.d.id);
  }

  lemma Transitive(a: Decision, b: Decision, c: Decision)
    requires SameRouting(a, b) && SameRouting(b, c)
    ensures SameRouting(a, c)
  {}

  lemma BalancedGrows(s: State, t: State, entry: Entry)
    requires Balanced(s) && t.timeline == s.timeline + [entry]
    requires forall key :: Shadows.SpentOn(t.spend, key) == Shadows.SpentOn(s.spend, key) + CostOn(entry, key)
    ensures Balanced(t)
  {
    hide Shadows.SpentOn, CostOn;
    forall key
      ensures Shadows.SpentOn(t.spend, key) == ReservedOn(t.timeline, key)
    {
      ReservedGrows(s.timeline, entry, key);
    }
  }

  /** A decision the timeline does not mention has no history. */
  lemma {:induction false} NoHistory(timeline: seq<Entry>, id: string)
    requires forall entry :: entry in timeline ==> !Mentions(entry, id)
    ensures CallsOf(timeline, id) == [] && RepliesOf(timeline, id) == [] && !Logged(timeline, id)
    ensures !Started(timeline, id) && !ShadowAsked(timeline, id)
  {
    if timeline != [] {
      var n := |timeline| - 1;
      assert timeline[n] in timeline;
      NoHistory(timeline[..n], id);
    }
    assert forall k :: 0 <= k < |timeline| ==> timeline[k] in timeline;
  }

  // ---------- the steps ----------

  lemma BeginKeepsInv(s: State, d: Decision, w: Work)
    requires Inv(s) && d.id != "" && d.id !in s.records && WellBucketed(d) && d.bucket != Shadow
    requires d.attempted == [] && d.final == "" && d.completedAt == None && Planned(d, w) && w.phase == Ready
    ensures Inv(Begin(s, d, w))
  {
    hide RecordOk, CallsOf, RepliesOf, SameRouting, EntryOk, Mentions, Consistent, WriteAhead, Balanced, Planned;
    var t := Begin(s, d, w);
    FreshIsSilent(s, d.id);
    BegunIsOk(s.timeline, d, w);
    WriteAheadGrows(s.timeline, Saved(d));
    BeginKeepsRecords(s, d, w);
    BeginKeepsConsistent(s, d, w);
    BeginKeepsBalance(s, d, w);
  }

  lemma FreshIsSilent(s: State, id: string)
    requires Consistent(s) && id !in s.records
    ensures CallsOf(s.timeline, id) == [] && RepliesOf(s.timeline, id) == []
  {
    hide Mentions, CallsOf, RepliesOf;
    NoHistory(s.timeline, id);
  }

  lemma BeginKeepsRecords(s: State, d: Decision, w: Work)
    requires Records(s) && d.id !in s.records && RecordOk(s.timeline + [Saved(d)], d, w)
    ensures Records(Begin(s, d, w))
  {
    hide RecordOk;
    OthersStayOk(s, Begin(s, d, w), d.id, Saved(d));
  }

  lemma BeginKeepsConsistent(s: State, d: Decision, w: Work)
    requires Consistent(s) && d.id !in s.records
    ensures Consistent(Begin(s, d, w))
  {
    hide SameRouting, Consistent;
    var t := Begin(s, d, w);
    forall id | id in s.records
      ensures SameRouting(s.records[id], t.records[id])
    {
      Reflexive(s.records[id]);
    }
    Reflexive(d);
    ConsistentGrows(s, t, Saved(d));
  }

  lemma BeginKeepsBalance(s: State, d: Decision, w: Work)
    requires Balanced(s)
    ensures Balanced(Begin(s, d, w))
  {
    hide Balanced;
    BalancedGrows(s, Begin(s, d, w), Saved(d));
  }

  lemma Reflexive(d: Decision)
    ensures SameRouting(d, d)
  {}

  lemma BegunIsOk(timeline: seq<Entry>, d: Decision, w: Work)
    requires CallsOf(timeline, d.id) == [] && RepliesOf(timeline, d.id) == []
    requires d.id != "" && WellBucketed(d) && d.bucket != Shadow && d.attempted == [] && d.final == ""
    requires d.completedAt == None && Planned(d, w) && w.phase == Ready
    ensures RecordOk(timeline + [Saved(d)], d, w) && EntryOk(timeline, Saved(d))
  {
    hide Recorded, CallsOf, RepliesOf, Planned, WellBucketed;
    RecordedGrows(timeline, Saved(d), d.id, Any());
    TalkGrows(timeline, Saved(d), d.id);
  }

  /** Only this decision moves on. */
  ghost predicate Moves(s: State, t: State, id: string)
  {
    && id in s.records && t.spend == s.spend
    && t.records.Keys == s.records.Keys &&
       (forall other :: other in s.records && other != id ==> t.records[other] == s.records[other])
    && id in t.work
    && (forall other :: other in s.work && other != id ==> other in t.work && t.work[other] == s.work[other])
    && SameRouting(s.records[id], t.records[id])
  }

  /** One decision moves on and nothing is written down. */
  lemma QuietKeepsInv(s: State, t: State, id: string)
    requires Inv(s) && Moves(s, t, id) && t.timeline == s.timeline
    requires RecordOk(t.timeline, t.records[id], t.work[id])
    ensures Inv(t)
  {
    hide RecordOk, EntryOk, SameRouting, Consistent, WriteAhead, Balanced;
    SameIdentifier(s.records[id], t.records[id]);
    QuietKeepsConsistent(s, t, id);
    assert Balanced(t) by { QuietKeepsBalance(s, t); }
  }

  lemma QuietKeepsBalance(s: State, t: State)
    requires Balanced(s) && t.spend == s.spend && t.timeline == s.timeline
    ensures Balanced(t)
  {}

  lemma QuietKeepsConsistent(s: State, t: State, id: string)
    requires Consistent(s) && Moves(s, t, id) && t.timeline == s.timeline
    ensures Consistent(t)
  {
    hide SameRouting, Mentions;
    forall e | e in t.timeline && e.Saved?
      ensures e.d.id in t.records && SameRouting(e.d, t.records[e.d.id])
    {
      SavedIsKnown(s, e);
      if e.d.id == id { Transitive(e.d, s.records[id], t.records[id]); }
    }
  }

  lemma SameIdentifier(a: Decision, b: Decision)
    requires SameRouting(a, b)
    ensures a.id == b.id && a.bucket == b.bucket && a.parentId == b.parentId && a.selected == b.selected
    ensures a.predictions == b.predictions && a.shadowModels == b.shadowModels && a.incumbent == b.incumbent
  {}

  /** One decision moves on, and that is written down. */
  lemma LoggedStepKeepsInv(s: State, t: State, id: string, entry: Entry)
    requires Inv(s) && Moves(s, t, id) && t.timeline == s.timeline + [entry]
    requires RecordOk(t.timeline, t.records[id], t.work[id])
    requires EntryOk(s.timeline, entry) && !entry.Reserved? && forall other :: Mentions(entry, other) <==> other == id
    requires entry.Saved? ==> entry.d == t.records[id] && entry.d.id == id
    ensures Inv(t)
  {
    hide RecordOk, EntryOk, SameRouting, Mentions, WriteAhead, Records, Consistent, Balanced, Moves;
    WriteAheadGrows(s.timeline, entry);
    LoggedStepKeepsRecords(s, t, id, entry);
    LoggedStepKeepsConsistent(s, t, id, entry);
    assert Balanced(t) by { UnpaidKeepsBalance(s, t, id, entry); }
  }

  lemma UnpaidKeepsBalance(s: State, t: State, id: string, entry: Entry)
    requires Balanced(s) && Moves(s, t, id) && t.timeline == s.timeline + [entry] && !entry.Reserved?
    ensures Balanced(t)
  {
    hide Balanced, SameRouting;
    BalancedGrows(s, t, entry);
  }

  lemma LoggedStepKeepsRecords(s: State, t: State, id: string, entry: Entry)
    requires Records(s) && Moves(s, t, id) && t.timeline == s.timeline + [entry]
    requires RecordOk(t.timeline, t.records[id], t.work[id]) && forall other :: Mentions(entry, other) <==> other == id
    ensures Records(t)
  {
    hide RecordOk, SameRouting, Mentions;
    SameIdentifier(s.records[id], t.records[id]);
    OthersStayOk(s, t, id, entry);
  }

  lemma LoggedStepKeepsConsistent(s: State, t: State, id: string, entry: Entry)
    requires Consistent(s) && Moves(s, t, id) && t.timeline == s.timeline + [entry]
    requires forall other :: Mentions(entry, other) <==> other == id
    requires entry.Saved? ==> entry.d == t.records[id] && entry.d.id == id
    ensures Consistent(t)
  {
    hide SameRouting, Mentions, Consistent;
    forall other | other in s.records
      ensures SameRouting(s.records[other], t.records[other])
    {
      Reflexive(s.records[other]);
    }
    Reflexive(t.records[id]);
    ConsistentGrows(s, t, entry);
  }

  lemma RecordIsOk(s: State, id: string)
    requires Inv(s) && id in s.records
    ensures id != "" && id in s.work && s.records[id].id == id && RecordOk(s.timeline, s.records[id], s.work[id])
  {}

  /** What the record in work allows, some line of the log allows. */
  lemma RecordedAsInWork(s: State, id: string, ok: Decision -> bool)
    requires Consistent(s) && Logged(s.timeline, id) && id in s.records
    requires ok(s.records[id]) && forall d :: SameRouting(d, s.records[id]) ==> ok(d)
    ensures Recorded(s.timeline, id, ok)
  {
    hide SameRouting;
    var k :| 0 <= k < |s.timeline| && s.timeline[k].Saved? && s.timeline[k].d.id == id && Any()(s.timeline[k].d);
    assert s.timeline[k] in s.timeline;
    SavedIsKnown(s, s.timeline[k]);
  }

  // the attempt loop

  lemma NextKeepsInv(s: State, id: string)
    requires Inv(s) && Serving(s, id) && s.work[id].phase == Ready && |s.records[id].attempted| < |s.work[id].usable|
    ensures Inv(Next(s, id))
  {
    hide Inv, Recorded, CallsOf, RepliesOf, RecordOk, EntryOk;
    var d, w := s.records[id], s.work[id];
    var model := w.usable[|d.attempted|];
    RecordIsOk(s, id);
    NextCallIsOk(s, id, model);
    NextIsOk(s.timeline, d, w, model);
    LoggedStepKeepsInv(s, Next(s, id), id, Called(id, model));
  }

  lemma NextCallIsOk(s: State, id: string, model: string)
    requires Inv(s) && Serving(s, id) && s.work[id].phase == Ready && |s.records[id].attempted| < |s.work[id].usable|
    requires model == s.work[id].usable[|s.records[id].attempted|]
    ensures EntryOk(s.timeline, Called(id, model))
  {
    hide Recorded, CallsOf, RepliesOf, WriteAhead, Balanced, Consistent, FinalOf;
    var d, w := s.records[id], s.work[id];
    RecordIsOk(s, id);
    assert model in w.usable;
    SameClearance(d, model);
    RecordedAsInWork(s, id, Clears(model));
    NewInPrefix(w.usable, d.attempted);
  }

  lemma NewInPrefix(usable: seq<string>, attempted: seq<string>)
    requires NoDuplicates(usable) && attempted <= usable && |attempted| < |usable|
    ensures usable[|attempted|] !in attempted
  {}

  lemma SameClearance(d: Decision, model: string)
    ensures forall e :: SameRouting(e, d) ==> Clears(model)(e) == Clears(model)(d)
  {}

  lemma NextIsOk(timeline: seq<Entry>, d: Decision, w: Work, model: string)
    requires RecordOk(timeline, d, w) && d.bucket != Shadow && w.phase == Ready && d.completedAt == None
    requires |d.attempted| < |w.usable| && model == w.usable[|d.attempted|]
    ensures var d' := d.(attempted := d.attempted + [model]);
            SameRouting(d, d') && RecordOk(timeline + [Called(d.id, model)], d', w.(phase := Waiting))
  {
    hide Recorded, CallsOf, RepliesOf;
    var d' := d.(attempted := d.attempted + [model]);
    RecordedGrows(timeline, Called(d.id, model), d.id, Any());
    TalkGrows(timeline, Called(d.id, model), d.id);
    NothingServed(CallsOf(timeline, d.id), RepliesOf(timeline, d.id));
    NothingServed(d'.attempted, RepliesOf(timeline, d.id));
    assert RepliesOf(timeline, d.id) + [] == RepliesOf(timeline, d.id);
  }

  /** While the loop goes on no model has answered. */
  lemma NothingServed(calls: seq<string>, replies: seq<Reply>)
    requires AllGoOn(replies)
    ensures FinalOf(calls, replies) == "" && !Succeeded(replies) && OnlyLastEnds(replies)
  {
    if replies != [] { assert GoesOn(Last(replies)); }
  }

  lemma LeaveKeepsInv(s: State, id: string)
    requires Inv(s) && Serving(s, id) && s.work[id].phase == Ready
    ensures Inv(Move(s, id, Over))
  {
    hide Inv, Recorded, CallsOf, RepliesOf, WellBucketed;
    RecordIsOk(s, id);
    NothingServed(s.records[id].attempted, RepliesOf(s.timeline, id));
    Reflexive(s.records[id]);
    QuietKeepsInv(s, Move(s, id, Over), id);
  }

  lemma HeardKeepsInv(s: State, id: string, reply: Reply)
    requires Inv(s) && Serving(s, id) && s.work[id].phase == Waiting && reply != EncodeError
    ensures Inv(Heard(s, id, reply))
  {
    hide Inv, Recorded, CallsOf, RepliesOf, RecordOk, EntryOk, GoesOn, SameRouting;
    var d, w := s.records[id], s.work[id];
    RecordIsOk(s, id);
    HeardIsOk(s.timeline, d, w, reply);
    LoggedStepKeepsInv(s, Heard(s, id, reply), id, Replied(id, reply));
  }

  lemma HeardIsOk(timeline: seq<Entry>, d: Decision, w: Work, reply: Reply)
    requires RecordOk(timeline, d, w) && d.bucket != Shadow && w.phase == Waiting && reply != EncodeError
    requires d.completedAt == None
    ensures var served := if reply == Success && d.attempted != [] then Finalized(d, d.attempted, Last(d.attempted))
                          else d;
            && SameRouting(d, served)
            && RecordOk(timeline + [Replied(d.id, reply)], served, w.(phase := if GoesOn(reply) then Ready else Over))
    ensures EntryOk(timeline, Replied(d.id, reply))
  {
    hide Recorded, CallsOf, RepliesOf, Planned;
    var calls, replies := CallsOf(timeline, d.id), RepliesOf(timeline, d.id);
    RecordedGrows(timeline, Replied(d.id, reply), d.id, Any());
    TalkGrows(timeline, Replied(d.id, reply), d.id);
    assert calls + [] == calls;
    NothingServed(calls, replies);
    OneMoreReply(replies, reply);
    assert Planned(d, w) by { PlanOf(timeline, d, w); }
    PlanCarriesOver(d, d.attempted, Last(d.attempted), w);
  }

  lemma PlanOf(timeline: seq<Entry>, d: Decision, w: Work)
    requires MainOk(timeline, d, w)
    ensures Planned(d, w)
  {}

  lemma PlanCarriesOver(d: Decision, attempted: seq<string>, final: string, w: Work)
    requires Planned(d, w)
    ensures Planned(Finalized(d, attempted, final), w)
    ensures forall phase :: Planned(d, w.(phase := phase))
    ensures forall phase :: Planned(Finalized(d, attempted, final), w.(phase := phase))
  {}

  lemma OneMoreReply(replies: seq<Reply>, reply: Reply)
    requires AllGoOn(replies)
    ensures OnlyLastEnds(replies + [reply]) && (GoesOn(reply) ==> AllGoOn(replies + [reply]))
    ensures Last(replies + [reply]) == reply
  {}

  // completion

  lemma FinishKeepsInv(catalog: Catalog, s: State, id: string, response: Response, now: int, saved: bool)
    requires Inv(s) && Enabled(catalog, s, Finish(id, response, now, saved))
    ensures Inv(Save(s, id, Completed(s.records[id], response, catalog, now), saved))
  {
    hide Inv, Recorded, CallsOf, RepliesOf, RecordOk, EntryOk, Completed, SameRouting;
    var d, w := s.records[id], s.work[id];
    RecordIsOk(s, id);
    CompletedIsOk(catalog, s.timeline, d, w, response, now);
    var t := Save(s, id, Completed(d, response, catalog, now), saved);
    if saved { LoggedStepKeepsInv(s, t, id, Saved(t.records[id])); } else { QuietKeepsInv(s, t, id); }
  }

  lemma CompletedIsOk(catalog: Catalog, timeline: seq<Entry>, d: Decision, w: Work, response: Response, now: int)
    requires RecordOk(timeline, d, w) && d.bucket != Shadow && LoopEnded(d, w)
    ensures var done := Completed(d, response, catalog, now);
            && done.id == d.id && done.bucket == d.bucket && SameRouting(d, done) && EntryOk(timeline, Saved(done))
            && RecordOk(timeline, done, w) && RecordOk(timeline + [Saved(done)], done, w)
  {
    hide Logged, CallsOf, RepliesOf, Planned, Completed, SameRouting, WellBucketed, FinalOf, LoopEnded;
    var done := Completed(d, response, catalog, now);
    CompletedPlan(catalog, d, w, response, now);
    EndedIsTruthful(timeline, d, done, w);
    LineKeepsMain(timeline, done, w);
  }

  /** When the loop has ended, the record tells the truth about it. */
  lemma EndedIsTruthful(timeline: seq<Entry>, d: Decision, done: Decision, w: Work)
    requires MainOk(timeline, d, w) && LoopEnded(d, w) && done.id == d.id
    requires done.attempted == d.attempted && done.final == d.final
    ensures Truthful(timeline, done) && Conversing(timeline, done, w)
  {
    hide Recorded, CallsOf, RepliesOf, Clears, NoDuplicates;
    var calls, replies := CallsOf(timeline, d.id), RepliesOf(timeline, d.id);
    if w.phase == Ready { NothingServed(calls, replies); }
    FinalIsCalled(calls, replies, w.usable);
  }

  lemma LineKeepsMain(timeline: seq<Entry>, d: Decision, w: Work)
    requires MainOk(timeline, d, w)
    ensures MainOk(timeline + [Saved(d)], d, w)
  {
    hide Recorded, CallsOf, RepliesOf, Planned, FinalOf;
    RecordedGrows(timeline, Saved(d), d.id, Any());
    TalkGrows(timeline, Saved(d), d.id);
    assert CallsOf(timeline, d.id) + [] == CallsOf(timeline, d.id);
    assert RepliesOf(timeline, d.id) + [] == RepliesOf(timeline, d.id);
  }

  lemma CompletedPlan(catalog: Catalog, d: Decision, w: Work, response: Response, now: int)
    ensures var done := Completed(d, response, catalog, now);
            && done.id == d.id && done.bucket == d.bucket && SameRouting(d, done) && done.completedAt != None
            && done.attempted == d.attempted && done.final == d.final
            && (WellBucketed(d) ==> WellBucketed(done)) && (Planned(d, w) ==> Planned(done, w))
  {}

  lemma FinalIsCalled(calls: seq<string>, replies: seq<Reply>, usable: seq<string>)
    requires calls <= usable && "" !in usable && |calls| == |replies|
    ensures FinalOf(calls, replies) != "" <==> Succeeded(replies)
  {
    if Succeeded(replies) { assert Last(calls) == usable[|calls| - 1]; }
  }

  // shadows

  lemma ReserveKeepsInv(catalog: Catalog, s: State, parent: string, id: string, model: string, day: string, now: int)
    requires Inv(s) && Enabled(catalog, s, ReserveShadow(parent, id, model, day, now))
    requires Shadows.Granted(s.spend, ReservationOf(s, catalog, parent, model, day))
    ensures Inv(Reserve(s, parent, id, ReservationOf(s, catalog, parent, model, day), now))
  {
    hide RecordOk, EntryOk, SameRouting, CallsOf, RepliesOf, Logged, Started, ShadowAsked, ReservationOf, Mentions;
    hide Records, Consistent, WriteAhead, Balanced, ShadowOf, Reserve;
    var r := ReservationOf(s, catalog, parent, model, day);
    var entry := Reserved(parent, id, r);
    FreshHasNoHistory(s, id);
    ReservationIsOk(catalog, s, parent, id, model, day);
    WriteAheadGrows(s.timeline, entry);
    RecordIsOk(s, parent);
    ReserveKeepsRecords(s, parent, id, r, now);
    ReserveKeepsConsistent(s, parent, id, r, now);
    ReserveKeepsBalance(s, parent, id, r, now);
    ReserveIsLogged(s, parent, id, r, now);
  }

  lemma ReserveIsLogged(s: State, parent: string, id: string, r: Shadows.Reservation, now: int)
    requires Serving(s, parent)
    ensures Reserve(s, parent, id, r, now).timeline == s.timeline + [Reserved(parent, id, r)]
  {
    hide ShadowOf;
  }

  lemma FreshHasNoHistory(s: State, id: string)
    requires Consistent(s) && id !in s.records
    ensures !Started(s.timeline, id) && !Logged(s.timeline, id) && !ShadowAsked(s.timeline, id)
  {
    hide Mentions, Started, Logged, ShadowAsked;
    NoHistory(s.timeline, id);
  }

  lemma ReserveKeepsRecords(s: State, parent: string, id: string, r: Shadows.Reservation, now: int)
    requires Records(s) && Serving(s, parent) && IsFresh(s, id) && s.records[parent].id == parent != ""
    requires !Logged(s.timeline, id) && !ShadowAsked(s.timeline, id)
    ensures Records(Reserve(s, parent, id, r, now))
  {
    hide RecordOk, Logged, ShadowAsked;
    var t := Reserve(s, parent, id, r, now);
    if r.configured { StartedIsOk(s.timeline, s.records[parent], t.work[id], Reserved(parent, id, r), now); }
    OthersStayOk(s, t, id, Reserved(parent, id, r));
  }

  lemma ReserveKeepsConsistent(s: State, parent: string, id: string, r: Shadows.Reservation, now: int)
    requires Consistent(s) && Serving(s, parent) && IsFresh(s, id)
    ensures Consistent(Reserve(s, parent, id, r, now))
  {
    hide SameRouting, Consistent, ShadowOf;
    var t := Reserve(s, parent, id, r, now);
    forall other | other in s.records
      ensures SameRouting(s.records[other], t.records[other])
    {
      Reflexive(s.records[other]);
    }
    ConsistentGrows(s, t, Reserved(parent, id, r));
  }

  lemma ReserveKeepsBalance(s: State, parent: string, id: string, r: Shadows.Reservation, now: int)
    requires Balanced(s) && Serving(s, parent) && Shadows.Granted(s.spend, r)
    ensures Balanced(Reserve(s, parent, id, r, now))
  {
    hide Balanced, ShadowOf;
    BalancedGrows(s, Reserve(s, parent, id, r, now), Reserved(parent, id, r));
  }

  lemma ReservationIsOk(catalog: Catalog, s: State, parent: string, id: string, model: string, day: string)
    requires Inv(s) && Serving(s, parent) && s.records[parent].final != "" && Shadows.ShadowsAllowed(s.records[parent])
    requires model in s.records[parent].shadowModels && model != s.records[parent].final && !Started(s.timeline, id)
    ensures EntryOk(s.timeline, Reserved(parent, id, ReservationOf(s, catalog, parent, model, day)))
  {
    hide Recorded, CallsOf, RepliesOf, WriteAhead, Balanced, Consistent, Started, NoDuplicates, Shadows.Key;
    var r := ReservationOf(s, catalog, parent, model, day);
    RecordIsOk(s, parent);
    SameShadowClearance(s.records[parent], model, r.cost);
    RecordedAsInWork(s, parent, ClearsShadow(model, r.cost));
  }

  lemma SameShadowClearance(d: Decision, model: string, cost: real)
    ensures forall e :: SameRouting(e, d) ==> ClearsShadow(model, cost)(e) == ClearsShadow(model, cost)(d)
  {}

  lemma StartedIsOk(timeline: seq<Entry>, parent: Decision, w: Work, entry: Entry, now: int)
    requires entry.Reserved? && entry.parent == parent.id && entry.parent != "" && entry.id != "" && entry.r.configured
    requires !Logged(timeline, entry.id) && !ShadowAsked(timeline, entry.id)
    ensures RecordOk(timeline + [entry], ShadowOf(parent, entry.id, entry.r.model, now), w)
  {
    hide Recorded, Paid, ShadowAsked;
    RecordedGrows(timeline, entry, entry.id, Any());
    PaidGrows(timeline, entry, parent.id, entry.id, entry.r.model);
    AskedGrows(timeline, entry, entry.id);
  }

  lemma CallShadowKeepsInv(s: State, id: string)
    requires Inv(s) && Shadowing(s, id) && s.work[id].phase == Ready
    ensures Inv(Log(Move(s, id, Waiting), ShadowCalled(s.records[id].parentId, id, s.records[id].selected)))
  {
    hide Inv, RecordOk, EntryOk, SameRouting;
    var d, w := s.records[id], s.work[id];
    var entry := ShadowCalled(d.parentId, id, d.selected);
    RecordIsOk(s, id);
    AskedIsOk(s.timeline, d, w);
    Reflexive(d);
    LoggedStepKeepsInv(s, Log(Move(s, id, Waiting), entry), id, entry);
  }

  lemma AskedIsOk(timeline: seq<Entry>, d: Decision, w: Work)
    requires RecordOk(timeline, d, w) && d.bucket == Shadow && d.completedAt == None && w.phase == Ready
    ensures var entry := ShadowCalled(d.parentId, d.id, d.selected);
            EntryOk(timeline, entry) && RecordOk(timeline + [entry], d, w.(phase := Waiting))
  {
    hide Recorded, Paid, ShadowAsked;
    var entry := ShadowCalled(d.parentId, d.id, d.selected);
    RecordedGrows(timeline, entry, d.id, Any());
    PaidGrows(timeline, entry, d.parentId, d.id, d.selected);
  }

  lemma FinishShadowKeepsInv(catalog: Catalog, s: State, id: string, response: Response, now: int, saved: bool)
    requires Inv(s) && Shadowing(s, id)
    ensures Inv(Save(s, id, ShadowResult(s.records[id], response, catalog, now), saved))
  {
    hide Inv, RecordOk, EntryOk, ShadowResult, SameRouting;
    var d, w := s.records[id], s.work[id];
    RecordIsOk(s, id);
    ShadowResultIsOk(catalog, s.timeline, d, w, response, now);
    var t := Save(s, id, ShadowResult(d, response, catalog, now), saved);
    if saved { LoggedStepKeepsInv(s, t, id, Saved(t.records[id])); } else { QuietKeepsInv(s, t, id); }
  }

  lemma ShadowResultIsOk(catalog: Catalog, timeline: seq<Entry>, d: Decision, w: Work, response: Response, now: int)
    requires RecordOk(timeline, d, w) && d.bucket == Shadow
    ensures var done := ShadowResult(d, response, catalog, now);
            && done.id == d.id && SameRouting(d, done) && EntryOk(timeline, Saved(done))
            && RecordOk(timeline, done, w) && RecordOk(timeline + [Saved(done)], done, w)
  {
    hide Recorded, Paid, ShadowAsked;
    var done := ShadowResult(d, response, catalog, now);
    PaidGrows(timeline, Saved(done), d.parentId, d.id, d.selected);
    AskedGrows(timeline, Saved(done), d.id);
  }

  // all steps

  lemma RoutedIsPlanned(e: Engine, c: Context, p: Policy, r: Request, providers: set<string>)
    requires ValidCatalog(e.catalog)
    ensures var d := RouteOf(e, c, p, r);
            && d.id == c.id && WellBucketed(d) && d.bucket != Shadow && d.attempted == [] && d.final == "" &&
               d.completedAt == None
            && Planned(d, PlanFor(d, p, e.catalog, providers))
  {
    hide RouteOf, PredictionsOf, Unique, UsableIn;
    RoutedDecision(e, c, p, r);
    var d := RouteOf(e, c, p, r);
    var order := AttemptOrder(d.selected, p.fallbacks, p.incumbent);
    var usable := UsableIn(d, e.catalog, providers, order);
    UniqueMembers([d.selected] + p.fallbacks + [p.incumbent]);
    UsableMembers(d, e.catalog, providers, order);
    forall m | m in usable
      ensures m != "" && Clears(m)(d)
    {
      UsableFacts(d, e.catalog, providers, m);
      ListedIsPredicted(e, p, r, m);
    }
  }

  lemma StepKeepsInv(catalog: Catalog, s: State, a: Action)
    requires ValidCatalog(catalog) && Inv(s) && Enabled(catalog, s, a)
    ensures Inv(Step(catalog, s, a))
  {
    hide Inv, RouteOf, Save, Store, Log, Move, Begin, Next, Heard, Reserve, Completed, ShadowResult, UsableIn, Planned;
    hide ReservationOf;
    match a {
      case Arrive(c, p, r, e, providers, saved) =>
        RoutedIsPlanned(e, c, p, r, providers);
        if saved { BeginKeepsInv(s, RouteOf(e, c, p, r), PlanFor(RouteOf(e, c, p, r), p, catalog, providers)); }
      case Call(id, encodes) => if encodes { NextKeepsInv(s, id); } else { LeaveKeepsInv(s, id); }
      case Answer(id, reply) => HeardKeepsInv(s, id, reply);
      case Finish(id, response, now, saved) => FinishKeepsInv(catalog, s, id, response, now, saved);
      case ReserveShadow(parent, id, model, day, now) =>
        if Shadows.Granted(s.spend, ReservationOf(s, catalog, parent, model, day)) {
          ReserveKeepsInv(catalog, s, parent, id, model, day, now);
        }
      case CallShadow(id) => CallShadowKeepsInv(s, id);
      case FinishShadow(id, response, now, saved) => FinishShadowKeepsInv(catalog, s, id, response, now, saved);
    }
  }

  lemma {:induction false} Reachable(catalog: Catalog, actions: seq<Action>)
    requires ValidCatalog(catalog)
    ensures Inv(Run(catalog, actions))
  {
    if actions != [] {
      hide Inv, Step, Enabled;
      var n := |actions| - 1;
      Reachable(catalog, actions[..n]);
      var s := Run(catalog, actions[..n]);
      if Enabled(catalog, s, actions[n]) { StepKeepsInv(catalog, s, actions[n]); }
    }
  }
}
