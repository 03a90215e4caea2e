/** The SQL store of internal/store/postgres.go over abstract tables: upserts that leave the
    filter columns of an existing row alone, and queries that filter on those columns. */
module PostgresStores {
  import opened Domain
  import opened Audit
  import opened AuditLaws
  import opened Records
  import opened FileStores

  /** tenant_id, policy_id and created_at as first inserted, and the latest JSON document. */
  datatype DecisionRow = DecisionRow(tenant: string, policy: string, createdAt: int, data: Decision)

  datatype Tables = Tables(
    decisions: map<string, DecisionRow>, outcomes: map<string, Outcome>, policies: map<string, Policy>)

  function Upsert(t: map<string, DecisionRow>, d: Decision): map<string, DecisionRow>
  {
    t[d.id := if d.id in t then t[d.id].(data := d) else DecisionRow(d.tenant, d.policyId, d.createdAt, d)]
  }

  predicate Targeted(o: Outcome) { o.decisionId != "" || o.trace != "" }

  /** ON CONFLICT DO NOTHING, under the check that an outcome names a decision or a trace. */
  function Insert(t: map<string, Outcome>, o: Outcome): map<string, Outcome>
  {
    if !Targeted(o) || o.id in t then t else t[o.id := o]
  }

  predicate Selected(row: DecisionRow, q: Query)
  {
    row.tenant == q.tenant && row.createdAt >= q.since && (q.policy == "" || row.policy == q.policy)
  }

  ghost function AllData(t: map<string, DecisionRow>): set<Decision> { set id | id in t :: t[id].data }

  ghost function QueryData(t: map<string, DecisionRow>, q: Query): set<Decision>
  {
    set id | id in t && Selected(t[id], q) :: t[id].data
  }

  /** SELECT data WHERE tenant_id = ... AND id = ... */
  function RowFor(t: map<string, DecisionRow>, tenant: string, id: string): Option<Decision>
  {
    if id in t && t[id].tenant == tenant then Some(t[id].data) else None
  }

  ghost predicate RowsKeyed(t: Tables)
  {
    && (forall id :: id in t.decisions ==> t.decisions[id].data.id == id)
    && (forall id :: id in t.outcomes ==> t.outcomes[id].id == id)
    && PoliciesKeyed(t.policies)
  }

  // ---------- pushing the filters into SQL ----------

  /** No query that would count the document can miss its row. */
  predicate Harmless(row: DecisionRow)
  {
    row.tenant == row.data.tenant && row.createdAt >= row.data.createdAt &&
    (row.data.policyId == "" || row.policy == row.data.policyId)
  }

  /** Filtering in SQL loses nothing, whatever is asked, exactly when every row is harmless. */
  lemma PushdownIsExactIff(t: map<string, DecisionRow>)
    requires forall id :: id in t ==> t[id].data.id == id
    ensures (forall id :: id in t ==> Harmless(t[id])) <==>
            forall q :: Scoped(QueryData(t, q), q) == Scoped(AllData(t), q)
  {
    if forall id :: id in t ==> Harmless(t[id]) {
      forall q
        ensures Scoped(QueryData(t, q), q) == Scoped(AllData(t), q)
      {
        PushdownIsExact(t, q);
      }
    } else {
      var id :| id in t && !Harmless(t[id]);
      var d := t[id].data;
      var q := Query(d.tenant, d.policyId, "", d.createdAt);
      assert d in Scoped(AllData(t), q);
      assert forall other :: other in t && t[other].data == d ==> other == id;
      assert d !in Scoped(QueryData(t, q), q);
    }
  }

  lemma PushdownIsExact(t: map<string, DecisionRow>, q: Query)
    requires forall id :: id in t ==> Harmless(t[id])
    ensures Scoped(QueryData(t, q), q) == Scoped(AllData(t), q)
  {
    forall id | id in t && InScope(t[id].data, q)
      ensures Selected(t[id], q)
    {}
  }

  predicate OutcomeSelected(o: Outcome, q: Query)
  {
    o.tenant == q.tenant && o.createdAt >= q.since && o.kind == q.primary
  }

  function SelectedOutcomes(t: map<string, Outcome>, q: Query): set<Outcome>
  {
    set id | id in t && OutcomeSelected(t[id], q) :: t[id]
  }

  // ---------- the store ----------

  class PostgresStore {
    var decisions: map<string, DecisionRow>
    var outcomes: map<string, Outcome>
    var policies: map<string, Policy>

    ghost function State(): Tables
      reads this
    {
      Tables(decisions, outcomes, policies)
    }

    ghost predicate Valid()
      reads this
    {
      RowsKeyed(State())
    }

    constructor ()
      ensures Valid() && State() == Tables(map[], map[], map[])
    {
      decisions, outcomes, policies := map[], map[], map[];
    }

    method SaveDecision(d: Decision)
      requires Valid()
      modifies this
      ensures Valid() && State() == TableStep(old(State()), Save.SaveDecision(d, Written))
    {
      if d.id in decisions {
        decisions := decisions[d.id := decisions[d.id].(data := d)];
      } else {
        decisions := decisions[d.id := DecisionRow(d.tenant, d.policyId, d.createdAt, d)];
      }
    }

    method SaveOutcome(o: Outcome) returns (ok: bool)
      requires Valid()
      modifies this
      ensures Valid() && State() == TableStep(old(State()), Save.SaveOutcome(o, Written))
      ensures ok == Targeted(o)
    {
      if o.decisionId == "" && o.trace == "" { return false; }
      if o.id !in outcomes { outcomes := outcomes[o.id := o]; }
      ok := true;
    }

    method SavePolicy(p: Policy)
      requires Valid()
      modifies this
      ensures Valid() && State() == TableStep(old(State()), Save.SavePolicy(p, Written))
    {
      policies := policies[p.id := p];
    }

    method GetDecision(tenant: string, id: string) returns (found: Option<Decision>)
      requires Valid()
      ensures found == RowFor(decisions, tenant, id)
    {
      found := None;
      if id in decisions && decisions[id].tenant == tenant { found := Some(decisions[id].data); }
    }

    /** Rows come back in any order; `rows` is the order in which the outcomes came. */
    method Summary(q: Query, sqrt: real -> real) returns (summary: Audit.Summary)
      requires Valid()
      ensures exists rows: seq<Outcome> :: multiset(rows) == multiset(SelectedOutcomes(outcomes, q)) &&
                summary == SummaryOf(QueryData(decisions, q), rows, q, sqrt)
    {
      var selected: seq<Decision> := [];
      var remaining := decisions.Keys;
      while remaining != {}
        invariant remaining <= decisions.Keys
        invariant Elements(selected) ==
                    (set id | id in decisions && id !in remaining && Selected(decisions[id], q) :: decisions[id].data)
        invariant forall i :: 0 <= i < |selected| ==> selected[i].id in decisions && selected[i].id !in remaining
        invariant Distinct(selected)
        decreases remaining
      {
        var id :| id in remaining;
        var row := decisions[id];
        remaining := remaining - {id};
        if row.tenant == q.tenant && row.createdAt >= q.since && (q.policy == "" || row.policy == q.policy) {
          assert Elements(selected + [row.data]) == Elements(selected) + {row.data};
          selected := selected + [row.data];
        }
      }
      assert Elements(selected) == QueryData(decisions, q);
      var rows := SelectOutcomes(q);
      summary := Summarize(selected, rows, q, sqrt);
    }

    method SelectOutcomes(q: Query) returns (rows: seq<Outcome>)
      requires Valid()
      ensures multiset(rows) == multiset(SelectedOutcomes(outcomes, q))
    {
      rows := [];
      var remaining := outcomes.Keys;
      ghost var taken: set<Outcome> := {};
      while remaining != {}
        invariant remaining <= outcomes.Keys
        invariant taken ==
                    (set id | id in outcomes && id !in remaining && OutcomeSelected(outcomes[id], q) :: outcomes[id])
        invariant multiset(rows) == multiset(taken)
        decreases remaining
      {
        var id :| id in remaining;
        var o := outcomes[id];
        assert o !in taken;
        remaining := remaining - {id};
        if o.tenant == q.tenant && o.createdAt >= q.since && o.kind == q.primary {
          rows := rows + [o];
          taken := taken + {o};
        }
      }
    }
  }

  // ---------- both stores under the same saves ----------

  function TableStep(t: Tables, save: Save): Tables
  {
    match save
    case SaveDecision(d, _) => t.(decisions := Upsert(t.decisions, d))
    case SaveOutcome(o, _) => t.(outcomes := Insert(t.outcomes, o))
    case SavePolicy(p, _) => t.(policies := t.policies[p.id := p])
  }

  function TableRun(saves: seq<Save>): Tables
  {
    if saves == [] then Tables(map[], map[], map[]) else TableStep(TableRun(saves[..|saves| - 1]), saves[|saves| - 1])
  }

  predicate SameIdentity(a: Decision, b: Decision)
  {
    a.id == b.id && a.tenant == b.tenant && a.policyId == b.policyId && a.createdAt == b.createdAt
  }

  /** What the HTTP layer guarantees of a save: a decision keeps its identity between versions,
      an outcome has a new identifier and a target. */
  ghost predicate Disciplined(m: Memory, save: Save)
  {
    && save.result == Written
    && match save
       case SaveDecision(d, _) => d.id in m.decisions ==> SameIdentity(m.decisions[d.id], d)
       case SaveOutcome(o, _) => Targeted(o) && forall i :: 0 <= i < |m.outcomes| ==> m.outcomes[i].id != o.id
       case SavePolicy(_, _) => true
  }

  ghost predicate AllDisciplined(saves: seq<Save>)
  {
    forall i :: 0 <= i < |saves| ==> Disciplined(Run(Fresh, saves[..i]).memory, saves[i])
  }

  function OutcomeIndex(os: seq<Outcome>): map<string, Outcome>
  {
    if os == [] then map[] else OutcomeIndex(os[..|os| - 1])[os[|os| - 1].id := os[|os| - 1]]
  }

  ghost predicate UniqueOutcomes(os: seq<Outcome>)
  {
    forall i, j :: 0 <= i < j < |os| ==> os[i].id != os[j].id
  }

  ghost predicate SameDecisions(m: map<string, Decision>, t: map<string, DecisionRow>)
  {
    && t.Keys == m.Keys && Keyed(m)
    && forall id :: id in m ==> t[id] == DecisionRow(m[id].tenant, m[id].policyId, m[id].createdAt, m[id])
  }

  /** The tables and the index of a file store say the same. */
  ghost predicate Corresponds(m: Memory, t: Tables)
  {
    SameDecisions(m.decisions, t.decisions) && t.outcomes == OutcomeIndex(m.outcomes) && UniqueOutcomes(m.outcomes) &&
    t.policies == m.policies
  }

  lemma {:induction false} OutcomeIndexKeys(os: seq<Outcome>, id: string)
    ensures id in OutcomeIndex(os) <==> exists i :: 0 <= i < |os| && os[i].id == id
  {
    if os != [] {
      var n := |os| - 1;
      OutcomeIndexKeys(os[..n], id);
      if id in OutcomeIndex(os[..n]) {
        var i :| 0 <= i < n && os[..n][i].id == id;
        assert os[i].id == id;
      }
    }
  }

  lemma StepKeepsCorrespondence(s: Store, t: Tables, save: Save)
    requires Corresponds(s.memory, t) && Disciplined(s.memory, save)
    ensures Corresponds(Step(s, save).memory, TableStep(t, save))
  {
    hide SameDecisions, OutcomeIndex, UniqueOutcomes, Upsert, Insert;
    match save {
      case SaveDecision(d, _) => UpsertKeepsDecisions(s.memory.decisions, t.decisions, d);
      case SaveOutcome(o, _) => InsertKeepsOutcomes(s.memory.outcomes, o);
      case SavePolicy(p, _) =>
    }
  }

  lemma UpsertKeepsDecisions(m: map<string, Decision>, t: map<string, DecisionRow>, d: Decision)
    requires SameDecisions(m, t) && (d.id in m ==> SameIdentity(m[d.id], d))
    ensures SameDecisions(m[d.id := d], Upsert(t, d))
  {}

  lemma InsertKeepsOutcomes(os: seq<Outcome>, o: Outcome)
    requires UniqueOutcomes(os) && Targeted(o) && forall i :: 0 <= i < |os| ==> os[i].id != o.id
    ensures UniqueOutcomes(os + [o]) && OutcomeIndex(os + [o]) == Insert(OutcomeIndex(os), o)
  {
    OutcomeIndexKeys(os, o.id);
    assert (os + [o])[..|os|] == os;
  }

  lemma {:induction false} RunsCorrespond(saves: seq<Save>)
    requires AllDisciplined(saves)
    ensures Corresponds(Run(Fresh, saves).memory, TableRun(saves))
  {
    if saves != [] {
      var n := |saves| - 1;
      assert forall i :: 0 <= i < n ==> saves[..n][i] == saves[i] && saves[..n][..i] == saves[..i];
      RunsCorrespond(saves[..n]);
      StepKeepsCorrespondence(Run(Fresh, saves[..n]), TableRun(saves[..n]), saves[n]);
    }
  }

  /** The WHERE clause over the outcome table selects the matching outcomes of the log, each once. */
  lemma {:induction false} SelectedIsMatching(os: seq<Outcome>, q: Query)
    requires UniqueOutcomes(os)
    ensures multiset(SelectedOutcomes(OutcomeIndex(os), q)) == multiset(Matching(os, q))
  {
    if os != [] {
      var n := |os| - 1;
      var t, o := OutcomeIndex(os[..n]), os[n];
      SelectedIsMatching(os[..n], q);
      OutcomeIndexKeys(os[..n], o.id);
      IndexedById(os[..n]);
      SelectedInsert(t, o, q);
      assert Matching(os[..n], q) + [] == Matching(os[..n], q);
    }
  }

  lemma SelectedInsert(t: map<string, Outcome>, o: Outcome, q: Query)
    requires o.id !in t && forall id :: id in t ==> t[id].id == id
    ensures o !in SelectedOutcomes(t, q)
    ensures SelectedOutcomes(t[o.id := o], q) == SelectedOutcomes(t, q) + if OutcomeSelected(o, q) then {o} else {}
  {
    var t' := t[o.id := o];
    forall x | x in SelectedOutcomes(t, q)
      ensures x in SelectedOutcomes(t', q)
    {
      var id :| id in t && OutcomeSelected(t[id], q) && t[id] == x;
      assert t'[id] == x;
    }
    if OutcomeSelected(o, q) { assert t'[o.id] == o; }
  }

  lemma {:induction false} IndexedById(os: seq<Outcome>)
    ensures forall id :: id in OutcomeIndex(os) ==> OutcomeIndex(os)[id].id == id
  {
    if os != [] { IndexedById(os[..|os| - 1]); }
  }

  /** Every decision lookup and every policy is the same, and so is every summary in which no trace
      contradicts itself, in whatever order (`rows`) the database returns its outcomes. */
  ghost predicate Interchangeable(saves: seq<Save>, q: Query, rows: seq<Outcome>, sqrt: real -> real)
  {
    var m, t := Run(Fresh, saves).memory, TableRun(saves);
    && t.policies == m.policies
    && (forall tenant, id :: RowFor(t.decisions, tenant, id) == Visible(m.decisions, tenant, id))
    && (Unanimous(m.outcomes, ById(Scoped(m.decisions.Values, q)), q) ==>
          SummaryOf(QueryData(t.decisions, q), rows, q, sqrt) == SummaryOf(m.decisions.Values, m.outcomes, q, sqrt))
  }

  /** After the same disciplined saves, the two repositories cannot be told apart. */
  lemma {:induction false} StoresAreInterchangeable(saves: seq<Save>, q: Query, rows: seq<Outcome>, sqrt: real -> real)
    requires AllDisciplined(saves)
    requires multiset(rows) == multiset(SelectedOutcomes(TableRun(saves).outcomes, q))
    ensures Interchangeable(saves, q, rows, sqrt)
  {
    hide Run, TableRun, Unanimous, SummaryOf, UniqueOutcomes, Matching, AllDisciplined;
    RunsCorrespond(saves);
    var m, t := Run(Fresh, saves).memory, TableRun(saves);
    if Unanimous(m.outcomes, ById(Scoped(m.decisions.Values, q)), q) {
      SelectedIsMatching(m.outcomes, q);
      OutcomeQueryIsExact(m.decisions.Values, m.outcomes, rows, q, sqrt);
      SameScope(m.decisions, t.decisions, q);
      ScopeIsEnough(QueryData(t.decisions, q), m.decisions.Values, rows, q, sqrt);
    }
  }

  lemma SameScope(m: map<string, Decision>, t: map<string, DecisionRow>, q: Query)
    requires SameDecisions(m, t)
    ensures Scoped(QueryData(t, q), q) == Scoped(m.Values, q)
  {
    PushdownIsExact(t, q);
    assert AllData(t) == m.Values;
  }

  lemma ScopeIsEnough(a: set<Decision>, b: set<Decision>, os: seq<Outcome>, q: Query, sqrt: real -> real)
    requires Scoped(a, q) == Scoped(b, q)
    ensures SummaryOf(a, os, q, sqrt) == SummaryOf(b, os, q, sqrt)
  {}

  // ---------- which save sequences are disciplined ----------

  predicate AllWritten(saves: seq<Save>) { forall i :: 0 <= i < |saves| ==> saves[i].result == Written }

  function DecisionLog(saves: seq<Save>): seq<Decision>
  {
    if saves == [] then [] else
      var last := saves[|saves| - 1];
      DecisionLog(saves[..|saves| - 1]) + if last.SaveDecision? then [last.decision] else []
  }

  function OutcomeLog(saves: seq<Save>): seq<Outcome>
  {
    if saves == [] then [] else
      var last := saves[|saves| - 1];
      OutcomeLog(saves[..|saves| - 1]) + if last.SaveOutcome? then [last.outcome] else []
  }

  /** All versions of a decision in the log carry the same identity. */
  ghost predicate Stable(log: seq<Decision>)
  {
    forall d, e :: d in log && e in log && d.id == e.id ==> SameIdentity(d, e)
  }

  ghost predicate TargetedOnce(os: seq<Outcome>)
  {
    UniqueOutcomes(os) && forall i :: 0 <= i < |os| ==> Targeted(os[i])
  }

  lemma {:induction false} RunIsLogs(saves: seq<Save>)
    requires AllWritten(saves)
    ensures Run(Fresh, saves).memory.decisions == Replay(DecisionLog(saves))
    ensures Run(Fresh, saves).memory.outcomes == OutcomeLog(saves)
  {
    if saves != [] {
      var n := |saves| - 1;
      RunIsLogs(saves[..n]);
      if saves[n].SaveDecision? { AppendedDecision(DecisionLog(saves[..n]), saves[n].decision); }
      assert DecisionLog(saves[..n]) + [] == DecisionLog(saves[..n]);
      assert OutcomeLog(saves[..n]) + [] == OutcomeLog(saves[..n]);
    }
  }

  lemma {:induction false} StableLogsAreDisciplined(saves: seq<Save>)
    requires AllWritten(saves) && Stable(DecisionLog(saves)) && TargetedOnce(OutcomeLog(saves))
    ensures AllDisciplined(saves)
  {
    hide Disciplined, Stable, TargetedOnce, DecisionLog, OutcomeLog, Run;
    if saves != [] {
      var n := |saves| - 1;
      PrefixOfLogs(saves);
      StableLogsAreDisciplined(saves[..n]);
      LastIsDisciplined(saves);
      forall i | 0 <= i < n
        ensures Disciplined(Run(Fresh, saves[..i]).memory, saves[i])
      {
        assert saves[..n][..i] == saves[..i] && saves[..n][i] == saves[i];
      }
    }
  }

  lemma LastIsDisciplined(saves: seq<Save>)
    requires saves != [] && AllWritten(saves) && Stable(DecisionLog(saves)) && TargetedOnce(OutcomeLog(saves))
    ensures Disciplined(Run(Fresh, saves[..|saves| - 1]).memory, saves[|saves| - 1])
  {
    hide Stable, TargetedOnce, DecisionLog, OutcomeLog, Run, Replay;
    var before := saves[..|saves| - 1];
    PrefixOfLogs(saves);
    RunIsLogs(before);
    ReplayInLog(DecisionLog(before));
    ReplayIsKeyed(DecisionLog(before));
  }

  lemma PrefixOfLogs(saves: seq<Save>)
    requires saves != [] && AllWritten(saves) && Stable(DecisionLog(saves)) && TargetedOnce(OutcomeLog(saves))
    ensures var before := saves[..|saves| - 1];
            AllWritten(before) && Stable(DecisionLog(before)) && TargetedOnce(OutcomeLog(before))
    ensures var last := saves[|saves| - 1]; var before := saves[..|saves| - 1];
            && (last.SaveDecision? ==>
                  forall d :: d in DecisionLog(before) && d.id == last.decision.id ==> SameIdentity(d, last.decision))
            && (last.SaveOutcome? ==> Targeted(last.outcome))
            && (last.SaveOutcome? ==>
                  forall i :: 0 <= i < |OutcomeLog(before)| ==> OutcomeLog(before)[i].id != last.outcome.id)
  {
    var before, last := saves[..|saves| - 1], saves[|saves| - 1];
    if last.SaveOutcome? { assert OutcomeLog(saves)[|OutcomeLog(before)|] == last.outcome; }
    assert forall i :: 0 <= i < |OutcomeLog(before)| ==> OutcomeLog(before)[i] == OutcomeLog(saves)[i];
  }
}
