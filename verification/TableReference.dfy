/** What the SQL tables remember of a history of saves, said about the history itself: a row keeps the filter
    columns of the first version of a decision and the document of the last, and an outcome is what it was
    when it first came. */
module TableReference {
  import opened Audit
  import opened Domain
  import opened FileStores
  import opened PostgresStores
  import opened Records

  /** The first version of its decision. */
  ghost predicate FirstVersion(log: seq<Decision>, i: nat)
  {
    i < |log| && forall k :: 0 <= k < i ==> log[k].id != log[i].id
  }

  /** The versions number i and j are the first and the last of one decision. */
  ghost predicate Versions(log: seq<Decision>, i: nat, j: nat)
  {
    FirstVersion(log, i) && IsLastRecord(log, j) && log[i].id == log[j].id
  }

  lemma {:induction false} LogOfSaves(saves: seq<Save>)
    requires saves != []
    ensures var last := saves[|saves| - 1];
            DecisionLog(saves) == DecisionLog(saves[..|saves| - 1]) + if last.SaveDecision? then [last.decision] else []
  {}

  lemma {:induction false} RowsAreKept(saves: seq<Save>)
    ensures TableRun(saves).decisions.Keys == Ids(DecisionLog(saves))
  {
    if saves != [] {
      var n := |saves| - 1;
      RowsAreKept(saves[..n]);
      var before := DecisionLog(saves[..n]);
      if saves[n].SaveDecision? {
        assert Ids(before + [saves[n].decision]) == Ids(before) + {saves[n].decision.id};
      } else {
        assert before + [] == before;
      }
    }
  }

  /** The row of a decision: the tenant, policy and time of its first version, the document of its last. */
  lemma {:induction false} RowsRemember(saves: seq<Save>, i: nat, j: nat)
    requires Versions(DecisionLog(saves), i, j)
    ensures var log, rows := DecisionLog(saves), TableRun(saves).decisions;
            && log[i].id in rows
            && rows[log[i].id] == DecisionRow(log[i].tenant, log[i].policyId, log[i].createdAt, log[j])
  {
    var n := |saves| - 1;
    var before := DecisionLog(saves[..n]);
    RowsAreKept(saves[..n]);
    if !saves[n].SaveDecision? {
      assert before + [] == before;
      RowsRemember(saves[..n], i, j);
    } else {
      var log := DecisionLog(saves);
      assert log == before + [saves[n].decision] && log[..|before|] == before;
      if j < |before| {
        assert log[|before|].id != log[j].id;
        VersionsBefore(log, i, j);
        RowsRemember(saves[..n], i, j);
      } else if i < |before| {
        var k := LastBefore(before, log[i].id);
        assert Versions(before, i, k);
        RowsRemember(saves[..n], i, k);
      } else {
        assert log[j].id !in Ids(before);
      }
    }
  }

  lemma VersionsBefore(log: seq<Decision>, i: nat, j: nat)
    requires log != [] && Versions(log, i, j) && j < |log| - 1
    ensures i < |log| - 1 && Versions(log[..|log| - 1], i, j)
  {}

  lemma {:induction false} LastBefore(log: seq<Decision>, id: string) returns (k: nat)
    requires id in Ids(log)
    ensures IsLastRecord(log, k) && log[k].id == id
  {
    var n := |log| - 1;
    assert log == log[..n] + [log[n]];
    if log[n].id == id {
      k := n;
    } else {
      k := LastBefore(log[..n], id);
    }
  }

  lemma {:induction false} FirstOf(log: seq<Decision>, id: string) returns (k: nat)
    requires id in Ids(log)
    ensures FirstVersion(log, k) && log[k].id == id
  {
    var n := |log| - 1;
    assert log == log[..n] + [log[n]];
    if id in Ids(log[..n]) {
      k := FirstOf(log[..n], id);
    } else {
      k := n;
      assert forall i :: 0 <= i < n ==> log[i] in log[..n];
    }
  }

  /** Which documents a query sees, and which one a lookup finds: the tenant, the policy and the window are
      those of the first version, what is returned is the last one. */
  lemma QueriesMean(saves: seq<Save>, i: nat, j: nat, q: Query, tenant: string)
    requires Versions(DecisionLog(saves), i, j)
    ensures var first, last := DecisionLog(saves)[i], DecisionLog(saves)[j];
            && (last in QueryData(TableRun(saves).decisions, q) <==>
                  && first.tenant == q.tenant && first.createdAt >= q.since
                  && (q.policy == "" || q.policy == first.policyId))
            && RowFor(TableRun(saves).decisions, tenant, last.id) == if first.tenant == tenant then Some(last) else None
  {
    hide TableRun, DecisionLog;
    var log, rows := DecisionLog(saves), TableRun(saves).decisions;
    RowsRemember(saves, i, j);
    DataIsKeyed(saves);
    assert forall id :: id in rows && rows[id].data == log[j] ==> id == log[j].id;
  }

  lemma {:induction false} DataIsKeyed(saves: seq<Save>)
    ensures forall id :: id in TableRun(saves).decisions ==> TableRun(saves).decisions[id].data.id == id
  {
    if saves != [] { DataIsKeyed(saves[..|saves| - 1]); }
  }

  /** Nothing is seen but last versions of decisions. */
  lemma QueriesSeeLastVersions(saves: seq<Save>, q: Query, d: Decision) returns (i: nat, j: nat)
    requires d in QueryData(TableRun(saves).decisions, q)
    ensures Versions(DecisionLog(saves), i, j) && DecisionLog(saves)[j] == d
  {
    hide TableRun, DecisionLog;
    var log, rows := DecisionLog(saves), TableRun(saves).decisions;
    RowsAreKept(saves);
    DataIsKeyed(saves);
    assert d.id in rows;
    i := FirstOf(log, d.id);
    j := LastBefore(log, d.id);
    RowsRemember(saves, i, j);
  }

  // ---------- outcomes ----------

  predicate HasTarget(o: Outcome) { o.decisionId != "" || o.trace != "" }

  /** An outcome with a target, and no earlier one of these has its identifier. */
  ghost predicate FirstSent(os: seq<Outcome>, i: nat)
  {
    i < |os| && HasTarget(os[i]) && forall k :: 0 <= k < i && HasTarget(os[k]) ==> os[k].id != os[i].id
  }

  /** An outcome without a target never enters. */
  lemma {:induction false} OutcomesAreSent(saves: seq<Save>, id: string)
    ensures id in TableRun(saves).outcomes <==> exists o :: o in OutcomeLog(saves) && HasTarget(o) && o.id == id
  {
    if saves != [] {
      var n := |saves| - 1;
      OutcomesAreSent(saves[..n], id);
      var before, os := OutcomeLog(saves[..n]), OutcomeLog(saves);
      assert forall o :: o in os <==> o in before || (saves[n].SaveOutcome? && o == saves[n].outcome);
    }
  }

  /** Any other stays as it first came. */
  lemma {:induction false} OutcomesRemember(saves: seq<Save>, i: nat)
    requires FirstSent(OutcomeLog(saves), i)
    ensures var o := OutcomeLog(saves)[i]; o.id in TableRun(saves).outcomes && TableRun(saves).outcomes[o.id] == o
  {
    var n := |saves| - 1;
    var before, os := OutcomeLog(saves[..n]), OutcomeLog(saves);
    OutcomesAreSent(saves[..n], os[i].id);
    if !saves[n].SaveOutcome? {
      assert os == before;
      OutcomesRemember(saves[..n], i);
    } else {
      assert os == before + [saves[n].outcome];
      assert forall k :: 0 <= k < |before| ==> before[k] == os[k];
      if i < |before| {
        OutcomesRemember(saves[..n], i);
      } else {
        assert forall o :: o in before && HasTarget(o) ==> o.id != os[i].id;
      }
    }
  }

  /** The outcomes a query reads. */
  lemma OutcomeQueriesMean(saves: seq<Save>, q: Query, o: Outcome)
    ensures o in SelectedOutcomes(TableRun(saves).outcomes, q) <==>
              && o in TableRun(saves).outcomes.Values && o.tenant == q.tenant
              && o.createdAt >= q.since && o.kind == q.primary
  {
    hide TableRun;
  }
}
