/** Reading an append-only log of versioned records: the last record of an identifier counts. */
module Records {
  import opened Domain

  /** What the Go store keeps in memory after reading a decision log. */
  function Replay(log: seq<Decision>): map<string, Decision>
  {
    if log == [] then map[] else Replay(log[..|log| - 1])[log[|log| - 1].id := log[|log| - 1]]
  }

  /** What latest_by_id keeps: the same, but a record without an identifier is skipped. */
  function Latest(log: seq<Decision>): map<string, Decision>
  {
    if log == [] then map[] else
      var record := log[|log| - 1];
      if record.id != "" then Latest(log[..|log| - 1])[record.id := record] else Latest(log[..|log| - 1])
  }

  ghost predicate Keyed(m: map<string, Decision>) { forall id :: id in m ==> m[id].id == id }

  method LatestById(records: seq<Decision>) returns (result: map<string, Decision>)
    ensures result == Latest(records)
  {
    result := map[];
    for i := 0 to |records|
      invariant result == Latest(records[..i])
    {
      assert records[..i + 1][..i] == records[..i];
      var identifier := records[i].id;
      if identifier != "" { result := result[identifier := records[i]]; }
    }
    assert records[..|records|] == records;
  }

  lemma {:induction false} ReplayIsKeyed(log: seq<Decision>)
    ensures Keyed(Replay(log)) && Keyed(Latest(log))
  {
    if log != [] { ReplayIsKeyed(log[..|log| - 1]); }
  }

  ghost predicate IsLastRecord(log: seq<Decision>, i: int)
  {
    0 <= i < |log| && forall j :: i < j < |log| ==> log[j].id != log[i].id
  }

  function Ids(log: seq<Decision>): set<string> { set d | d in log :: d.id }

  lemma {:induction false} ReplayKeys(log: seq<Decision>)
    ensures Replay(log).Keys == Ids(log)
  {
    if log != [] {
      var n := |log| - 1;
      ReplayKeys(log[..n]);
      assert log == log[..n] + [log[n]];
      assert Ids(log) == Ids(log[..n]) + {log[n].id};
    }
  }

  /** The value kept for an identifier is its last record in the log. */
  lemma {:induction false} ReplayKeepsLast(log: seq<Decision>, i: int)
    requires IsLastRecord(log, i)
    ensures log[i].id in Replay(log) && Replay(log)[log[i].id] == log[i]
  {
    var n := |log| - 1;
    if i < n {
      assert log[n].id != log[i].id;
      assert forall j :: i < j < n ==> log[..n][j] == log[j];
      ReplayKeepsLast(log[..n], i);
    }
  }

  /** The two readers agree on a log exactly when every record has an identifier. */
  lemma {:induction false} ReadersAgreeIff(log: seq<Decision>)
    ensures Replay(log) == Latest(log) <==> forall d :: d in log ==> d.id != ""
  {
    LatestSkipsAnonymous(log);
    if forall d :: d in log ==> d.id != "" {
      ReadersAgree(log);
    } else {
      var d :| d in log && d.id == "";
      ReplayKeys(log);
      assert "" in Replay(log);
    }
  }

  lemma {:induction false} ReadersAgree(log: seq<Decision>)
    requires forall d :: d in log ==> d.id != ""
    ensures Replay(log) == Latest(log)
  {
    if log != [] {
      assert log[|log| - 1] in log;
      ReadersAgree(log[..|log| - 1]);
    }
  }

  lemma {:induction false} LatestSkipsAnonymous(log: seq<Decision>)
    ensures "" !in Latest(log)
  {
    if log != [] { LatestSkipsAnonymous(log[..|log| - 1]); }
  }

  lemma {:induction false} LatestInLog(log: seq<Decision>)
    ensures forall id :: id in Latest(log) ==> Latest(log)[id] in log
  {
    if log != [] {
      LatestInLog(log[..|log| - 1]);
      assert log == log[..|log| - 1] + [log[|log| - 1]];
    }
  }
}
