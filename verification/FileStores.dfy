/** The file store of internal/store/store.go: three append-only logs on disk, and an index of
    them in memory. */
module FileStores {
  import opened Domain
  import opened Sequences
  import opened Audit
  import opened Records

  /** What appendJSONLine did. Encode can fail before the line is complete; Close can report an
      error after the line is on disk. */
  datatype Append = Written | NotWritten | WrittenThenError

  datatype Disk = Disk(decisions: seq<Decision>, outcomes: seq<Outcome>, policies: seq<Policy>)

  datatype Memory = Memory(decisions: map<string, Decision>, outcomes: seq<Outcome>, policies: map<string, Policy>)

  datatype Store = Store(memory: Memory, disk: Disk)

  datatype Save =
    | SaveDecision(decision: Decision, result: Append)
    | SaveOutcome(outcome: Outcome, result: Append)
    | SavePolicy(policy: Policy, result: Append)

  function ReplayPolicies(log: seq<Policy>): map<string, Policy>
  {
    if log == [] then map[] else ReplayPolicies(log[..|log| - 1])[log[|log| - 1].id := log[|log| - 1]]
  }

  /** What a process that opens these files holds in memory. */
  function ReadBack(disk: Disk): Memory
  {
    Memory(Replay(disk.decisions), disk.outcomes, ReplayPolicies(disk.policies))
  }

  predicate Faithful(s: Store) { s.memory == ReadBack(s.disk) }

  function Appended<T>(log: seq<T>, record: T, result: Append): seq<T>
  {
    if result == NotWritten then log else log + [record]
  }

  /** One save: the disk gets the line unless it was refused, the index only on success. */
  function Step(s: Store, save: Save): Store
  {
    var Store(m, d) := s;
    match save
    case SaveDecision(r, result) =>
      Store(if result == Written then m.(decisions := m.decisions[r.id := r]) else m,
            d.(decisions := Appended(d.decisions, r, result)))
    case SaveOutcome(r, result) =>
      Store(if result == Written then m.(outcomes := m.outcomes + [r]) else m,
            d.(outcomes := Appended(d.outcomes, r, result)))
    case SavePolicy(r, result) =>
      Store(if result == Written then m.(policies := m.policies[r.id := r]) else m,
            d.(policies := Appended(d.policies, r, result)))
  }

  function Run(s: Store, saves: seq<Save>): Store
  {
    if saves == [] then s else Step(Run(s, saves[..|saves| - 1]), saves[|saves| - 1])
  }

  const Fresh := Store(Memory(map[], [], map[]), Disk([], [], []))

  /** The index already holds exactly this record. */
  predicate Redundant(m: Memory, save: Save)
  {
    match save
    case SaveDecision(r, _) => r.id in m.decisions && m.decisions[r.id] == r
    case SaveOutcome(_, _) => false
    case SavePolicy(r, _) => r.id in m.policies && m.policies[r.id] == r
  }

  /** A save keeps memory and files in step unless its line reached the disk although an error
      was reported, and the record said something new. */
  lemma StepStaysFaithfulIff(s: Store, save: Save)
    requires Faithful(s)
    ensures Faithful(Step(s, save)) <==> save.result != WrittenThenError || Redundant(s.memory, save)
  {
    hide Replay, ReplayPolicies;
    match save {
      case SaveDecision(r, _) =>
        AppendedDecision(s.disk.decisions, r);
        PutBack(s.memory.decisions, r.id, r);
      case SaveOutcome(r, _) => assert |s.memory.outcomes + [r]| == |s.memory.outcomes| + 1;
      case SavePolicy(r, _) =>
        AppendedPolicy(s.disk.policies, r);
        PutBack(s.memory.policies, r.id, r);
    }
  }

  /** Putting a value into a map changes nothing iff it is there already. */
  lemma PutBack<K, V>(m: map<K, V>, k: K, v: V)
    ensures m[k := v] == m <==> k in m && m[k] == v
  {
    if k !in m { assert k in m[k := v]; }
  }

  lemma AppendedPolicy(log: seq<Policy>, p: Policy)
    ensures ReplayPolicies(log + [p]) == ReplayPolicies(log)[p.id := p]
  {
    assert (log + [p])[..|log|] == log;
  }

  lemma AppendedDecision(log: seq<Decision>, r: Decision)
    ensures Replay(log + [r]) == Replay(log)[r.id := r]
  {
    assert (log + [r])[..|log|] == log;
  }

  lemma {:induction false} ReplayInLog(log: seq<Decision>)
    ensures forall id :: id in Replay(log) ==> Replay(log)[id] in log
  {
    if log != [] {
      ReplayInLog(log[..|log| - 1]);
      assert log == log[..|log| - 1] + [log[|log| - 1]];
    }
  }

  /** After any saves, refused ones included, whose errors meant nothing was written: closing the
      store and opening its files again gives the same decisions, outcomes and policies, hence the
      same answer to every query. */
  lemma {:induction false} ReopeningChangesNothing(saves: seq<Save>)
    requires forall i :: 0 <= i < |saves| ==> saves[i].result != WrittenThenError
    ensures ReadBack(Run(Fresh, saves).disk) == Run(Fresh, saves).memory
  {
    if saves != [] {
      ReopeningChangesNothing(saves[..|saves| - 1]);
      StepStaysFaithfulIff(Run(Fresh, saves[..|saves| - 1]), saves[|saves| - 1]);
    }
  }

  ghost predicate PoliciesKeyed(m: map<string, Policy>) { forall id :: id in m ==> m[id].id == id }

  ghost predicate IndexKeyed(m: Memory) { Keyed(m.decisions) && PoliciesKeyed(m.policies) }

  lemma {:induction false} ReplayPoliciesKeyed(log: seq<Policy>)
    ensures PoliciesKeyed(ReplayPolicies(log))
  {
    if log != [] { ReplayPoliciesKeyed(log[..|log| - 1]); }
  }

  /** What a tenant may look up. */
  function Visible(decisions: map<string, Decision>, tenant: string, id: string): Option<Decision>
  {
    if id in decisions && decisions[id].tenant == tenant then Some(decisions[id]) else None
  }

  // ---------- policies in order ----------

  ghost predicate Ascending(ps: seq<Policy>) { forall i, j :: 0 <= i < j < |ps| ==> Before(ps[i].id, ps[j].id) }

  method InsertById(ps: seq<Policy>, p: Policy) returns (result: seq<Policy>)
    requires Ascending(ps) && forall q :: q in ps ==> q.id != p.id
    ensures Ascending(result) && forall q :: q in result <==> q in ps || q == p
  {
    var i := |ps|;
    while i > 0 && Before(p.id, ps[i - 1].id)
      invariant 0 <= i <= |ps| && forall k :: i <= k < |ps| ==> Before(p.id, ps[k].id)
    {
      i := i - 1;
    }
    InsertedInOrder(ps, p, i);
    result := ps[..i] + [p] + ps[i..];
    assert ps == ps[..i] + ps[i..];
  }

  lemma InsertedInOrder(ps: seq<Policy>, p: Policy, i: nat)
    requires Ascending(ps) && i <= |ps| && (forall k :: i <= k < |ps| ==> Before(p.id, ps[k].id))
    requires i > 0 ==> !Before(p.id, ps[i - 1].id) && ps[i - 1].id != p.id
    ensures Ascending(ps[..i] + [p] + ps[i..])
  {
    hide Before;
    forall k | 0 <= k < i
      ensures Before(ps[k].id, p.id)
    {
      BeforeIsTotal(p.id, ps[i - 1].id);
      if k < i - 1 { BeforeIsTransitive(ps[k].id, ps[i - 1].id, p.id); }
    }
  }

  lemma {:induction false} AscendingReplays(ps: seq<Policy>)
    requires Ascending(ps)
    ensures forall p :: p in ps ==> p.id in ReplayPolicies(ps) && ReplayPolicies(ps)[p.id] == p
    ensures forall id :: id in ReplayPolicies(ps) ==> ReplayPolicies(ps)[id] in ps && ReplayPolicies(ps)[id].id == id
  {
    hide Before;
    if ps != [] {
      var n := |ps| - 1;
      AscendingReplays(ps[..n]);
      assert ps == ps[..n] + [ps[n]];
      forall p | p in ps[..n]
        ensures p.id != ps[n].id
      {
        BeforeIsIrreflexive(p.id);
      }
    }
  }

  /** A policy map has one sorted listing, so what LoadPolicies returns does not depend on map order. */
  lemma {:induction false} OneSortedListing(a: seq<Policy>, b: seq<Policy>)
    requires Ascending(a) && Ascending(b) && forall p :: p in a <==> p in b
    ensures a == b
    decreases |a|
  {
    hide Before;
    if a == [] {
      if b != [] { SomeMember(b); }
    } else {
      var n, m := |a| - 1, |b| - 1;
      assert a[n] in b;
      LargestIsLast(a, b);
      forall p
        ensures p in a[..n] <==> p in b[..m]
      {
        NotAgain(a, p);
        NotAgain(b, p);
      }
      OneSortedListing(a[..n], b[..m]);
      assert a == a[..n] + [a[n]] && b == b[..m] + [b[m]];
    }
  }

  lemma SomeMember(a: seq<Policy>)
    requires a != []
    ensures exists p :: p in a
  {
    assert a[0] in a;
  }

  lemma LargestIsLast(a: seq<Policy>, b: seq<Policy>)
    requires Ascending(a) && Ascending(b) && (forall p :: p in a <==> p in b) && a != [] && b != []
    ensures a[|a| - 1] == b[|b| - 1]
  {
    hide Before;
    var x, y := a[|a| - 1], b[|b| - 1];
    assert x in b && y in a;
    if x != y {
      BeforeIsTransitive(x.id, y.id, x.id);
      BeforeIsIrreflexive(x.id);
    }
  }

  lemma NotAgain(a: seq<Policy>, p: Policy)
    requires Ascending(a) && a != []
    ensures p in a[..|a| - 1] <==> p in a && p != a[|a| - 1]
  {
    hide Before;
    BeforeIsIrreflexive(p.id);
    assert a == a[..|a| - 1] + [a[|a| - 1]];
  }

  class FileStore {
    var decisions: map<string, Decision>
    var outcomes: seq<Outcome>
    var policies: map<string, Policy>
    var disk: Disk

    ghost function State(): Store
      reads this
    {
      Store(Memory(decisions, outcomes, policies), disk)
    }

    ghost predicate Valid()
      reads this
    {
      IndexKeyed(State().memory)
    }

    constructor (disk: Disk)
      ensures Valid() && State() == Store(ReadBack(disk), disk)
    {
      var ds: map<string, Decision> := map[];
      for i := 0 to |disk.decisions|
        invariant ds == Replay(disk.decisions[..i])
      {
        assert disk.decisions[..i + 1][..i] == disk.decisions[..i];
        ds := ds[disk.decisions[i].id := disk.decisions[i]];
      }
      assert disk.decisions[..|disk.decisions|] == disk.decisions;
      var os: seq<Outcome> := [];
      for i := 0 to |disk.outcomes|
        invariant os == disk.outcomes[..i]
      {
        os := os + [disk.outcomes[i]];
      }
      var ps: map<string, Policy> := map[];
      for i := 0 to |disk.policies|
        invariant ps == ReplayPolicies(disk.policies[..i])
      {
        assert disk.policies[..i + 1][..i] == disk.policies[..i];
        ps := ps[disk.policies[i].id := disk.policies[i]];
      }
      assert disk.policies[..|disk.policies|] == disk.policies;
      ReplayIsKeyed(disk.decisions);
      ReplayPoliciesKeyed(disk.policies);
      this.decisions, this.outcomes, this.policies, this.disk := ds, os, ps, disk;
    }

    method SaveDecision(decision: Decision, result: Append) returns (ok: bool)
      requires Valid()
      modifies this
      ensures Valid() && ok == (result == Written)
      ensures State() == Step(old(State()), Save.SaveDecision(decision, result))
    {
      if result != NotWritten { disk := disk.(decisions := disk.decisions + [decision]); }
      if result != Written { return false; }
      decisions := decisions[decision.id := decision];
      ok := true;
    }

    method SaveOutcome(outcome: Outcome, result: Append) returns (ok: bool)
      requires Valid()
      modifies this
      ensures Valid() && ok == (result == Written)
      ensures State() == Step(old(State()), Save.SaveOutcome(outcome, result))
    {
      if result != NotWritten { disk := disk.(outcomes := disk.outcomes + [outcome]); }
      if result != Written { return false; }
      outcomes := outcomes + [outcome];
      ok := true;
    }

    method SavePolicy(policy: Policy, result: Append) returns (ok: bool)
      requires Valid()
      modifies this
      ensures Valid() && ok == (result == Written)
      ensures State() == Step(old(State()), Save.SavePolicy(policy, result))
    {
      if result != NotWritten { disk := disk.(policies := disk.policies + [policy]); }
      if result != Written { return false; }
      policies := policies[policy.id := policy];
      ok := true;
    }

    /** A decision is visible only to the tenant that owns it. */
    method GetDecision(tenant: string, id: string) returns (found: Option<Decision>)
      requires Valid()
      ensures found == Visible(decisions, tenant, id)
      ensures found.Some? <==> id in decisions && decisions[id].tenant == tenant
      ensures found.Some? ==> found.value == decisions[id] && found.value.id == id
    {
      found := None;
      if id in decisions {
        var decision := decisions[id];
        if decision.tenant == tenant { found := Some(decision); }
      }
    }

    /** Every policy once, sorted by identifier. */
    method LoadPolicies() returns (result: seq<Policy>)
      requires Valid()
      ensures Ascending(result) && ReplayPolicies(result) == policies
    {
      result := [];
      var remaining := policies.Keys;
      while remaining != {}
        invariant remaining <= policies.Keys
        invariant forall p :: p in result <==> p.id in policies && p.id !in remaining && policies[p.id] == p
        invariant Ascending(result)
        decreases remaining
      {
        var id :| id in remaining;
        remaining := remaining - {id};
        result := InsertById(result, policies[id]);
      }
      AscendingReplays(result);
      assert ReplayPolicies(result) == policies;
    }

    method Summary(q: Query, sqrt: real -> real) returns (summary: Audit.Summary)
      requires Valid()
      ensures summary == SummaryOf(decisions.Values, outcomes, q, sqrt)
    {
      var all := [];
      var remaining := decisions.Keys;
      while remaining != {}
        invariant remaining <= decisions.Keys
        invariant Elements(all) == (set id | id in decisions && id !in remaining :: decisions[id])
        invariant forall i :: 0 <= i < |all| ==> all[i].id in decisions && all[i].id !in remaining
        invariant Distinct(all)
        decreases remaining
      {
        var id :| id in remaining;
        assert Elements(all + [decisions[id]]) == Elements(all) + {decisions[id]};
        remaining := remaining - {id};
        all := all + [decisions[id]];
      }
      assert Elements(all) == decisions.Values;
      summary := Summarize(all, outcomes, q, sqrt);
    }
  }

  /** A store that runs any saves and is then opened again from its own files. */
  method RunAndReopen(saves: seq<Save>) returns (live: FileStore, reopened: FileStore)
    requires forall i :: 0 <= i < |saves| ==> saves[i].result != WrittenThenError
    ensures live.Valid() && reopened.Valid() && fresh(live) && fresh(reopened)
    ensures live.State() == Run(Fresh, saves) && reopened.State() == live.State()
  {
    live := new FileStore(Disk([], [], []));
    for i := 0 to |saves|
      invariant live.Valid() && fresh(live) && live.State() == Run(Fresh, saves[..i])
    {
      assert saves[..i + 1][..i] == saves[..i];
      match saves[i] {
        case SaveDecision(d, result) => var _ := live.SaveDecision(d, result);
        case SaveOutcome(o, result) => var _ := live.SaveOutcome(o, result);
        case SavePolicy(p, result) => var _ := live.SavePolicy(p, result);
      }
    }
    assert saves[..|saves|] == saves;
    ReopeningChangesNothing(saves);
    reopened := new FileStore(live.disk);
  }
}
