/** The policy registry of internal/routing/registry.go over the file store, and how it is rebuilt
    when the service starts (cmd/router/main.go:58-64). */
module Registries {
  import opened Domain
  import opened Policies
  import opened FileStores

  /** Configured policies, overlaid by persisted ones. */
  function Overlay(configured: seq<Policy>, persisted: map<string, Policy>): map<string, Policy>
  {
    ReplayPolicies(configured) + persisted
  }

  datatype System = System(registry: map<string, Policy>, store: Store)

  datatype Event = Put(p: Policy, result: Append) | Restart

  function Boot(configured: seq<Policy>, disk: Disk): System
  {
    System(Overlay(configured, ReadBack(disk).policies), Store(ReadBack(disk), disk))
  }

  predicate MovesTenant(registry: map<string, Policy>, p: Policy)
  {
    p.id in registry && registry[p.id].tenant != p.tenant
  }

  /** The request reaches the saver. */
  ghost predicate Admitted(catalog: Catalog, s: System, p: Policy)
  {
    ValidPolicy(p, catalog) && !MovesTenant(s.registry, p)
  }

  ghost function StepSystem(catalog: Catalog, configured: seq<Policy>, s: System, e: Event): System
  {
    match e
    case Put(p, result) =>
      if !Admitted(catalog, s, p) then s
      else System(if result == Written then s.registry[p.id := p] else s.registry, Step(s.store, SavePolicy(p, result)))
    case Restart => Boot(configured, s.store.disk)
  }

  ghost function RunSystem(catalog: Catalog, configured: seq<Policy>, events: seq<Event>): System
  {
    if events == [] then Boot(configured, Disk([], [], []))
    else StepSystem(catalog, configured, RunSystem(catalog, configured, events[..|events| - 1]), events[|events| - 1])
  }

  /** Exactly when a put takes effect: the policy is valid, its identifier is new or its tenant's own, and the
      saver took it. It then replaces its predecessor and nothing else; otherwise nothing changes for anyone. */
  lemma PutTakesEffectIff(catalog: Catalog, configured: seq<Policy>, s: System, p: Policy, result: Append)
    ensures var accepted := (forall e :: !Breaks(p, catalog, e)) &&
                            (p.id !in s.registry || s.registry[p.id].tenant == p.tenant) && result == Written;
            var after := StepSystem(catalog, configured, s, Put(p, result));
            && after.registry == (if accepted then s.registry[p.id := p] else s.registry)
            && (accepted ==> after.store.disk == s.store.disk.(policies := s.store.disk.policies + [p]))
            && after.store.disk.decisions == s.store.disk.decisions
            && after.store.disk.outcomes == s.store.disk.outcomes
  {
    hide ValidPolicy;
    ValidIffUnbroken(p, catalog);
  }

  // ---------- restarts ----------

  /** Starting the service again from its configuration and its files gives the same registry. */
  ghost predicate Durable(configured: seq<Policy>, s: System) { Boot(configured, s.store.disk).registry == s.registry }

  lemma OverlayPut(configured: seq<Policy>, persisted: map<string, Policy>, p: Policy)
    ensures Overlay(configured, persisted[p.id := p]) == Overlay(configured, persisted)[p.id := p]
  {
    hide ReplayPolicies;
  }

  lemma PolicyWritten(configured: seq<Policy>, s: Store, p: Policy, result: Append)
    ensures Boot(configured, Step(s, SavePolicy(p, result)).disk).registry ==
            if result == NotWritten then Boot(configured, s.disk).registry
            else Boot(configured, s.disk).registry[p.id := p]
  {
    hide ReplayPolicies, Overlay;
    AppendedPolicy(s.disk.policies, p);
    OverlayPut(configured, ReplayPolicies(s.disk.policies), p);
  }

  /** A `Put` endangers that exactly when it is admitted, the disk takes the line, an error is
      reported all the same, and the policy is new to the registry. */
  lemma PutStaysDurableIff(catalog: Catalog, configured: seq<Policy>, s: System, p: Policy, result: Append)
    requires Durable(configured, s)
    ensures Durable(configured, StepSystem(catalog, configured, s, Put(p, result))) <==>
            !(Admitted(catalog, s, p) && result == WrittenThenError && !(p.id in s.registry && s.registry[p.id] == p))
  {
    hide Admitted, Boot, Step;
    PolicyWritten(configured, s.store, p, result);
    PutBack(s.registry, p.id, p);
  }

  /** After any accepted and rejected puts and any restarts, the registry is the configuration
      overlaid by what is on disk, so one more restart changes nothing. */
  lemma {:induction false} RestartsChangeNothing(catalog: Catalog, configured: seq<Policy>, events: seq<Event>)
    requires forall i :: 0 <= i < |events| && events[i].Put? ==> events[i].result != WrittenThenError
    ensures Durable(configured, RunSystem(catalog, configured, events))
  {
    if events != [] {
      var n := |events| - 1;
      RestartsChangeNothing(catalog, configured, events[..n]);
      if events[n].Put? {
        var before := RunSystem(catalog, configured, events[..n]);
        PutStaysDurableIff(catalog, configured, before, events[n].p, events[n].result);
      }
    }
  }

  // ---------- validity and tenancy, whatever the disk does ----------

  ghost predicate AllValid(catalog: Catalog, ps: map<string, Policy>)
  {
    forall id :: id in ps ==> ps[id].id == id && ValidPolicy(ps[id], catalog)
  }

  /** Every registered policy would survive a restart under the same tenant. */
  ghost predicate Anchored(registry: map<string, Policy>, overlay: map<string, Policy>)
  {
    forall id :: id in registry ==> id in overlay && overlay[id].tenant == registry[id].tenant
  }

  ghost predicate Sound(catalog: Catalog, configured: seq<Policy>, s: System)
  {
    && AllValid(catalog, s.registry) && AllValid(catalog, ReadBack(s.store.disk).policies)
    && Anchored(s.registry, Overlay(configured, ReadBack(s.store.disk).policies))
  }

  lemma {:induction false} ConfiguredAreValid(catalog: Catalog, configured: seq<Policy>)
    requires forall p :: p in configured ==> ValidPolicy(p, catalog)
    ensures AllValid(catalog, ReplayPolicies(configured))
  {
    hide ValidPolicy;
    if configured != [] {
      var n := |configured| - 1;
      assert configured[n] in configured && forall p :: p in configured[..n] ==> p in configured;
      ConfiguredAreValid(catalog, configured[..n]);
    }
  }

  lemma StepStaysSound(catalog: Catalog, configured: seq<Policy>, s: System, e: Event)
    requires Sound(catalog, configured, s) && AllValid(catalog, ReplayPolicies(configured))
    ensures Sound(catalog, configured, StepSystem(catalog, configured, s, e))
    ensures Anchored(s.registry, StepSystem(catalog, configured, s, e).registry)
  {
    hide AllValid, Anchored, Overlay, ReplayPolicies, ReadBack, Admitted;
    match e {
      case Put(p, result) =>
        if Admitted(catalog, s, p) { PutStaysSound(catalog, configured, s, p, result); }
        AnchoredItself(s.registry);
      case Restart => RestartStaysSound(catalog, configured, s);
    }
  }

  lemma AnchoredItself(registry: map<string, Policy>)
    ensures Anchored(registry, registry)
  {}

  lemma RestartStaysSound(catalog: Catalog, configured: seq<Policy>, s: System)
    requires Sound(catalog, configured, s) && AllValid(catalog, ReplayPolicies(configured))
    ensures Sound(catalog, configured, Boot(configured, s.store.disk))
    ensures Anchored(s.registry, Boot(configured, s.store.disk).registry)
  {
    hide ValidPolicy, ReplayPolicies;
  }

  lemma PutStaysSound(catalog: Catalog, configured: seq<Policy>, s: System, p: Policy, result: Append)
    requires Sound(catalog, configured, s) && Admitted(catalog, s, p)
    ensures Sound(catalog, configured, StepSystem(catalog, configured, s, Put(p, result)))
    ensures Anchored(s.registry, StepSystem(catalog, configured, s, Put(p, result)).registry)
  {
    hide ValidPolicy, AllValid, Anchored, Overlay, ReplayPolicies;
    AppendedPolicy(s.store.disk.policies, p);
    OneMorePolicy(catalog, configured, s.registry, ReplayPolicies(s.store.disk.policies), p);
  }

  lemma OneMorePolicy(catalog: Catalog, configured: seq<Policy>, registry: map<string, Policy>,
                      persisted: map<string, Policy>, p: Policy)
    requires AllValid(catalog, registry) && AllValid(catalog, persisted) &&
             Anchored(registry, Overlay(configured, persisted))
    requires ValidPolicy(p, catalog) && !MovesTenant(registry, p)
    ensures AllValid(catalog, registry[p.id := p]) && AllValid(catalog, persisted[p.id := p])
    ensures Anchored(registry, Overlay(configured, persisted[p.id := p]))
    ensures Anchored(registry[p.id := p], Overlay(configured, persisted[p.id := p]))
    ensures Anchored(registry, registry) && Anchored(registry, registry[p.id := p])
  {
    hide ValidPolicy, ReplayPolicies;
  }

  lemma StartIsSound(catalog: Catalog, configured: seq<Policy>)
    requires AllValid(catalog, ReplayPolicies(configured))
    ensures Sound(catalog, configured, Boot(configured, Disk([], [], [])))
  {}

  lemma AnchoredChain(a: map<string, Policy>, b: map<string, Policy>, c: map<string, Policy>)
    requires Anchored(a, b) && Anchored(b, c)
    ensures Anchored(a, c)
  {}

  /** However writes fail and whenever the service restarts: every policy in force is valid, and an
      identifier that is registered stays registered for the same tenant for ever. */
  lemma {:induction false} PoliciesStayValidAndPut(catalog: Catalog, configured: seq<Policy>, events: seq<Event>,
                                                   earlier: nat)
    requires forall p :: p in configured ==> ValidPolicy(p, catalog)
    requires earlier <= |events|
    ensures Sound(catalog, configured, RunSystem(catalog, configured, events))
    ensures Anchored(RunSystem(catalog, configured, events[..earlier]).registry,
                     RunSystem(catalog, configured, events).registry)
  {
    hide ValidPolicy, AllValid, Sound, Boot, StepSystem, ReplayPolicies;
    ConfiguredAreValid(catalog, configured);
    if events == [] {
      StartIsSound(catalog, configured);
      assert events[..earlier] == events;
    } else {
      var n := |events| - 1;
      var last := RunSystem(catalog, configured, events[..n]);
      PoliciesStayValidAndPut(catalog, configured, events[..n], if earlier == |events| then n else earlier);
      StepStaysSound(catalog, configured, last, events[n]);
      if earlier == |events| {
        assert events[..earlier] == events;
      } else {
        assert events[..n][..earlier] == events[..earlier];
        AnchoredChain(RunSystem(catalog, configured, events[..earlier]).registry, last.registry,
                      StepSystem(catalog, configured, last, events[n]).registry);
      }
    }
  }

  // ---------- the program ----------

  lemma {:induction false} ReplayConcat(a: seq<Policy>, b: seq<Policy>)
    ensures ReplayPolicies(a + b) == ReplayPolicies(a) + ReplayPolicies(b)
  {
    if b == [] {
      assert a + b == a;
    } else {
      var n := |b| - 1;
      assert (a + b)[..|a + b| - 1] == a + b[..n];
      ReplayConcat(a, b[..n]);
    }
  }

  class Registry {
    var policies: map<string, Policy>
    const catalog: Catalog
    const saver: FileStore

    ghost function State(): System
      reads this, saver
    {
      System(policies, saver.State())
    }

    constructor (catalog: Catalog, initial: seq<Policy>, saver: FileStore)
      ensures this.catalog == catalog && this.saver == saver && policies == ReplayPolicies(initial)
    {
      var ps: map<string, Policy> := map[];
      for i := 0 to |initial|
        invariant ps == ReplayPolicies(initial[..i])
      {
        assert initial[..i + 1][..i] == initial[..i];
        ps := ps[initial[i].id := initial[i]];
      }
      assert initial[..|initial|] == initial;
      this.policies, this.catalog, this.saver := ps, catalog, saver;
    }

    /** A policy is visible only to its tenant. */
    method Get(id: string, tenant: string) returns (found: Option<Policy>)
      ensures found.Some? <==> id in policies && policies[id].tenant == tenant
      ensures found.Some? ==> found.value == policies[id]
    {
      found := None;
      if id in policies && policies[id].tenant == tenant { found := Some(policies[id]); }
    }

    method Put(p: Policy, result: Append) returns (ok: bool)
      requires saver.Valid()
      modifies this, saver
      ensures saver.Valid()
      ensures State() == StepSystem(catalog, [], old(State()), Event.Put(p, result))
      ensures ok == (Admitted(catalog, old(State()), p) && result == Written)
    {
      var error := Validate(p, catalog);
      if error.Some? { return false; }
      if p.id in policies && policies[p.id].tenant != p.tenant { return false; }
      var saved := saver.SavePolicy(p, result);
      if !saved { return false; }
      policies := policies[p.id := p];
      ok := true;
    }
  }

  /** Starting the service on existing files. */
  method Start(catalog: Catalog, configured: seq<Policy>, disk: Disk) returns (registry: Registry)
    ensures fresh(registry) && fresh(registry.saver) && registry.saver.Valid() && registry.catalog == catalog
    ensures registry.State() == Boot(configured, disk)
  {
    var store := new FileStore(disk);
    var persisted := store.LoadPolicies();
    ReplayConcat(configured, persisted);
    registry := new Registry(catalog, configured + persisted, store);
  }
}
