/** The per-provider circuit breaker of internal/provider/client.go. Calls to one provider overlap
    freely, so what the client sees is some sequence of probes, failures and successes; the
    theorems hold for every such history. */
module Circuits {
  import opened Domain
  import opened Requests

  datatype ProviderConfig = ProviderConfig(id: string, circuitFailures: int, circuitOpenMs: int)

  function Limit(cfg: ProviderConfig): int { if cfg.circuitFailures <= 0 then 3 else cfg.circuitFailures }

  function Cooldown(cfg: ProviderConfig): int { if cfg.circuitOpenMs <= 0 then 30_000 else cfg.circuitOpenMs }

  datatype Circuit = Circuit(failures: nat, openUntil: Option<int>)

  type Circuits = map<string, Circuit>

  const Closed := Circuit(0, None)

  function CircuitOf(cs: Circuits, id: string): Circuit { if id in cs then cs[id] else Closed }

  datatype Event = Probe(id: string, now: int) | Failure(cfg: ProviderConfig, now: int) | Succeeded(id: string)

  predicate Expired(c: Circuit, now: int) { c.openUntil.Some? && now > c.openUntil.value }

  function Step(cs: Circuits, event: Event): Circuits
  {
    match event
    case Probe(id, now) => if id in cs && Expired(cs[id], now) then cs[id := Closed] else cs
    case Failure(cfg, now) =>
      var c := CircuitOf(cs, cfg.id);
      cs[cfg.id := Circuit(c.failures + 1,
                           if c.failures + 1 >= Limit(cfg) then Some(now + Cooldown(cfg)) else c.openUntil)]
    case Succeeded(id) => cs - {id}
  }

  function Run(history: seq<Event>): Circuits
  {
    if history == [] then map[] else Step(Run(history[..|history| - 1]), history[|history| - 1])
  }

  /** The answer Available gives at a time. */
  function AvailableAt(cs: Circuits, id: string, now: int): bool
  {
    var c := CircuitOf(cs, id);
    c.openUntil == None || Expired(c, now)
  }

  datatype Transport = NoRequest | NoResponse | Status(status: int)

  function ReplyTo(http: Transport): Reply
  {
    match http
    case NoRequest => Unsendable
    case NoResponse => TransportError
    case Status(status) => if 200 <= status < 300 then Success else Upstream(status)
  }

  predicate CountsAsFailure(reply: Reply) { reply == TransportError || (reply.Upstream? && Retryable(reply)) }

  class Client {
    var circuits: Circuits

    constructor ()
      ensures circuits == map[]
    {
      circuits := map[];
    }

    method Available(id: string, now: int) returns (ok: bool)
      modifies this
      ensures circuits == Step(old(circuits), Probe(id, now))
      ensures ok == AvailableAt(old(circuits), id, now)
    {
      if id !in circuits { return true; }
      if circuits[id].openUntil.Some? && now > circuits[id].openUntil.value {
        circuits := circuits[id := circuits[id].(openUntil := None)];
        circuits := circuits[id := circuits[id].(failures := 0)];
      }
      ok := circuits[id].openUntil == None;
    }

    method RecordFailure(cfg: ProviderConfig, now: int)
      modifies this
      ensures circuits == Step(old(circuits), Failure(cfg, now))
    {
      if cfg.id !in circuits { circuits := circuits[cfg.id := Closed]; }
      circuits := circuits[cfg.id := circuits[cfg.id].(failures := circuits[cfg.id].failures + 1)];
      var limit := cfg.circuitFailures;
      if limit <= 0 { limit := 3; }
      if circuits[cfg.id].failures >= limit {
        var duration := cfg.circuitOpenMs;
        if duration <= 0 { duration := 30_000; }
        circuits := circuits[cfg.id := circuits[cfg.id].(openUntil := Some(now + duration))];
      }
    }

    method RecordSuccess(id: string)
      modifies this
      ensures circuits == Step(old(circuits), Succeeded(id))
    {
      circuits := circuits - {id};
    }

    /** Client.Do without interference. Only an error that was worth a retry and came from the provider
        counts against it. */
    method Do(cfg: ProviderConfig, now: int, later: int, http: Transport) returns (reply: Reply)
      modifies this
      ensures reply == CircuitOpen <==> !AvailableAt(old(circuits), cfg.id, now)
      ensures reply == CircuitOpen || reply == ReplyTo(http)
      ensures var probed := Step(old(circuits), Probe(cfg.id, now));
              circuits == if reply == Success then Step(probed, Succeeded(cfg.id))
                          else if CountsAsFailure(reply) then Step(probed, Failure(cfg, later))
                          else probed
    {
      var ok := Available(cfg.id, now);
      if !ok { return CircuitOpen; }
      match http {
        case NoRequest => reply := Unsendable;
        case NoResponse =>
          RecordFailure(cfg, later);
          reply := TransportError;
        case Status(status) =>
          if 200 <= status < 300 {
            RecordSuccess(cfg.id);
            return Success;
          }
          if RetryableStatus(status) { RecordFailure(cfg, later); }
          reply := Upstream(status);
      }
    }
  }

  /** What one call tells about its provider: any status of the two hundreds is a success, and no response,
      a timeout, a conflict, a rate limit or a server error is a failure. Nothing else is held against it. */
  lemma RepliesMean(http: Transport)
    ensures ReplyTo(http) == Success <==> http.Status? && 200 <= http.status <= 299
    ensures CountsAsFailure(ReplyTo(http)) <==>
            || http == NoResponse
            || (http.Status? && (http.status in {408, 409, 429} || http.status >= 500))
    ensures ReplyTo(http).Upstream? ==> http == Status(ReplyTo(http).status)
  {}

  // ---------- what a history means for one provider ----------

  /** All tenants configure the provider alike. */
  ghost predicate Uniform(history: seq<Event>, cfg: ProviderConfig)
  {
    forall e :: e in history && e.Failure? && e.cfg.id == cfg.id ==> e.cfg == cfg
  }

  /** The failure streak restarts here: a success, or a probe that finds the cool-down over. */
  ghost predicate Resets(history: seq<Event>, i: nat, id: string)
    requires i < |history|
  {
    match history[i]
    case Succeeded(other) => other == id
    case Probe(other, now) => other == id && Expired(CircuitOf(Run(history[..i]), id), now)
    case Failure(_, _) => false
  }

  predicate Fails(e: Event, id: string) { e.Failure? && e.cfg.id == id }

  function FailureCount(events: seq<Event>, id: string): nat
  {
    if events == [] then 0 else
      FailureCount(events[..|events| - 1], id) + if Fails(events[|events| - 1], id) then 1 else 0
  }

  /** Time of the last failure among these events, if any. */
  function LastFailure(events: seq<Event>, id: string): Option<int>
  {
    if events == [] then None
    else if Fails(events[|events| - 1], id) then Some(events[|events| - 1].now)
    else LastFailure(events[..|events| - 1], id)
  }

  /** `since` is where the current streak began. */
  ghost predicate StreakBegan(history: seq<Event>, since: nat, id: string)
  {
    && since <= |history| && (since > 0 ==> Resets(history, since - 1, id))
    && forall i :: since <= i < |history| ==> !Resets(history, i, id)
  }

  /** The circuit counts exactly the failures of the streak. It is open iff they have reached the
      limit, and then until one cool-down after the last of them. */
  ghost predicate Reflects(c: Circuit, streak: seq<Event>, cfg: ProviderConfig)
  {
    && c.failures == FailureCount(streak, cfg.id)
    && c.openUntil == if FailureCount(streak, cfg.id) >= Limit(cfg) then CoolDownEnd(streak, cfg) else None
  }

  function CoolDownEnd(streak: seq<Event>, cfg: ProviderConfig): Option<int>
  {
    match LastFailure(streak, cfg.id)
    case Some(t) => Some(t + Cooldown(cfg))
    case None => None
  }

  lemma StepReflects(cs: Circuits, streak: seq<Event>, event: Event, cfg: ProviderConfig)
    requires Reflects(CircuitOf(cs, cfg.id), streak, cfg)
    requires event.Failure? && event.cfg.id == cfg.id ==> event.cfg == cfg
    requires event != Succeeded(cfg.id)
    requires event.Probe? && event.id == cfg.id ==> !Expired(CircuitOf(cs, cfg.id), event.now)
    ensures Reflects(CircuitOf(Step(cs, event), cfg.id), streak + [event], cfg)
  {
    assert (streak + [event])[..|streak|] == streak;
  }

  lemma {:induction false} CircuitReflectsStreak(history: seq<Event>, since: nat, cfg: ProviderConfig)
    requires Uniform(history, cfg) && StreakBegan(history, since, cfg.id)
    ensures Reflects(CircuitOf(Run(history), cfg.id), history[since..], cfg)
    decreases |history|
  {
    var n := |history| - 1;
    if since == |history| {
      assert history[since..] == [];
      if since > 0 { ClosedAfterReset(history, cfg.id); }
    } else {
      hide Reflects, Step, Resets, StreakBegan, CircuitOf;
      var before := history[..n];
      ShorterStreak(history, since, cfg);
      CircuitReflectsStreak(before, since, cfg);
      assert history[since..] == before[since..] + [history[n]];
      StepReflects(Run(before), before[since..], history[n], cfg);
    }
  }

  lemma ClosedAfterReset(history: seq<Event>, id: string)
    requires history != [] && Resets(history, |history| - 1, id)
    ensures CircuitOf(Run(history), id) == Closed
  {}

  /** A streak that includes the last event began just as early without it, and that event did not end it. */
  lemma ShorterStreak(history: seq<Event>, since: nat, cfg: ProviderConfig)
    requires Uniform(history, cfg) && StreakBegan(history, since, cfg.id) && since < |history|
    ensures var n := |history| - 1; var before := history[..n];
            && Uniform(before, cfg) && StreakBegan(before, since, cfg.id) && history[n] != Succeeded(cfg.id)
            && (history[n].Failure? && history[n].cfg.id == cfg.id ==> history[n].cfg == cfg)
            && (history[n].Probe? && history[n].id == cfg.id ==>
                  !Expired(CircuitOf(Run(before), cfg.id), history[n].now))
  {
    hide Run, CircuitOf, Expired;
    var n := |history| - 1;
    assert history[n] in history && forall e :: e in history[..n] ==> e in history;
    assert !Resets(history, n, cfg.id);
    forall i | 0 <= i < n
      ensures Resets(history[..n], i, cfg.id) == Resets(history, i, cfg.id)
    {
      assert history[..n][..i] == history[..i];
    }
  }

  lemma {:induction false} FailureLast(streak: seq<Event>, id: string)
    ensures FailureCount(streak, id) > 0 <==> LastFailure(streak, id).Some?
  {
    if streak != [] { FailureLast(streak[..|streak| - 1], id); }
  }

  /** Hence a provider is refused exactly while a streak of failures that is long enough, three unless
      configured, is younger than the cool-down, half a minute unless configured, the last instant included. */
  lemma {:induction false} RefusedIff(history: seq<Event>, since: nat, cfg: ProviderConfig, now: int)
    requires Uniform(history, cfg) && StreakBegan(history, since, cfg.id)
    ensures !AvailableAt(Run(history), cfg.id, now) <==>
            && FailureCount(history[since..], cfg.id) >= (if cfg.circuitFailures > 0 then cfg.circuitFailures else 3)
            && LastFailure(history[since..], cfg.id).Some?
            && now <= LastFailure(history[since..], cfg.id).value +
                      (if cfg.circuitOpenMs > 0 then cfg.circuitOpenMs else 30_000)
  {
    CircuitReflectsStreak(history, since, cfg);
    FailureLast(history[since..], cfg.id);
  }

  /** Every history has such a beginning. */
  lemma {:induction false} StreakExists(history: seq<Event>, id: string) returns (since: nat)
    ensures StreakBegan(history, since, id)
  {
    since := |history|;
    while since > 0 && !Resets(history, since - 1, id)
      invariant since <= |history| && forall i :: since <= i < |history| ==> !Resets(history, i, id)
    {
      since := since - 1;
    }
  }

  lemma {:induction false} LastFailureHappened(events: seq<Event>, id: string)
    ensures LastFailure(events, id).Some? ==>
              exists e :: e in events && Fails(e, id) && e.now == LastFailure(events, id).value
  {
    if events != [] && !Fails(events[|events| - 1], id) {
      LastFailureHappened(events[..|events| - 1], id);
      assert forall e :: e in events[..|events| - 1] ==> e in events;
    }
  }

  /** A quiet provider comes back: if every failure on record is older than the cool-down, it is
      available, whatever else happened. */
  lemma QuietProviderIsAvailable(history: seq<Event>, cfg: ProviderConfig, now: int)
    requires Uniform(history, cfg)
    requires forall e :: e in history && Fails(e, cfg.id) ==> e.now + Cooldown(cfg) < now
    ensures AvailableAt(Run(history), cfg.id, now)
  {
    var since := StreakExists(history, cfg.id);
    RefusedIff(history, since, cfg, now);
    LastFailureHappened(history[since..], cfg.id);
    assert forall e :: e in history[since..] ==> e in history;
  }
}
