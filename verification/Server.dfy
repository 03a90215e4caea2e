/** The handler of one chat completion, start to end (internal/api/server.go:95-200), on a file store
    and a shadow ledger that nobody else touches meanwhile. */
module Server {
  import opened Domain
  import opened Policies
  import opened Routing
  import opened Requests
  import opened FileStores
  import opened Shadows

  /** The completion write, field by field. */
  method Complete(d: Decision, response: Response, catalog: Catalog, now: int) returns (decision: Decision)
    ensures decision == Completed(d, response, catalog, now)
  {
    decision := d;
    match response {
      case Failed(status, error) =>
        decision := decision.(error := error);
        decision := decision.(completedAt := Some(now));
        if status != 0 { decision := decision.(upstreamStatus := status); }
        return;
      case Streamed(status, _) => decision := decision.(upstreamStatus := status);
      case Unreadable(status) => decision := decision.(upstreamStatus := status);
      case Answered(status, _, _) => decision := decision.(upstreamStatus := status);
    }
    match response {
      case Failed(_, _) =>
      case Streamed(_, interrupted) =>
        if interrupted { decision := decision.(error := "stream interrupted"); }
        decision := decision.(actualCost := decision.estimatedCost);
      case Unreadable(_) => decision := decision.(error := "unable to read upstream response");
      case Answered(_, input, output) =>
        decision := decision.(inputTokens := input, outputTokens := output);
        if input > 0 || output > 0 {
          decision := decision.(actualCost := PricedIn(catalog, decision.final, input, output, 0.0));
          if decision.incumbent in catalog {
            decision := decision.(incumbentCost := ActualCost(catalog[decision.incumbent], input, output));
          }
        } else {
          decision := decision.(actualCost := decision.estimatedCost);
        }
    }
    decision := decision.(completedAt := Some(now));
  }

  /** `outcome` is what the client is sent: nothing if the first write failed. Then no provider is
      asked and no shadow is paid for. Otherwise the log grows by the routed and the completed
      record, as far as the disk takes them. */
  method ChatCompletion(store: FileStore, budget: ShadowBudget, e: Engine, c: Context, p: Policy, r: Request,
                        providers: set<string>, day: string, reply: string -> Reply, respond: string -> Response,
                        first: Append, last: Append, now: int)
    returns (outcome: Option<Decision>, attempted: seq<string>, final: string, launched: seq<string>)
    requires store.Valid() && ValidCatalog(e.catalog)
    modifies store, budget
    ensures store.Valid()
    ensures first != Written ==>
              outcome == None && attempted == [] && launched == [] && budget.spend == old(budget.spend) &&
              store.State() == Step(old(store.State()), SaveDecision(RouteOf(e, c, p, r), first))
    ensures first == Written ==>
              var d := RouteOf(e, c, p, r);
              var answered := Finalized(d, attempted, final);
              var done := Completed(answered, respond(final), e.catalog, now);
              var rs := if final != "" && ShadowsAllowed(answered)
                        then ReservationsOf(answered, p, e.catalog, providers, day, answered.shadowModels) else [];
              && AttemptsOf(attempted, final, PlannedCalls(d, p, e.catalog, providers), reply)
              && outcome == Some(done)
              && store.State() == Step(Step(old(store.State()), SaveDecision(d, Written)), SaveDecision(done, last))
              && budget.spend == Shadows.Run(old(budget.spend), rs) && launched == Launched(old(budget.spend), rs)
  {
    hide RouteOf, AttemptsOf, PlannedCalls, Completed, ReservationsOf;
    outcome, attempted, final, launched := None, [], "", [];
    var decision := Route(e, c, p, r);
    var saved := store.SaveDecision(decision, first);
    if !saved { return; }
    attempted, final := Attempt(decision, p, e.catalog, providers, reply);
    decision := decision.(attempted := attempted);
    if final != "" {
      decision := decision.(final := final);
      if final != decision.selected { decision := decision.(fallbackReason := "selected_model_failed"); }
      launched := budget.LaunchShadows(decision, p, e.catalog, providers, day);
    } else {
      decision := decision.(final := "");
    }
    decision := Complete(decision, respond(final), e.catalog, now);
    var _ := store.SaveDecision(decision, last);
    outcome := Some(decision);
  }
}
