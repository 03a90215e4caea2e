# Outcome router: a verified model

This project models the decision, audit and training logic of the outcome router in Dafny and proves what
that logic guarantees. `dafny verify dfyconfig.toml` checks all of it.

Amounts, probabilities and model weights are `real`, times are `int`, logs are sequences. The hash, the
square root, the exponential, the logarithm, case folding, the clock, fresh identifiers and everything a provider, a disk
or a database may answer are parameters, so every theorem holds for all of them. Where the program mutates
state there is a class or a loop whose contract ties it to a specification; the theorems are about the
specification. The reference modules say what each result means a second time, about the records, requests
and histories themselves, without the functions of the specification, and prove that both agree.

| module | what it models |
|---|---|
| `Reals`, `FiniteSums`, `Sequences` | arithmetic helpers; sums over sets, which have no order; lists and their reorderings |
| `Domain` | the records of `internal/domain/types.go` |
| `Wilson` | the score interval that Go and Python both compute |
| `Audit`, `AuditLaws`, `AuditReference` | `summarize`: specification, loops, what the summary guarantees, and every number of it as a count or a sum over records |
| `Records`, `Evaluation`, `EvaluationLaws`, `EvaluationReference`, `Agreement` | reading the log, the Python report and what its verdicts decide, and its equality with the Go summary |
| `FileStores`, `PostgresStores`, `TableReference` | the two repositories, restarts, filter pushdown, their equivalence, and what the tables remember of a history of saves |
| `Policies`, `Registries` | policy validation and the registry over restarts |
| `Buckets`, `Selection`, `Routing`, `RoutingLaws`, `RoutingReference` | the decision engine, and exactly when a request is explored, treated, controlled or left alone |
| `Requests`, `Circuits`, `Shadows`, `Server` | attempts, circuit breaker, shadow budget, one chat completion |
| `Protocol`, `ProtocolInvariant`, `ProtocolLaws` | any number of interleaved requests and shadow calls with failing writes: the machine, what every step keeps, what every run guarantees |
| `Origins`, `Failover`, `Billing`, `Budgets`, `Savings`, `ControlArm` | more of what every run guarantees: where its lines come from, which models are tried, what is charged, whose budget is spent, when nothing is saved, who is in the control arm |
| `Training`, `Fitting`, `FittingLaws`, `Snapshots`, `TrainingReference` | joining labels to decisions, gradient descent and its direction, the whole of `train_snapshot`, and the five hundred epochs behind every score |

## Main results

- Whatever interleaves and whatever writes fail: no provider call without a log line that clears it, lines that
  tell the truth, requests that try their plan in order, each line the routing of the request that arrived
  (`ProtocolInvariant.StepKeepsInv`, `ProtocolLaws.LinesAreTruthful`, `Failover.RequestsTryTheirPlan`,
  `Origins.LinesComeFromRouting`).
- In every run usage is billed at the prices of the model that answered, and shadow budgets hold per tenant,
  policy and day (`Billing.UsageIsBilled`, `Budgets.TenantsKeepTheirBudgets`).
- The control arm of any summary of any run holds no trace that was routed away (`ControlArm.RoutedTracesAreNotControls`).
- The Go summary and the Python report are what they claim to count, and agree on comparable logs
  (`AuditReference.ArmsMean`, `EvaluationReference.VerdictsMean`, `Agreement.GoAndPythonAgree`).
- Both repositories give the same answers, across restarts (`PostgresStores.StoresAreInterchangeable`,
  `FileStores.ReopeningChangesNothing`).
- When a request is explored, treated or controlled, how often, and how cheap the choice is with a comparator
  that is not transitive (`RoutingReference.BucketIff`, `Buckets.BelowSize`, `Selection.CheapestIff`).
- Training moves in the right direction, stays bounded and leaves usable scores (`FittingLaws.SuccessesOnlyRaise`,
  `Fitting.IteratesStayBounded`, `TrainingReference.SnapshotMeans`).
- The interval is the score test (`Wilson.IntervalIsScoreTest`); the circuit breaker refuses exactly during a
  recent streak (`Circuits.RefusedIff`).

## Where code and documentation part

The model follows the code. Each point is a theorem that says exactly when the documented behaviour holds.

- The policy documentation (under Hard constraints) has request constraints intersected with the policy's and
  unable to weaken them. In the code a request's privacy level, deadline and cost limit replace the policy's; only regions
  intersect. The policy holds iff the request asks for nothing looser (`RoutingLaws.PolicyHoldsIff`).
- "Cheapest model above the quality floor" (`docs/architecture.md:9`) holds whatever the candidates'
  qualities iff no candidate's cost lies strictly within 1e-12 above the minimum (`Selection.CheapestIff`).
  In general the excess is bounded (`RoutingLaws.TreatmentIsNearlyCheapest`).
- Memory and files of the file store stay in step iff no save reports an error after its line was written,
  which `Close` may do (`FileStores.StepStaysFaithfulIff`); likewise for the registry
  (`Registries.PutStaysDurableIff`).
- Go reads JSON null as 0 and does not clamp; Python skips null and clamps. They read a value alike iff it is
  neither null nor a number outside [0, 1] (`Agreement.ValuesAgreeIff`), and price a decision alike iff its
  recorded cost is not negative or equals the estimate (`Agreement.CostsAgreeIff`).
- Filtering in SQL is exact iff no row's filter columns have drifted from its document in the harmful
  direction (`PostgresStores.PushdownIsExactIff`), and the order of outcome rows is irrelevant iff no trace
  has two outcomes that disagree (`AuditLaws.OutcomeOrderIsIrrelevantIff`).
- A request that stays on the incumbent is billed its counterfactual iff reported usage has a positive
  price or happens to cost the estimate (`Requests.IncumbentBillsItsCounterfactualIff`); with free input
  tokens it is not (`Requests.FreeInputHappens`).
- Non-inferiority at 95% can be reported with no data at all; the report then always carries its warning
  about few labels (`EvaluationLaws.EmptyArmsCanPass`).
- A request routed to another model than its incumbent never counts in the control arm
  (`ControlArm.RoutedTracesAreNotControls`), but being served by another model is not the same: a control
  request whose incumbent fails is answered by a fallback and stays in the arm
  (`ControlArm.FallbacksStayInTheControlArm`). Which requests of the arm these are can be read from their
  fallback reason (`ControlArm.ControlsLeaveTheIncumbentIff`).
- Tenants, policies and days have shadow budgets of their own iff the joined key tells them apart, which it
  does as long as no tenant name contains the separator (`Budgets.LedgersAreSeparate`,
  `Budgets.SeparatorsMixLedgers`).
- A shadow's own record never precedes its call; its parent's does (`ProtocolLaws.ShadowsArePaidFor`). A budget
  reservation stands even if no call follows (`ProtocolLaws.StartedWithinReserved`).

## Model

| member | source | states |
|---|---|---|
| Wilson.IntervalIsScoreTest | internal/store/store.go:267-281 | A rate lies in the reported interval iff the score test n(p−t)² ≤ z²t(1−t) does not reject it |
| Wilson.RootsInUnitInterval | internal/store/store.go:276-277 | For a proportion the unclamped endpoints already lie in [0, 1] |
| Wilson.EstimateInside | python/src/outcome_router/evaluation.py:15-27 | 0 ≤ lower ≤ estimate ≤ upper ≤ 1 |
| Wilson.HonestRoot | internal/store/store.go:274 | A root that is right on non-negative numbers is right where the formula applies it: the radicand is never negative |
| Wilson.MoreDataNests | internal/store/store.go:267-281 | At one observed rate, the interval of a larger sample lies inside that of a smaller one |
| Wilson.MoreSuccessesRaise | internal/store/store.go:267-281 | At one sample size, more successes move both endpoints up |
| Audit.TallyDecisions | internal/store/store.go:162-204 | The first loop computes totals, bucket counts, model rows, trace arms and the index of the set of decisions in scope, whatever their order |
| Audit.TallyOutcomes | internal/store/store.go:210-238 | The second loop adds every label to its model's row and leaves the ballot, one vote per trace |
| Audit.CountArms | internal/store/store.go:239-250 | Sizes and successes of the arms are those of the sets of voting traces, whatever the map order |
| Audit.FillRates | internal/store/store.go:258-263 | Exactly the rows with labels get their success rate |
| Audit.Summarize | internal/store/store.go:146-265 | The whole summary equals the specification on the set of decisions |
| AuditLaws.DecisionOrderIsIrrelevant | internal/store/store.go:138-143 | The program run on two orders of the same decisions, as map iteration may give them, returns equal summaries |
| AuditLaws.TotalsAreConserved | internal/store/store.go:172-198 | Requests and cost over models add up to the totals; bucket counts add up to requests plus shadows |
| AuditLaws.LabelsAreConserved | internal/store/store.go:220-233 | Every outcome naming a decision in scope counts once, for one model, with its value |
| AuditLaws.LastOutcomeWins | internal/store/store.go:210-238 | A trace has a vote iff some outcome resolves to it, and the last such outcome in log order decides |
| AuditLaws.VotesAreProportions | internal/store/store.go:235-237 | If relevant values are in [0, 1], so is every vote |
| AuditLaws.ArmsAreDisjointAndBracketed | internal/store/store.go:241-252 | The arms split the traces that have a vote and a production decision; both intervals bracket their rates |
| AuditLaws.OutcomeOrderIsIrrelevantIff | internal/store/store.go:211-238 | The ballot survives every reordering of the outcomes iff no trace has two disagreeing ones |
| AuditLaws.OutcomeQueryIsExact | internal/store/postgres.go:119-135 | For unanimous outcomes any ordering of the WHERE-filtered rows gives the summary of all outcomes |
| AuditReference.TotalsMean | internal/store/store.go:164-190 | Requests, routed, control and shadow counts are the numbers of decisions in the window of each kind; the three costs are the sums of what production decisions are charged, were estimated at and would have cost on the incumbent |
| AuditReference.SavingsMean | internal/store/store.go:254-257 | Savings are the excess of the counterfactual over the charges, never negative, and the percentage is their share of the counterfactual |
| AuditReference.BucketsMean | internal/store/store.go:172 | A bucket is listed iff the window has a decision in it, with their number |
| AuditReference.RowMeans | internal/store/store.go:191-233 | A model's row counts the production decisions it is credited with, the final model before the selected one, with their charges, and averages the values of the outcomes that name one of them |
| AuditReference.LabelsMean | internal/store/store.go:220-233 | The labels a model is credited with are the outcomes naming one of its decisions, and their values add up |
| AuditReference.BallotMeans | internal/store/store.go:211-238 | A trace votes iff some outcome of the kind speaks for it, by its own trace or else by the decision it names, and the last one decides |
| AuditReference.ArmsMean | internal/store/store.go:199-253 | The treatment arm holds the voting traces with a decision bucketed as treatment or exploration, the control arm the other voting traces with a production decision; sizes, vote totals and the difference of the rates follow |
| Records.LatestById | python/src/outcome_router/io.py:27-33 | The loop keeps the last record of each non-empty identifier |
| Records.ReplayKeepsLast | internal/store/store.go:54-63 | What replay keeps for an identifier is its last record in the log |
| Records.ReplayKeys | internal/store/store.go:54-63 | Replay knows exactly the identifiers in the log |
| Records.ReadersAgreeIff | python/src/outcome_router/io.py:27-33 | Go's replay and Python's fold agree on a log iff every record has an identifier |
| Evaluation.GroupByTrace | python/src/outcome_router/evaluation.py:37-42 | Every trace with a production decision is listed, with each of its production decisions once |
| Evaluation.TraceOutcomes | python/src/outcome_router/evaluation.py:44-55 | The loop leaves one clamped vote per trace, the last one |
| Evaluation.AddTrace | python/src/outcome_router/evaluation.py:68-72 | The inner loop adds a trace's costs to its group and counts its models |
| Evaluation.Reduce | python/src/outcome_router/evaluation.py:57-75 | The outer loop leaves in each group the totals of all traces of its arm, whatever the order of traces |
| Evaluation.GroupsCoverProduction | python/src/outcome_router/evaluation.py:79-80 | The two groups together charge every production decision once |
| Evaluation.Evaluate | python/src/outcome_router/evaluation.py:30-113 | The report equals its set-based specification on the latest decisions |
| EvaluationLaws.PyVotesAreProportions | python/src/outcome_router/training.py:24-29 | Whatever the outcome file holds, every vote is in [0, 1] |
| EvaluationLaws.ConservativeVerdictIsSafe | python/src/outcome_router/evaluation.py:82-93 | Non-inferiority at 95% implies observed non-inferiority, for any input and tolerance |
| EvaluationLaws.EmptyArmsCanPass | python/src/outcome_router/evaluation.py:16-17 | What the 95% verdict is worth when an arm has no labels; the warning about few labels is then present |
| EvaluationReference.PyBallotMeans | python/src/outcome_router/evaluation.py:44-55 | The same for the votes of the report, with clamped values and without null |
| EvaluationReference.ReportMeans | python/src/outcome_router/evaluation.py:79-113 | Costs, savings, model counts and the counterfactual warning are counts and sums over the production decisions |
| EvaluationReference.ReportArmsMean | python/src/outcome_router/evaluation.py:62-83 | The arms of the report hold the voting traces with, and without, a decision bucketed as treatment or exploration; so do both differences and the warning about few labels |
| EvaluationReference.VerdictsMean | python/src/outcome_router/evaluation.py:82-93 | For two arms with votes, the observed verdict compares the vote totals times the other arm's size with the tolerance; the 95% verdict holds iff every rate not rejected for the treatment arm reaches every rate not rejected for the control arm minus the tolerance |
| Agreement.ValuesAgreeIff | internal/domain/types.go:200-213 | Go and Python read a JSON value alike iff it is neither null nor a number outside [0, 1] |
| Agreement.CostsAgreeIff | python/src/outcome_router/evaluation.py:69 | They price a decision alike iff its actual cost is not negative or equals the estimate |
| Agreement.GoAndPythonAgree | python/src/outcome_router/evaluation.py:30-101 | On any single-tenant log in the documented ranges both programs report the same intervals, delta, costs, savings and per-model counts |
| FileStores.FileStore.constructor | internal/store/store.go:38-85 | Opening files rebuilds the index as the fold of the three logs |
| FileStores.FileStore.SaveDecision | internal/store/store.go:87-95 | The line goes to disk before the index, and the index changes only on success |
| FileStores.FileStore.SaveOutcome | internal/store/store.go:97-105 | The same for outcomes |
| FileStores.FileStore.SavePolicy | internal/store/store.go:114-122 | The same for policies |
| FileStores.FileStore.GetDecision | internal/store/store.go:107-112 | A decision is found iff it exists and belongs to the tenant |
| FileStores.FileStore.LoadPolicies | internal/store/store.go:124-133 | Every stored policy, each once, sorted by identifier |
| FileStores.InsertById | internal/store/store.go:131 | One policy is put where the order of identifiers wants it |
| FileStores.OneSortedListing | internal/store/store.go:131 | A policy map has one sorted listing, so the answer does not depend on map order |
| FileStores.FileStore.Summary | internal/store/store.go:135-144 | The summary of what is in memory, for any map order |
| FileStores.StepStaysFaithfulIff | internal/store/store.go:283-295 | A save keeps memory equal to the read-back of the files iff it is not an error reported after a new line was written |
| FileStores.ReopeningChangesNothing | internal/store/store.go:38-144 | After any saves, refused ones included, reopening gives the same memory |
| FileStores.RunAndReopen | internal/store/store.go:38-122 | The store object driven through any saves and one rebuilt from its disk end in the same state |
| PostgresStores.PostgresStore.SaveDecision | internal/store/postgres.go:39-61 | An upsert replaces the document and keeps the first row's tenant, policy and creation time |
| PostgresStores.PostgresStore.SaveOutcome | internal/store/postgres.go:63-77 | An outcome is inserted once; a repeated identifier is ignored, a targetless one refused |
| PostgresStores.PostgresStore.SavePolicy | internal/store/postgres.go:138-151 | The latest document of a policy is kept |
| PostgresStores.PostgresStore.GetDecision | internal/store/postgres.go:79-93 | Lookup by the tenant column and the identifier |
| PostgresStores.PostgresStore.SelectOutcomes | internal/store/postgres.go:119-134 | The rows are the matching outcomes, each once, in some order |
| PostgresStores.PostgresStore.Summary | internal/store/postgres.go:95-136 | The summary specification on the rows the queries return, in whatever order |
| PostgresStores.PushdownIsExactIff | internal/store/postgres.go:97-105 | Filtering rows in SQL first is exact for every query iff no row's columns hide its document |
| PostgresStores.SelectedIsMatching | internal/store/postgres.go:119-122 | The outcome table's filter selects the matching outcomes of the log, each once |
| PostgresStores.StepKeepsCorrespondence | internal/store/postgres.go:39-77 | One disciplined save keeps the tables and the file store's index in correspondence |
| PostgresStores.RunsCorrespond | internal/store/postgres.go:39-151 | So does every disciplined run |
| PostgresStores.StableLogsAreDisciplined | internal/store/postgres.go:49-54 | A log whose versions of a decision share tenant, policy and creation time, with new targeted outcomes, is disciplined |
| PostgresStores.StoresAreInterchangeable | internal/store/postgres.go:79-136 | After the same disciplined saves both repositories answer every lookup alike, and every summary without self-contradicting traces |
| TableReference.RowsRemember | internal/store/postgres.go:48-60 | After any saves the row of a decision has the tenant, policy and time of its first version and the document of its last |
| TableReference.QueriesMean | internal/store/postgres.go:79-118 | A query sees the last version of a decision iff the first version is in its tenant, policy and window; a lookup finds it iff the first version is the tenant's |
| TableReference.QueriesSeeLastVersions | internal/store/postgres.go:97-118 | A query sees nothing but last versions |
| TableReference.OutcomesAreSent | internal/store/postgres.go:63-77 | The outcome table holds exactly the identifiers of saved outcomes with a target |
| TableReference.OutcomesRemember | internal/store/postgres.go:67-77 | An outcome stays as it first came |
| TableReference.OutcomeQueriesMean | internal/store/postgres.go:119-134 | The outcomes a query reads are the stored ones of its tenant, window and kind |
| Selection.Sink | internal/routing/engine.go:113-118 | Element i sinks into the sorted prefix; the rest is untouched |
| Selection.SortInPlace | internal/routing/engine.go:113-118 | The in-place sort computes the insertion sort of its input |
| Selection.SortedPermutes | internal/routing/engine.go:113-118 | Sorting loses and invents no candidate |
| Selection.InsertKeepsOrder | internal/routing/engine.go:113-118 | Insertion creates no adjacent inversion although the comparator is not transitive |
| Selection.SortedHasNoInversion | internal/routing/engine.go:113-118 | Nor does the whole sort |
| Selection.TiesAreNotTransitive | internal/routing/engine.go:114-116 | Three candidates that tie in a chain and yet are ordered |
| Selection.SeparatedIsWeakOrder | internal/routing/engine.go:114-117 | If distinct costs differ by at least 1e-12 the comparator is a strict weak order |
| Selection.HeadIsNearlyCheapest | internal/routing/engine.go:113-120 | The head costs less than the k-th sorted candidate plus k·1e-12 |
| Selection.CheapestComeFirst | internal/routing/engine.go:113-120 | If no cost lies within 1e-12 above the minimum, the head has minimal cost and the best bound of those |
| Selection.SelectionIsExact | internal/routing/engine.go:113-120 | Then every arrangement without inversions, from any listing, has such a head |
| Selection.Misleading | internal/routing/engine.go:114-116 | Otherwise some qualities make the program select a dearer candidate |
| Selection.CheapestIff | internal/routing/engine.go:113-120 | For given costs the selection is always cheapest iff no cost lies strictly within 1e-12 above the minimum |
| Buckets.BelowSize | internal/routing/engine.go:292-296 | A percentage accepts exactly ⌈10⁴·percent⌉ of the million residues |
| Buckets.ExplorationIsRare | internal/domain/types.go:284-286 | A valid exploration share accepts at most 30000 residues |
| Buckets.ArmIndexIsDivision | internal/routing/engine.go:124 | The arm index is the integer part of residue·n / 10⁶ |
| Buckets.ArmIndexInRange | internal/routing/engine.go:124 | It is below n, so the modulo never acts |
| Buckets.ArmsAreEven | internal/routing/engine.go:124 | Every arm gets strictly within one of 10⁶/n residues |
| Policies.Validate | internal/domain/types.go:252-291 | No error iff the policy meets the declarative rules; a reported error names a rule the policy breaks |
| Policies.ValidIffUnbroken | internal/domain/types.go:252-291 | A policy is valid iff it breaks none of the nine rules, each of which an error names |
| Routing.UniqueValues | internal/routing/engine.go:276-286 | The loop keeps first occurrences of the non-empty values |
| Routing.UniqueMembers | internal/routing/engine.go:276-286 | Those are all non-empty values, without repetition |
| Routing.LinearScore | internal/routing/engine.go:157-160 | The score adds weight times feature once per feature, whatever the map order |
| Routing.Predict | internal/routing/engine.go:141-166 | The prediction of one model equals the order-free specification |
| Routing.PredictAll | internal/routing/engine.go:55-66 | Every catalogued model of the policy is predicted once; the feasible list is the eligible ones in order |
| Routing.CollectShadows | internal/routing/engine.go:219-230 | The shadows are the eligible candidates of a policy with a budget |
| Routing.CollectCandidates | internal/routing/engine.go:97-108 | Exactly the eligible candidates with enough samples and quality |
| Routing.Arm | internal/routing/engine.go:124 | The explored index is a valid one |
| Routing.Route | internal/routing/engine.go:26-139 | The imperative routing, in-place sort included, computes the decision specification |
| RoutingLaws.PolicyHoldsIff | internal/routing/engine.go:195-215 | The documented contract, that meeting the effective limits implies meeting the policy's for all models and costs, holds iff the request asks for nothing looser |
| RoutingLaws.WeakeningWitness | internal/routing/engine.go:195-215 | A model and a cost that a looser request lets past the policy |
| RoutingLaws.EligibleModelsAreFeasible | internal/routing/engine.go:168-217 | An eligible model meets every capability, region and health constraint, and the policy's limits if the request tightens them |
| RoutingLaws.PredictionsAreBounded | internal/routing/engine.go:157-164 | 0 ≤ lower bound ≤ success ≤ 1 and 0.005 ≤ uncertainty ≤ 0.5 for any weights |
| RoutingLaws.OnlySafeModelsReplaceTheIncumbent | internal/routing/engine.go:71-138 | A selected non-incumbent is an eligible candidate with enough samples, within tolerance of the incumbent, under a live, undrifted policy |
| RoutingLaws.TreatmentIsNearlyCheapest | internal/routing/engine.go:97-132 | Outside exploration the served candidate costs at most (n−1)·1e-12 more than any qualified one |
| RoutingLaws.TreatmentIsCheapest | docs/architecture.md:9 | When the minimal cost is isolated it is a cheapest qualified candidate, and of those one with the highest lower bound |
| RoutingLaws.ListingIsIrrelevant | internal/routing/engine.go:97-120 | Then two listings of the same candidates are served at the same cost and lower bound |
| RoutingLaws.RelistedQualified | internal/routing/engine.go:98-108 | Reordering the candidates reorders the qualified ones |
| RoutingLaws.RolloutIsMonotone | internal/routing/engine.go:71-138 | Across runs with one trace and health: a request that reaches selection at a canary share reaches it at every larger share and in active mode, with the same decision up to identity, whether or not a candidate qualifies; the control group never moves |
| RoutingLaws.RoutedDecision | internal/routing/engine.go:36-139 | Identity fields are fixed by the call; only treatments and explorations leave the incumbent; the incumbent is priced at its own estimate; shadows are eligible candidates |
| RoutingReference.EligibleIffFeasible | internal/routing/engine.go:168-217 | A model is eligible iff it meets every constraint of the request and the policy, said at once and in any order |
| RoutingReference.ReasonIsViolated | internal/routing/engine.go:168-217 | The reason given for an ineligible model names a constraint it breaks |
| RoutingReference.PredictionMeans | internal/routing/engine.go:141-166 | Every number of a prediction, from the score it starts from: the workflow's, else the overall one, else the prior |
| RoutingReference.BucketIff | internal/routing/engine.go:71-132 | A decision is an exploration iff its trace reaches selection, some candidate qualifies, the risk is low and the exploration draw is below the share; a treatment in the remaining cases with a qualified candidate; a control iff the rollout draw is below the control share |
| RoutingReference.ReasonIff | internal/routing/engine.go:71-138 | Why a request was not optimised, in order of precedence |
| RoutingReference.ServesWhat | internal/routing/engine.go:113-138 | A treatment is served the head of the sorted candidates, an exploration the arm its trace hashes to, every other decision the incumbent, each at that model's estimate |
| RoutingReference.RoutedExplorationIsRare | internal/domain/types.go:284-286 | Under a valid policy at most 30000 of the million draws of a request make it an exploration |
| RoutingReference.RoutedControlIsExact | internal/routing/engine.go:86-91 | Under a live valid policy exactly ⌈10⁴·percent⌉ of the million draws make a request a control |
| RoutingReference.RecordMeans | internal/routing/engine.go:36-80 | The fields a decision copies, its feasible models, and its shadows: the feasible candidates of a policy that pays for them and is neither drifted nor only observing |
| Requests.Attempt | internal/api/server.go:102-135 | The models called are the usable ones in order, up to the first reply that ends the loop, and the final model is the one that succeeded |
| Requests.AttemptsAreSafe | internal/api/server.go:102-151 | No model is called twice, none the decision found infeasible, at most 2 + fallbacks calls; a final model iff the last call succeeded |
| Requests.CompletionKeepsRouting | internal/api/server.go:136-196 | Completing a record changes nothing about who, how randomised and how routed |
| Requests.IncumbentBillsItsCounterfactualIff | internal/api/server.go:136-192 | When a request that stayed on the incumbent is billed exactly its counterfactual |
| Requests.FreeInputIsBilledTheEstimate | internal/api/server.go:185-192 | With free input tokens and only those reported, the bill is the estimate and the counterfactual is zero |
| Requests.FreeInputHappens | internal/store/store.go:184-190 | A valid observing policy and a request for which the bill exceeds the counterfactual |
| Requests.PositivePricesBillUsage | internal/routing/engine.go:247-250 | Positive prices and some usage make a positive bill |
| Requests.NoRoutingNoSavings | internal/store/store.go:184-190 | If every decision is billed its counterfactual, savings are exactly zero |
| Requests.RoutedAndControlAreDisjoint | internal/store/store.go:177-183 | Routed plus control requests never exceed requests |
| Circuits.Client.Available | internal/provider/client.go:49-61 | The answer, and the reset of an expired circuit |
| Circuits.Client.RecordFailure | internal/provider/client.go:150-170 | Counts the failure and opens the circuit at the limit |
| Circuits.Client.RecordSuccess | internal/provider/client.go:172-176 | Forgets the provider's failures |
| Circuits.Client.Do | internal/provider/client.go:63-133 | Which reply each transport result gives and what it does to the circuit |
| Circuits.RepliesMean | internal/provider/client.go:104-140 | Which transport results are successes, and which count against the provider: no response, 408, 409, 429 and server errors |
| Circuits.CircuitReflectsStreak | internal/provider/client.go:49-61 | For every history: the counter is the number of failures since the last success or observed expiry, and the circuit is open iff they reach the limit |
| Circuits.RefusedIff | internal/provider/client.go:49-61 | A provider is refused iff such a streak, of three failures unless configured, exists and its last failure is at most one cool-down old, thirty seconds unless configured |
| Circuits.StreakExists | internal/provider/client.go:150-176 | Every history has a current streak, so the two results above always apply |
| Circuits.QuietProviderIsAvailable | internal/provider/client.go:56-60 | A provider whose failures are all older than the cool-down is available |
| Shadows.ShadowBudget.ReserveBudget | internal/api/server.go:385-394 | Grants iff the day's total stays within the budget, and then adds the cost |
| Shadows.ShadowBudget.LaunchShadows | internal/api/server.go:310-337 | The ledger and the launched models are those of the reservations of this request, in order |
| Shadows.SpendIsWhatWasGranted | internal/api/server.go:385-394 | A day's total equals the sum of the granted reservations |
| Shadows.BudgetIsNeverExceeded | internal/api/server.go:389-391 | Under any interleaving the total stays within the budget |
| Shadows.LaunchedWithinGranted | internal/api/server.go:325-332 | What is launched costs at most what was reserved |
| Shadows.LaunchedIff | internal/api/server.go:320-333 | A model's shadow is launched iff some reservation for it fits when its turn comes and the tenant has its provider |
| Shadows.ReservationsAreListed | internal/api/server.go:320-333 | A finished request asks for every listed shadow but the model that answered, on its tenant's and policy's ledger and budget, at the estimate in its record |
| Shadows.ADayOfShadows | internal/api/server.go:310-394 | launched ≤ reserved ≤ budget over any sequence of reservations |
| Shadows.ShadowsAreSafe | internal/api/server.go:317-323 | A shadow goes to an eligible candidate other than the final model, never for high-risk or regulated requests |
| Server.Complete | internal/api/server.go:136-196 | The field-by-field completion write equals the completed record |
| Server.ChatCompletion | internal/api/server.go:95-200 | If the first write fails nothing is called or spent; otherwise attempts, ledger and both log lines are as specified, whatever the second write does |
| ProtocolInvariant.StepKeepsInv | internal/api/server.go:95-394 | Every step of any request or shadow keeps the invariant of records, loop, ledger and timeline |
| ProtocolInvariant.Reachable | internal/api/server.go:95-394 | It holds in every reachable state of any interleaving with failing writes |
| ProtocolInvariant.HeardKeepsInv | internal/api/server.go:127-134 | So does the reply of a provider: served, on to the next model, or given up |
| ProtocolInvariant.ReserveKeepsInv | internal/api/server.go:325-350 | So does a granted reservation with the shadow it starts |
| ProtocolLaws.CallsFollowRecords | internal/api/server.go:95-135 | Every provider call comes after a log line of its decision that found the model feasible, is the first to that model, and follows only failures worth a retry |
| ProtocolLaws.LinesAreTruthful | internal/api/server.go:126-151 | Every log line of a request lists exactly the models called until then, and its final model is the last one called iff that succeeded |
| ProtocolLaws.RequestsFollowTheLoop | internal/api/server.go:102-135 | However requests interleave, each completed one went through the attempt loop as if alone |
| ProtocolLaws.ServedForGood | internal/api/server.go:128-131 | Once a provider has answered, nobody else is asked for the request |
| ProtocolLaws.ShadowsArePaidFor | internal/api/server.go:320-358 | Every shadow call has a reservation of its own, made before it at the recorded estimate, for a listed feasible shadow of a request whose risk allows it; its own record never precedes it |
| ProtocolLaws.ShadowsAreNotFinal | internal/api/server.go:320-323 | No line of a request names as final model one that was reserved as its shadow |
| ProtocolLaws.BudgetHolds | internal/api/server.go:385-394 | In any interleaving the ledger of a day equals the granted reservations and stays within the budget |
| ProtocolLaws.StartedWithinReserved | internal/api/server.go:325-332 | What is started costs at most what was reserved |
| ProtocolLaws.StartedShadowsWithinBudget | internal/api/server.go:310-394 | So the shadows started in a day cost at most the budget |
| ProtocolLaws.LogIsConsistent | internal/api/server.go:95-200 | All log lines of one decision agree on tenant, trace, policy, risk, snapshot, catalog, bucket, selected model and creation time |
| ProtocolLaws.RoutedPlusControlWithinRequests | internal/store/store.go:177-183 | In any summary of any run, routed plus control requests never exceed requests |
| ProtocolLaws.RunsKeepStoresInterchangeable | internal/store/postgres.go:39-136 | The decision log of any run leaves both repositories with the same answers |
| Origins.StepOriginates | internal/api/server.go:95-394 | Every step keeps each record tied to the action with which its request arrived, or to the request it shadows |
| Origins.LinesComeFromRouting | internal/api/server.go:95-101 | Every line of a request, whenever it was written, states the decision the engine made when that request arrived |
| Origins.ShadowLinesCopyRequests | internal/api/server.go:334-350 | Every line of a shadow copies a request of the run that listed its model as a shadow |
| Origins.LoggedExplorationsWereDrawn | internal/routing/engine.go:121-126 | In any log an explored request has low risk, its draw lies below the exploration share, and it is past the control group |
| Failover.PlannedCallsArePlan | internal/api/server.go:102-126 | The models a request may call are all listed ones that are catalogued, provided for and not found infeasible, once each, the selected one first, then the fallbacks in order, then the incumbent |
| Failover.CallsFollowRetries | internal/provider/client.go:135-148 | In any run, whatever a provider replied before another model was called is a transport or circuit failure, 408, 409, 429 or a server error |
| Failover.RequestsTryTheirPlan | internal/api/server.go:102-135 | In any run a request calls its plan in order, and once completed has called all of it unless some reply was not worth a retry or its body could not be encoded |
| Billing.StepKeepsBilling | internal/api/server.go:95-394 | Every step keeps every record charged as below |
| Billing.UsageIsBilled | internal/api/server.go:181-190 | In any run a line with reported usage names the last model called for it, and is charged that usage at this model's prices, against the same usage at the incumbent's |
| Billing.EstimateIsBilled | internal/api/server.go:164-192 | Any other line is charged the estimate of the model it selected, against that of the incumbent |
| Billing.ShadowUsageIsBilled | internal/api/server.go:361-374 | A shadow's usage is charged at its own model's prices |
| Billing.FailoverIsReported | internal/api/server.go:149-151 | A line says that the selected model failed iff another one answered |
| Billing.LinesShowTheirResponse | internal/api/server.go:136-196 | Every completed line shows the status, usage and error of the response that ended its decision |
| Budgets.LedgersAreSeparate | internal/api/server.go:386 | Two requests share a shadow ledger iff tenant, policy and day are the same, unless a tenant or a day contains the separator |
| Budgets.SeparatorsMixLedgers | internal/api/server.go:386 | With the separator in a tenant's name two tenants can share one |
| Budgets.TenantsKeepTheirBudgets | internal/api/server.go:385-394 | In any interleaving the reservations of a tenant under a policy in a day stay within the budget its requests agree on, whatever others spend |
| Budgets.ReservationsAreNotWithheld | internal/api/server.go:389-393 | A reservation is granted exactly when it fits with what was granted on its ledger so far; otherwise nothing changes |
| ControlArm.RoutedTracesAreNotControls | internal/store/store.go:199-250 | In the summary of any run a trace with a request routed to another model than its incumbent counts in the treatment arm and never in the control arm |
| ControlArm.ControlsLeaveTheIncumbentIff | internal/api/server.go:149-151 | A request of the control arm was served by another model than its incumbent iff its record says that the selected model failed |
| ControlArm.FallbacksStayInTheControlArm | internal/api/server.go:127-151 | A run in which a control request is answered by a fallback and still counts in the control arm |
| Savings.StepKeepsPrices | internal/api/server.go:164-192 | Every step keeps records that stayed on the incumbent billed at their counterfactual |
| Savings.NoRoutingMeansNoSavings | internal/store/store.go:254-257 | With positive prices, a run that never leaves the incumbent reports savings of exactly zero in every summary |
| Training.IndexTraces | python/src/outcome_router/training.py:50-53 | Every latest decision is indexed under its trace |
| Training.LabelTrace | python/src/outcome_router/training.py:66-69 | Exactly the production decisions of the trace get the value |
| Training.JoinExamples | python/src/outcome_router/training.py:45-70 | The join equals its fold specification |
| Training.ExampleIffResolved | python/src/outcome_router/training.py:55-70 | A decision is an example iff some outcome resolves to it |
| Training.LastLabelWins | python/src/outcome_router/training.py:62-69 | Its label is that of the last outcome that resolves to it |
| Training.ExamplesAreLabelledDecisions | python/src/outcome_router/training.py:45-70 | Every example pairs a latest decision with a label in [0, 1] |
| Training.ShadowsNeedTheirOwnLabel | python/src/outcome_router/training.py:62-69 | As the attribution rules document, a shadow becomes an example only through an outcome naming it |
| Training.SplitExamples | python/src/outcome_router/training.py:130-141 | Model lists and workflow lists are exactly the examples of each, in order |
| Training.WorkflowsShareNothing | python/src/outcome_router/training.py:132-141 | Workflow lists are disjoint and cover all examples |
| TrainingReference.ExamplesMean | python/src/outcome_router/training.py:55-70 | The examples are the decisions some outcome labels, the one it names or else the production decisions of its trace, with the clamped value of the last such outcome |
| TrainingReference.ModelExamplesMean | python/src/outcome_router/training.py:135-141 | A model's, and a workflow's, list is the sublist of the examples whose final, else selected, model and whose workflow, else "default", are these |
| TrainingReference.TrainedMeans | python/src/outcome_router/training.py:73-119 | Behind every score are five hundred epochs at rate 0.03 and decay 0.01, each downhill on its list, from the prior log-odds |
| TrainingReference.SnapshotMeans | python/src/outcome_router/training.py:135-152 | A snapshot has a score for exactly the models with examples and the models and workflows with enough of them, each fitted on exactly those |
| Fitting.LinearPart | python/src/outcome_router/training.py:92 | Bias plus the scalar product |
| Fitting.SumGradients | python/src/outcome_router/training.py:88-96 | The nested loops leave every gradient summed over all examples |
| Fitting.RunEpoch | python/src/outcome_router/training.py:87-101 | One pass of the loop is one step of the recurrence |
| Fitting.BrierScore | python/src/outcome_router/training.py:103-108 | The mean squared residual, never negative |
| Fitting.FitLogistic | python/src/outcome_router/training.py:73-119 | The loops compute the score of the recurrence from the prior log-odds; no examples, no score |
| Fitting.ScoreIsBounded | python/src/outcome_router/training.py:73-119 | Every fitted score: a proportion, an uncertainty the router's clamp leaves alone, bias and weights within the bounds of the descent |
| Fitting.SigmoidIsProportion | python/src/outcome_router/training.py:195-200 | Both branches of the sigmoid stay in [0, 1] for any positive exponential |
| Fitting.EpochMovesLittle | python/src/outcome_router/training.py:97-101 | One epoch moves the bias by at most the learning rate and a weight by decay plus one step |
| Fitting.IteratesStayBounded | python/src/outcome_router/training.py:87-101 | After k epochs the bias moved at most k·lr and every weight is at most min(k·lr·X, X/l2) |
| Fitting.OddsArePositive | python/src/outcome_router/training.py:82-84 | The logarithm is applied to a positive number |
| Fitting.RouterAndTrainerAgreeOnFeatures | internal/routing/engine.go:158-160 | On a trained score the router's sum by name equals the trainer's sum by position |
| FittingLaws.EpochMeans | python/src/outcome_router/training.py:87-101 | One epoch moves the bias against the mean excess of guesses over labels, and each weight against the mean excess times its feature plus its decay |
| FittingLaws.BiasFollowsEvidence | python/src/outcome_router/training.py:91-98 | Where no example is overrated an epoch does not lower the bias, and raises it if one is underrated; and the mirror image |
| FittingLaws.SuccessesOnlyRaise | python/src/outcome_router/training.py:87-101 | If every label is 1 the bias never falls below the prior log-odds and, with features that are not negative, no weight below zero, after any number of epochs |
| FittingLaws.FailuresOnlyLower | python/src/outcome_router/training.py:87-101 | If every label is 0, never above |
| FittingLaws.StartMeans | python/src/outcome_router/training.py:82-85 | Training starts from zero weights and the log-odds of one success and one failure more than observed |
| FittingLaws.ScoreMeans | python/src/outcome_router/training.py:103-119 | Every field of a fitted score, from the last fit and the examples |
| FittingLaws.UncertaintyShrinks | python/src/outcome_router/training.py:110-111 | The uncertainty is at its floor or at most 1.5 over the root of the sample size |
| Snapshots.ListExamples | python/src/outcome_router/training.py:70 | The examples are the labelled decisions, each once, in any order |
| Snapshots.FitAll | python/src/outcome_router/training.py:145-150 | One score for every list that is long enough |
| Snapshots.TrainSnapshot | python/src/outcome_router/training.py:122-152 | From the two logs: a score per model fitted on all its examples, and per model and workflow with enough examples fitted on those |
| Snapshots.SnapshotScoresAreBounded | python/src/outcome_router/training.py:73-152 | Every trained score is usable by the router; its bias is within 15 of the prior log-odds and every weight within 15 times the largest feature |
| Registries.Registry.constructor | internal/routing/registry.go:22-32 | Later policies replace earlier ones of the same identifier |
| Registries.Registry.Get | internal/routing/registry.go:34-39 | A policy is found iff it exists and belongs to the tenant |
| Registries.Registry.Put | internal/routing/registry.go:59-75 | Registry and store change as the step says, and success means valid, not moved and written |
| Registries.PutTakesEffectIff | internal/routing/registry.go:59-75 | A put replaces the policy of that identifier, and nothing else, iff it breaks no rule, the identifier is new or its tenant's own, and the saver took it; otherwise nothing changes in the registry |
| Registries.Start | cmd/router/main.go:58-64 | The registry after start is the configuration overlaid by the persisted policies |
| Registries.PutStaysDurableIff | internal/routing/registry.go:68-73 | When a put keeps the registry equal to what a restart would build |
| Registries.RestartsChangeNothing | cmd/router/main.go:58-64 | After any accepted and rejected puts and restarts, one more restart changes nothing |
| Registries.StepStaysSound | internal/routing/registry.go:59-75 | Every event keeps all policies valid and every registered identifier with its tenant |
| Registries.PoliciesStayValidAndPut | internal/routing/registry.go:60-67 | However writes fail and whenever the service restarts, policies in force are valid and never change tenant |

## Left out

- HTTP, headers, CORS, authentication, streaming copies, contexts and timeouts; a provider's reply, and what reading it gives, are parameters.
- JSON encoding and decoding, undecodable or partly written lines, request parsing and token estimates; features and metadata are inputs.
- Hash internals and the generation of identifiers: any hash, and identifiers assumed fresh and not empty.
- Floating-point rounding, NaN and infinities; the values of `exp`, `log` and `sqrt` beyond positivity, and being a root where stated.
- Configuration loading apart from the rule that a catalog entry carries its own key (`internal/config/config.go:118-121`), which is assumed of every catalog.
- `detect_drift`, the Markdown report, the dashboard, the mock provider, the examples: easy or without logic of their own.
- Record fields no modelled decision depends on: latencies, generation times, upstream model names.
- `Registry.List`, and the sort order of the report's model table.
- The version string and the training statistics of a snapshot.
- Python's dictionary order: every order is allowed, so what is proved holds for insertion order too.
- PostgreSQL failures and timestamp precision; tables are maps with upsert and filter semantics.
- Retries within one model: `MaxRetries` is configured but never used by the code.
- Selection.SortInPlace: is the insertion sort Go uses up to twelve elements; for longer lists `SelectionIsExact` covers any arrangement without inversions, but that Go's larger sort leaves none is not shown.
- Selection.Sink: is one round of that insertion sort.
- RoutingLaws.TreatmentIsNearlyCheapest: speaks of that insertion sort too, so it covers the code's selection from at most twelve qualified candidates.
- RoutingLaws.TreatmentIsCheapest: the same; so does `RoutingLaws.ListingIsIrrelevant`.
- Routing.EqualFold: compares characters through any folding function; strings that are not valid Unicode are not modelled.
- Circuits.Client.Do: describes one call without interference; interleaved calls are covered by the theorems on arbitrary histories of events.
- Shadows.ShadowBudget.LaunchShadows: reserves for one request without interference; interleaved reservations are `ProtocolLaws.BudgetHolds` and `ProtocolLaws.ShadowsArePaidFor`.
- Shadows.ShadowsAreSafe: speaks of those uninterrupted reservations too; over interleavings it is `ProtocolLaws.ShadowsArePaidFor` with `ProtocolLaws.ShadowsAreNotFinal`.
- Server.Complete: leaves out the latency fields.
- Server.ChatCompletion: describes one request without interference and starts shadow calls without running them; interleaving and shadow records are in `Protocol`.
- ProtocolLaws.RequestsFollowTheLoop: a request body that cannot be encoded for a model is a step of its own, not a reply.
- ControlArm.RoutedTracesAreNotControls: speaks of the model a request was routed to, because for the model that answered it is false.
- Registries.Registry.Put: always has a saver, as the service does; a registry without one is not modelled.
