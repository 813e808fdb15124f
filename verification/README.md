# SQLVerity, verified in Dafny

SQLVerity lets people and language models query governed databases. What must not go wrong sits in a
few state machines of its catalog, in one query rewrite and in some text, paging and cancellation
algorithms. This project models them and proves what they are for.

| module | models |
|---|---|
| `Sql`, `Materialize` | a SQL subset with a denotational evaluator, and the rewrite that puts an authorized base query in a virtual table's place |
| `QueryState`, `QueryApproval` | the query life cycle, its approvals, and clients whose read and write are separate steps |
| `IsoTime`, `Validity` | stored timestamps compared as text, months, and periods of validity that must not overlap |
| `Sums`, `BudgetLedger`, `FinOps` | the LLM budget ledger, whose balance is summed from two tables every time, and the cost service above it |
| `Jobs`, `Inference` | durable jobs with leases and continuations, and semantic inference in batches along a cursor |
| `Quota` | rate windows, concurrency leases, all-or-nothing renewal and acquisition |
| `Knowledge`, `ReportOrder`, `Concepts`, `Analytics` | evidence and resolutions, the order of reports, business concepts and their terms, metrics and rules and what they depend on |
| `TermMatch`, `BoundedFetch`, `Requests` | padded-substring term matching, bounded row fetching, obsolete-response rejection in the console |
| `Text`, `Wrappers` | shared character classes and result types |

How the models are built:

- A table is a map or a sequence of rows. Each catalog method is a function from tables to tables or an
  error, and a method of a class that changes its fields in place is proved to do exactly what that
  function says; an error leaves the tables as they were. The theorems are about the functions, over
  every run of them.
- Clocks, generated ids, digests, search normalization and case folding are parameters. Money and
  confidence are exact reals. Instants of jobs, quotas and resolutions are integers (microseconds in UTC);
  those of the ledger are civil times with the text the catalog stores.
- The in-process lock makes each catalog method one step of one process. Where the code reads a row and
  writes it in separate transactions, replicas that share PostgreSQL can come in between, so reads and
  writes are separate steps there: approvals (`QueryApproval.Step`), resolutions (`Knowledge.Advance`),
  metrics and rules, whose checks are separate too (`Analytics.Step`), and the scopes of one request
  (`Quota.RequestQuotas.AcquireAll`). The ledger, jobs and quota calls lock or compare inside their one
  transaction. Checking a concept, reading it and writing it are modelled both as one step
  (`Concepts.Step`) and as three (`Concepts.Advance`).

What the code does not promise, with the input that shows it and the exact condition under which it does:

- The rewrite changes the meaning of a query that names a column with schema and table
  (`SchemaQualifiedColumnIsLost`), gives the virtual table a column list (`ColumnAliasIsLost`), defines a
  WITH name the base query reads (`OuterWithCaptures`), or defines a WITH of the virtual table's own name
  (`VirtualNameIsHidden`). `QueryOpen` excludes these four.
- With separate reads and writes a fresh approval can be reopened (`FreshApprovalCanBeReopened`), exactly
  when the client read an approval of another policy revision (`FreshApprovalIsUndoneExactly`). Approval
  integrity survives that.
- Corrections whose term check and write are separate calls can leave two confirmed concepts with a common
  term (`SeparateCheckCanShareTerms`). Terms are disjoint in every state of a run exactly when every
  accepted correction finds its terms free when it writes (`TermsStayDisjointExactly`).
- Across replicas automation that read a key before it was confirmed can take the confirmation off again,
  and two corrections of one version are both accepted. A key keeps its authority in every interleaving
  exactly when no such write is pending (`Knowledge.AuthorityNeverFalls`, `WhatUnseats`); a version grows
  exactly when the clock is past it or the row read is as new (`VersionGrowsExactly`); and a metric or rule
  loses its ground exactly when a write unseats what it names (`Analytics.StepKeepsGroundedExactly`).
  Provenance survives every interleaving, and while every write replaces the row it read, several processes
  do what one does (`Knowledge.InTimeIsOneProcess`): versions grow and dependencies stay confirmed, in one
  process without any further condition (`VersionsGrowInOneProcess`, `OneProcessStaysGrounded`).
- The order of automation's reports about a key can decide its status: exactly when there is an imported
  report, no two imported ones contradict, and two inferred ones do (`ReportOrder.OrderMatters`).
- An open-ended price or budget is not compared with one that starts at or after the 9999 sentinel.
- Usage events are stored with the offset they were created with, reservations and period bounds in UTC.
  On SQLite, where texts are compared, an event near a month boundary can be charged to another month than
  its reservation's. Nothing is lost or counted twice.
- Summary and balance differ on negative costs, on texts that show another month, and on cost texts that
  are empty or no number (`FinOps.CostTextsAgreeExactly`).
- A job without a data source is not deduplicated: the unique index never matches a null, although the
  query after a conflict looks for one.
- Reclaiming an expired lease can raise the attempt count past the limit. Over every run a row stays within
  its limit exactly when no claim reclaims it at its limit (`Jobs.WithinLimitExactly`).
- A chain of inference jobs skips copies of a target exactly when two of them stand on either side of the
  end of a batch (`Inference.ChainIsCompleteExactly`).

## Model

| member | source | states |
|---|---|---|
| `Materialize.AcceptedExactly` | packages/authorized_query/sqlverity_authorized_query/service.py:155-207 | an outer query is accepted if and only if, at any depth, it holds no placeholder, no WHERE or HAVING and no aggregate or GROUP BY unless allowed, and exactly one reference to the virtual table, and the values supplied are for exactly the declared parameters |
| `Materialize.PreparedQueryIsBound` | packages/authorized_query/sqlverity_authorized_query/service.py:155-207 | an accepted query holds exactly the placeholders that occur in the base query, all bound for a registered definition; filters and aggregates that are disabled occur in it only if they do in the base query; so does the virtual table |
| `Materialize.MaterializePreservesMeaning` | packages/authorized_query/sqlverity_authorized_query/service.py:155-207 | for every database, binding and outer query within `QueryOpen`: evaluating the prepared query gives what the outer query gives over a database whose virtual table holds the base query's result |
| `Materialize.QueryRewrites` | packages/authorized_query/sqlverity_authorized_query/service.py:191-200 | the same for every subquery, inside any surrounding rows and WITH names |
| `Materialize.QueryNests` | packages/authorized_query/sqlverity_authorized_query/service.py:191-200 | a query that succeeds alone gives the same result nested under more outer rows and WITH names it does not read |
| `Materialize.MatchesExactly` | packages/authorized_query/sqlverity_authorized_query/service.py:377-386 | the matching rule identifies exactly the references to the virtual table |
| `Materialize.SplitDotted` | packages/authorized_query/sqlverity_authorized_query/service.py:377-386 | comparing dotted names compares their parts, as the definition's own parts have no dot |
| `Materialize.SchemaQualifiedColumnIsLost` | packages/authorized_query/sqlverity_authorized_query/service.py:195-200 | a column qualified by schema and table fails after the rewrite though it worked on the virtual table |
| `Materialize.ColumnAliasIsLost` | packages/authorized_query/sqlverity_authorized_query/service.py:194-200 | a column list on the virtual reference is dropped |
| `Materialize.OuterWithCaptures` | packages/authorized_query/sqlverity_authorized_query/service.py:191-200 | a pick under an outer WITH, over a base query that reads one table, keeps its meaning if and only if the base query reads no name the WITH defines |
| `Materialize.VirtualNameIsHidden` | packages/authorized_query/sqlverity_authorized_query/service.py:179-200 | a reference to a WITH name counts as one to the virtual table of that name and is replaced by the base query; the meaning is kept if and only if the names differ |
| `Materialize.SimpleQueryIsOpen` | packages/authorized_query/sqlverity_authorized_query/service.py:191-200 | every query without WITH, column list and column qualified by schema keeps its meaning: it is within `QueryOpen` |
| `QueryState.NoWayBackToExecuting` | packages/domain/sqlverity_domain/query_state.py:20-69 | after execution began no chain of allowed moves leads to it again, and none is longer than three moves |
| `QueryState.MovesExactly` | packages/domain/sqlverity_domain/query_state.py:20-69 | which states each state can be reached from |
| `QueryState.WayToExecuting` | packages/domain/sqlverity_domain/query_state.py:20-69 | every way of a new request to execution leads through generation and validation, and through preview and approval in its last two steps |
| `QueryApproval.ApprovalIntegrity` | packages/catalog/sqlverity_catalog/repository.py:861-992 | with reads and writes of any number of clients interleaved, a request that enters execution carries an approval of its current explain revision, of that EXPLAIN's digests, and of the policy in force |
| `QueryApproval.RunKeeps` | packages/catalog/sqlverity_catalog/repository.py:861-1060 | in every reachable state rows, recorded explains and rows read earlier fit together, and no event loses a row or an explain or lowers a revision |
| `QueryApproval.ExecutesAtMostOnce` | packages/domain/sqlverity_domain/query_state.py:52-69 | a request enters execution at most once, interleaved or not |
| `QueryApproval.ExecutionKeepsApproval` | packages/catalog/sqlverity_catalog/repository.py:861-992 | whatever clients do after a request entered execution, its row keeps everything but its state, and its approval is still that of the EXPLAIN recorded |
| `QueryApproval.ApprovalRule` | packages/catalog/sqlverity_catalog/repository.py:883-947 | when an approval is accepted, when it is refused for the policy alone, and that it stores the stripped approver, the digests and both revisions of the call and nothing else |
| `QueryApproval.PreviewRule` | packages/catalog/sqlverity_catalog/repository.py:911-947 | when a request is put up for preview, and that any approval is gone then |
| `QueryApproval.MoveRule` | packages/catalog/sqlverity_catalog/repository.py:861-992 | when any other move is accepted, when one to execution is refused for the policy alone, and that a move stores the new state and leaves the approval as it is |
| `QueryApproval.ExplainRule` | packages/catalog/sqlverity_catalog/repository.py:995-1060 | when an EXPLAIN is recorded, under which revision, and that the approval columns stay |
| `QueryApproval.AtomicIsReadThenWrite` | packages/catalog/sqlverity_catalog/repository.py:93-105 | one locked transition is a read followed at once by its write |
| `QueryApproval.FreshApprovalCanBeReopened` | packages/catalog/sqlverity_catalog/repository.py:928-947 | an interleaving after which an approval of the policy in force is undone |
| `QueryApproval.FreshApprovalIsUndoneExactly` | packages/catalog/sqlverity_catalog/repository.py:928-992 | an interleaved reopening undoes an approval of the policy in force if and only if its client read an approval of another policy revision at the same explain revision and its call names no approver, digest or other explain revision |
| `QueryApproval.OnlyStaleApprovalReopens` | packages/catalog/sqlverity_catalog/repository.py:928-947 | an atomic reopening call of any arguments succeeds if and only if a newer policy revision exists and the call names no other explain revision, no approver and no digest; it erases the approval |
| `QueryApproval.BoundedRun` | packages/domain/sqlverity_domain/query_state.py:20-69 | from READY_FOR_PREVIEW on, k policy revisions allow at most 2k + 5 transitions |
| `QueryApproval.BoundIsReached` | packages/domain/sqlverity_domain/query_state.py:20-69 | some run reaches that bound, for every k |
| `QueryApproval.Repository.TransitionQueryRequest` | packages/catalog/sqlverity_catalog/repository.py:861-992 | the stored tables change as the atomic transition says, or not at all on each error |
| `QueryApproval.Repository.RecordQueryExplain` | packages/catalog/sqlverity_catalog/repository.py:995-1060 | the explain is recorded under the next revision, or nothing changes |
| `QueryApproval.Repository.UpsertExecutionCostPolicy` | packages/catalog/sqlverity_catalog/repository.py:3089-3148 | the source's policy revision grows by one |
| `QueryApproval.Repository.CreateQueryRequest` | packages/catalog/sqlverity_catalog/repository.py:735-760 | a new request is stored unapproved at explain revision 0 |
| `IsoTime.TextOrderIsTimeOrder` | packages/catalog/sqlverity_catalog/repository.py:4261-4264 | comparing two UTC texts character by character compares the instants, though zero microseconds are left out (section 5.1 of RFC 3339 promises it only for equal lengths) |
| `IsoTime.TextShows` | packages/catalog/sqlverity_catalog/repository.py:4257-4264 | the text of an instant shows each field at its place, so the instant can be read back |
| `IsoTime.MonthContains` | packages/domain/sqlverity_domain/budget.py:52-61 | the bounds of a month hold exactly its instants |
| `IsoTime.StoredTextMonth` | packages/catalog/sqlverity_catalog/repository.py:2388-2410 | a text with any offset falls between the bounds of the month its wall clock shows |
| `Validity.BlocksExactly` | packages/catalog/sqlverity_catalog/repository.py:2890-2913 | the insert check finds exactly the overlaps, except of an open end with a start at the sentinel or later |
| `Validity.InsertKeepsDisjoint` | packages/catalog/sqlverity_catalog/repository.py:2997-3022 | stored periods stay pairwise disjoint if and only if that exception does not occur |
| `Validity.EffectiveIsUnique` | packages/catalog/sqlverity_catalog/repository.py:3069-3086 | the lookup returns an entry if and only if it is stored and covers the instant |
| `Validity.EffectiveStartsLast` | packages/catalog/sqlverity_catalog/repository.py:3069-3086 | whatever is stored, the lookup finds an entry if one covers the instant, and none that covers it starts later |
| `Validity.GovernsForGood` | packages/catalog/sqlverity_catalog/repository.py:2997-3022 | an entry that covers a whole month alone keeps doing so whatever is inserted |
| `BudgetLedger.RunKeeps` | packages/catalog/sqlverity_catalog/repository.py:2423-2632 | in every reachable ledger, ids are unique, states carry the costs they should, and each settlement names its own stored usage event |
| `BudgetLedger.ExactlyOnce` | packages/catalog/sqlverity_catalog/repository.py:2381-2420 | after any run, spent plus reserved of any month is the sum of one share per reservation plus the usage that settles none |
| `BudgetLedger.ShareIsOnce` | packages/catalog/sqlverity_catalog/repository.py:2381-2420 | that share is the amount while live, the actual cost once settled, nothing once released |
| `BudgetLedger.ReserveMoves` | packages/catalog/sqlverity_catalog/repository.py:2423-2470 | when a reservation is taken; it is stored without a usage event and adds its amount to the reserved total of its account and month and to no other total |
| `BudgetLedger.StartMoves` | packages/catalog/sqlverity_catalog/repository.py:2494-2502 | only a reserved row goes in flight, and no total of any account and month moves |
| `BudgetLedger.UncertainMoves` | packages/catalog/sqlverity_catalog/repository.py:2505-2511 | the amount of a row that becomes uncertain stays reserved and counts as uncertain too |
| `BudgetLedger.ReleaseMoves` | packages/catalog/sqlverity_catalog/repository.py:2514-2526 | a released row gives its amount back and costs nothing; any other row stays |
| `BudgetLedger.ReconcileMoves` | packages/catalog/sqlverity_catalog/repository.py:2574-2632 | when a reconciliation is accepted, down to the hour without a change; the row takes the cost named, reserved falls by its amount, spent and reconciled grow by the cost in its account and month, and every other total stays |
| `BudgetLedger.SettleMoves` | packages/catalog/sqlverity_catalog/repository.py:2529-2572 | when a settlement of an open row is accepted; the row takes the event's cost, reserved falls by its amount, spent grows by the cost in the month the event's text shows, and every other total stays |
| `BudgetLedger.SettleRefused` | packages/catalog/sqlverity_catalog/repository.py:2529-2572 | a row that is not open takes no settlement; a replay is answered again |
| `BudgetLedger.UsageMoves` | packages/catalog/sqlverity_catalog/repository.py:2360-2365 | other usage is charged once, at its cost, to the month its text shows |
| `BudgetLedger.BudgetRule` | packages/catalog/sqlverity_catalog/repository.py:2997-3022 | a budget is stored if and only if it is sound and overlaps no stored one, except past the sentinel |
| `BudgetLedger.SettleMovesWithinMonth` | packages/catalog/sqlverity_catalog/repository.py:2529-2572 | settling takes the amount off the reserved total, and adds the cost to the spent total of the same month if and only if the event's text shows that month or the cost is zero |
| `BudgetLedger.SettleOnce` | packages/catalog/sqlverity_catalog/repository.py:2529-2572 | a replay changes nothing and any other settlement is refused |
| `BudgetLedger.BudgetSafety` | packages/catalog/sqlverity_catalog/repository.py:2423-2470 | with one budget in force for a month, spent plus reserved never exceeds it by more than settled overruns plus usage outside reservations, after any run |
| `BudgetLedger.NothingReservedIsWithin` | packages/catalog/sqlverity_catalog/repository.py:2381-2420 | a month without reservations meets the bound to start with |
| `BudgetLedger.Repository.LlmBudgetBalance` | packages/catalog/sqlverity_catalog/repository.py:2381-2420 | one pass over the two tables computes the four sums |
| `BudgetLedger.Repository.ReserveLlmBudget` | packages/catalog/sqlverity_catalog/repository.py:2423-2470 | reserves within the budget in force or refuses and changes nothing |
| `BudgetLedger.Repository.StartLlmBudgetReservation` | packages/catalog/sqlverity_catalog/repository.py:2494-2502 | only a reserved row becomes in flight |
| `BudgetLedger.Repository.MarkLlmBudgetUncertain` | packages/catalog/sqlverity_catalog/repository.py:2505-2511 | a reserved or in-flight row becomes uncertain, others stay |
| `BudgetLedger.Repository.ReleaseUndispatchedLlmBudget` | packages/catalog/sqlverity_catalog/repository.py:2514-2526 | an undispatched row is released at cost zero, an unknown one is an error, others stay |
| `BudgetLedger.Repository.SettleLlmBudgetReservation` | packages/catalog/sqlverity_catalog/repository.py:2529-2572 | the reservation and the usage event change together or not at all |
| `BudgetLedger.Repository.ReconcileLlmBudgetReservation` | packages/catalog/sqlverity_catalog/repository.py:2574-2632 | an operator settles an old uncertain row without a usage event |
| `BudgetLedger.Repository.RecordLlmUsage` | packages/catalog/sqlverity_catalog/repository.py:2360-2365 | usage outside reservations is appended once |
| `BudgetLedger.Repository.CreateTenantBudget` | packages/catalog/sqlverity_catalog/repository.py:2997-3054 | a budget is stored unless it overlaps one of the account |
| `FinOps.AuthorizeMeansReservable` | packages/cost_engine/sqlverity_cost_engine/service.py:188-237 | an estimate is allowed exactly when reserving it then is not refused for lack of budget |
| `FinOps.RemainingIsReservable` | packages/cost_engine/sqlverity_cost_engine/service.py:188-237 | what an allowed estimate leaves is what can still be reserved beside it, and a refused one leaves nothing |
| `FinOps.BreakdownGroups` | packages/cost_engine/sqlverity_cost_engine/service.py:270-305 | one line per key, each priced event on its key's line, each column of a line the sum over its events |
| `FinOps.BreakdownSums` | packages/cost_engine/sqlverity_cost_engine/service.py:270-305 | the lines' costs and counts add up to the priced events |
| `FinOps.PricedExactly` | packages/cost_engine/sqlverity_cost_engine/service.py:274-340 | which events of the month are priced, at which cost, and which are counted as unpriced |
| `FinOps.CountsAddUp` | packages/cost_engine/sqlverity_cost_engine/service.py:274-283 | every event of the month in no currency or the account's is counted once, as priced or as unpriced |
| `FinOps.BreakdownAgreesWithBalance` | packages/cost_engine/sqlverity_cost_engine/service.py:256-327 | breakdown plus reconciled cost misses the balance's total by exactly the events' differences; where texts show the month of their instant it is the total if and only if no charged event has a negative cost |
| `FinOps.EventDiffersExactly` | packages/cost_engine/sqlverity_cost_engine/service.py:329-339 | which events are charged otherwise than listed, by cost and month |
| `FinOps.CostTextsAgreeExactly` | packages/cost_engine/sqlverity_cost_engine/service.py:329-339 | for which pairs of cost texts the balance charges what the summary lists |
| `FinOps.ParseableCosts` | packages/catalog/sqlverity_catalog/repository.py:2408-2420 | for absent or numeric texts these are the ledger's and the breakdown's costs |
| `FinOps.UnparseableCostsDisagree` | packages/catalog/sqlverity_catalog/repository.py:2408-2420 | an empty actual cost is charged at the estimate and listed unpriced; a text that is no number stops the balance |
| `FinOps.OffsetTextBreaksAgreement` | packages/cost_engine/sqlverity_cost_engine/service.py:270-305 | an event whose text shows another month is listed in one month and charged to another |
| `FinOps.Collect` | packages/cost_engine/sqlverity_cost_engine/service.py:270-292 | the loop builds the grouped lines and both counters |
| `FinOps.Summarize` | packages/cost_engine/sqlverity_cost_engine/service.py:256-327 | the summary holds the breakdown, its event count, the balance and what remains of the budget, never negative |
| `Jobs.RunKeeps` | packages/catalog/sqlverity_catalog/sqlite_schema.sql:361-387 | in every reachable table at most one row is active per tenant, data source and type, leases belong to running rows only, queued rows have attempts left |
| `Jobs.StepShape` | packages/catalog/sqlverity_catalog/repository.py:3403-3686 | one call changes at most one row, in the way that call may, and adds at most one |
| `Jobs.EnqueueInserts` | packages/catalog/sqlverity_catalog/repository.py:3412-3480 | a new job is inserted if and only if it has no data source or its slot is free; otherwise the slot's one active row is the answer |
| `Jobs.InsertRule` | packages/catalog/sqlverity_catalog/repository.py:3412-3480 | for any job: it is inserted if and only if it collides with no row, else the answer is the oldest active row of its slot, or an error if there is none |
| `Jobs.EnqueueRule` | packages/catalog/sqlverity_catalog/repository.py:3403-3410 | which jobs are refused before anything is inserted |
| `Jobs.NullSourceIsNotDeduplicated` | packages/catalog/sqlverity_catalog/sqlite_schema.sql:385-387 | two jobs without a data source both become active |
| `Jobs.ContinuationIsInserted` | packages/catalog/sqlverity_catalog/repository.py:3548-3597 | completing inserts the continuation if and only if its id is new; the conflict clause never swallows it |
| `Jobs.ClaimTakesTheEarliest` | packages/catalog/sqlverity_catalog/repository.py:3483-3524 | a claim takes the least row by schedule, creation and id among the due ones that are queued or on a lease that ran out, and nothing only if there is none; the row is running under the worker, with one more attempt and a lease of the seconds asked |
| `Jobs.FirstIsLeast` | packages/catalog/sqlverity_catalog/repository.py:3498-3505 | the row that ORDER BY and LIMIT 1 select precedes every other wanted row |
| `Jobs.TerminalIsFinal` | packages/catalog/sqlverity_catalog/repository.py:3527-3686 | succeeded, failed and cancelled rows never change again |
| `Jobs.FormerHolderIsFenced` | packages/catalog/sqlverity_catalog/repository.py:3527-3653 | after another worker took the row, the former holder can neither complete, fail nor prolong it, along any run in which it does not claim it again |
| `Jobs.LeaseProtects` | packages/catalog/sqlverity_catalog/repository.py:3483-3524 | while clocks stay within the lease nobody takes the row from its holder |
| `Jobs.ClaimProtects` | packages/catalog/sqlverity_catalog/repository.py:3483-3524 | after a claim the row stays its worker's as long as no claim is made by a clock past the seconds asked, the holder does not give it up and no heartbeat cuts it short |
| `Jobs.HeartbeatRule` | packages/catalog/sqlverity_catalog/repository.py:3527-3545 | a heartbeat is the holder's and makes the lease last the seconds asked from now |
| `Jobs.CompleteRule` | packages/catalog/sqlverity_catalog/repository.py:3548-3597 | only the holder completes; the row keeps its result and loses worker, lease and error |
| `Jobs.FailRule` | packages/catalog/sqlverity_catalog/repository.py:3599-3653 | only the holder fails, with a code and delay within bounds; with attempts left the row is queued for that many seconds later, else it has failed and keeps its schedule |
| `Jobs.RetryWaits` | packages/catalog/sqlverity_catalog/repository.py:3599-3653 | over any run a failed attempt is not repeated before its delay is over by some claimer's clock |
| `Jobs.CancelRule` | packages/catalog/sqlverity_catalog/repository.py:3656-3686 | only a queued row is cancelled, and only by its tenant |
| `Jobs.AttemptBound` | packages/catalog/sqlverity_catalog/repository.py:3483-3653 | over every run, attempts are at most the limit plus the reclaims of expired leases, and below the limit while queued |
| `Jobs.LimitIsPassedExactly` | packages/catalog/sqlverity_catalog/repository.py:3493-3510 | an event takes a row past its limit if and only if it is a claim that takes the row while running at its limit |
| `Jobs.WithinLimitExactly` | packages/catalog/sqlverity_catalog/repository.py:3483-3653 | over every run a row's attempts are within its limit if and only if no claim reclaimed it at its limit |
| `Jobs.ReclaimPassesTheLimit` | packages/catalog/sqlverity_catalog/repository.py:3493-3510 | a row at its limit whose lease ran out is claimed once more |
| `Jobs.JobStore.InsertJob` | packages/catalog/sqlverity_catalog/repository.py:3412-3480 | insert, answer with the oldest active row of the slot, or fail |
| `Jobs.JobStore.EnqueueBackgroundJob` | packages/catalog/sqlverity_catalog/repository.py:3403-3410 | checks the job, tenant and data source, then inserts |
| `Jobs.JobStore.ClaimBackgroundJob` | packages/catalog/sqlverity_catalog/repository.py:3483-3524 | the row taken is running under the worker with a new lease and one more attempt |
| `Jobs.JobStore.HeartbeatBackgroundJob` | packages/catalog/sqlverity_catalog/repository.py:3527-3545 | prolongs the lease of the holder only |
| `Jobs.JobStore.CompleteBackgroundJob` | packages/catalog/sqlverity_catalog/repository.py:3548-3597 | completion and continuation happen together or not at all |
| `Jobs.JobStore.FailBackgroundJob` | packages/catalog/sqlverity_catalog/repository.py:3599-3653 | requeues with a delay while attempts are left, else fails |
| `Jobs.JobStore.CancelBackgroundJob` | packages/catalog/sqlverity_catalog/repository.py:3656-3686 | only a queued row of the tenant is cancelled |
| `Inference.SortedSorts` | packages/catalog/sqlverity_catalog/inference.py:92-97 | the targets are put in ascending order of id, none lost or added |
| `Inference.ChainCoversTargets` | packages/catalog/sqlverity_catalog/inference.py:92-108 | over distinct targets the batches of a chain concatenate to exactly the sorted targets beyond its cursor |
| `Inference.ChainIsCompleteExactly` | packages/catalog/sqlverity_catalog/inference.py:92-108 | for any targets they do if and only if no two copies of a target stand on either side of the end of a batch |
| `Inference.ChainFillsBatches` | packages/catalog/sqlverity_catalog/inference.py:98-108 | every batch but the last is full |
| `Inference.HandleRule` | apps/api/main.py:2060-2097 | which jobs are refused, and that one without targets succeeds on an empty batch |
| `Inference.ContinuationAdvances` | apps/api/main.py:2060-2097 | a continuation carries the provider and the last id of a full batch, and leaves strictly fewer targets |
| `Inference.BatchesNeverOverlap` | apps/api/main.py:2060-2097 | whatever the targets are at each run, later batches lie strictly beyond earlier ones, so no target is processed twice |
| `Inference.CompletionCarriesTheChain` | packages/catalog/sqlverity_catalog/repository.py:3548-3597 | completing the job inserts a queued row whose own chain is the rest of this one |
| `Quota.ConcurrencyBound` | packages/catalog/sqlverity_catalog/repository.py:3291-3356 | with fixed limits no run leaves a scope with more leases than its concurrency limit |
| `Quota.CounterIsExact` | packages/catalog/sqlverity_catalog/repository.py:3330-3348 | the stored counter is the number admitted in the stored window, and nothing was admitted in later ones |
| `Quota.RateBound` | packages/catalog/sqlverity_catalog/repository.py:3330-3348 | with fixed limits a scope admits at most its rate limit in any window of any run |
| `Quota.AdmissionRule` | packages/catalog/sqlverity_catalog/repository.py:3291-3356 | which requests are malformed, and of the others which are turned away because as many leases as the limit are alive, because the window is past or full, or because the lease is held already; the rest are admitted |
| `Quota.AdmissionEffect` | packages/catalog/sqlverity_catalog/repository.py:3291-3356 | what an answered request leaves: the scope's expired leases go, its window is opened, and if admitted it holds its lease and counts once |
| `Quota.RenewalIsAllOrNothing` | packages/catalog/sqlverity_catalog/repository.py:3371-3400 | a renewal extends all named leases if and only if all are alive, else none |
| `Quota.ExpiredStaysExpired` | packages/catalog/sqlverity_catalog/repository.py:3371-3400 | an expired lease comes back only by a new acquisition |
| `Quota.AliveUntilDeadline` | packages/catalog/sqlverity_catalog/repository.py:3291-3400 | until its deadline a lease survives everything but its release |
| `Quota.RequestQuotas.TryAcquireRequestQuota` | packages/catalog/sqlverity_catalog/repository.py:3291-3356 | purge, concurrency, rate, lease: the tables and answer of one acquisition |
| `Quota.RequestQuotas.ReleaseRequestQuota` | packages/catalog/sqlverity_catalog/repository.py:3359-3368 | drops that lease only |
| `Quota.RequestQuotas.RenewRequestQuota` | packages/catalog/sqlverity_catalog/repository.py:3371-3400 | the two loops check all and then extend all |
| `Quota.RequestQuotas.AcquireAll` | packages/security/sqlverity_security/quota.py:101-157 | with other instances' calls between its own, a request ends up with a lease in all its scopes or in none, and with the answer that its calls give one after the other; alone it costs nobody a live lease |
| `Quota.AloneDecides` | packages/security/sqlverity_security/quota.py:101-157 | alone, a request is allowed if and only if each of its scopes would admit it by itself; otherwise it is refused, or raises, as the first that would not |
| `Quota.ForeignEventsKeepOwn` | packages/catalog/sqlverity_catalog/repository.py:3291-3400 | others' calls leave a request's leases as they are until the first of them expires |
| `Quota.RequestQuotas.ReleaseKeys` | packages/security/sqlverity_security/quota.py:208-214 | gives back every lease held, whatever others do between |
| `Knowledge.RunKeeps` | packages/catalog/sqlverity_catalog/repository.py:1838-1935 | over every interleaving of reads and writes a resolution equals the stored evidence it selects, a conflicting one selects none, and neither evidence nor a resolution is lost |
| `Knowledge.ReadThenWriteIsPropose` | packages/catalog/sqlverity_catalog/repository.py:93-105 | one process's call is a read followed at once by its write |
| `Knowledge.InTimeIsOneProcess` | packages/catalog/sqlverity_catalog/repository.py:1838-1935 | while every write replaces the row its client read, an interleaved run does what one process does with the same proposals |
| `Knowledge.VersionGrowsExactly` | packages/catalog/sqlverity_catalog/repository.py:4451-4463 | a write raises the version it replaces if and only if its clock is past that version or the row it read is at least as new |
| `Knowledge.NextVersionIsLeast` | packages/catalog/sqlverity_catalog/repository.py:4451-4463 | the version a write stores is the first that the clock has reached and the row read has not |
| `Knowledge.VersionsGrow` | packages/catalog/sqlverity_catalog/repository.py:4451-4463 | over every interleaving of such writes every change of a resolution raises its version |
| `Knowledge.InTimeIsNewer` | packages/catalog/sqlverity_catalog/repository.py:4451-4463 | writes that replace the row they read are such writes |
| `Knowledge.VersionsGrowInOneProcess` | packages/catalog/sqlverity_catalog/repository.py:4451-4463 | in one process every change of a resolution raises its version, in every run |
| `Knowledge.CorrectionInOneProcess` | packages/catalog/sqlverity_catalog/repository.py:4736-4753 | in one process an accepted correction overwrote exactly what its author had read, whatever ran in between |
| `Knowledge.CorrectionOverwritesWhatWasRead` | packages/catalog/sqlverity_catalog/repository.py:4736-4753 | what a correction replaces is what its author read if and only if the version named is still stored at the write; a call of one process makes sure of it |
| `Knowledge.BothCorrectionsAccepted` | packages/catalog/sqlverity_catalog/repository.py:3954-3978 | two replicas' corrections of one version are both accepted, the second over a resolution its author never read |
| `Knowledge.CorrectionRule` | packages/catalog/sqlverity_catalog/repository.py:1857-1864 | a correction is accepted if and only if it is sound, confirmed, new and names the current version; it is what the key resolves to then |
| `Knowledge.AuthorityNeverFalls` | packages/domain/sqlverity_domain/epistemic.py:39-83 | a key keeps its authority in every interleaving of the services' calls if and only if no write from an earlier read is pending that would lower it |
| `Knowledge.WhatUnseats` | packages/domain/sqlverity_domain/epistemic.py:39-83 | for a confirmed key that write is new evidence of automation whose read found nothing, or a row not settled and not of higher authority |
| `Knowledge.ConfirmationCanBeLost` | packages/catalog/sqlverity_catalog/repository.py:3954-3978 | automation that read before a confirmation and writes after it takes it off |
| `Knowledge.OnlyCorrectionsChangeSettledKnowledge` | packages/domain/sqlverity_domain/epistemic.py:168-206 | automation leaves confirmed and conflicting resolutions as they are, in every interleaving, if and only if no write is pending that would change them |
| `Knowledge.WhatChanges` | packages/domain/sqlverity_domain/epistemic.py:168-206 | such a write is a correction, or new evidence of automation whose read found nothing or a row not settled and not of higher authority, unless it repeats the stored conflict |
| `Knowledge.ConflictRule` | packages/domain/sqlverity_domain/epistemic.py:39-83 | a resolution turns conflicting if and only if ordinary evidence of its own authority contradicts it; it keeps its payload, with the smaller of the two confidences |
| `Knowledge.EvidenceRule` | packages/domain/sqlverity_domain/epistemic.py:39-83 | which ordinary evidence is refused, when it takes the place of what is known, when it is in conflict with it, and that every other key stays |
| `ReportOrder.OrderMatters` | packages/domain/sqlverity_domain/epistemic.py:39-83 | two orders of automation's reports about a new key can end in different statuses if and only if there is an imported report, no two imported ones contradict, and two inferred ones do |
| `ReportOrder.RunDescribes` | packages/domain/sqlverity_domain/epistemic.py:39-83 | the status after any reports: conflicting if two imported ones contradict or two inferred ones before the first imported one do, else the highest reported |
| `Knowledge.KnowledgeBase.ProposeDefinition` | packages/catalog/sqlverity_catalog/repository.py:1838-1935 | evidence, resolution and answer of one proposal or correction |
| `TermMatch.MatchingIsTokenMatching` | packages/catalog/sqlverity_catalog/business_concepts.py:233-249 | a padded term occurs in a padded query if and only if its tokens stand next to each other, in order, among the query's |
| `TermMatch.EmptyTermOrQuery` | packages/catalog/sqlverity_catalog/analytics_semantics.py:719-721 | a term that normalizes to nothing matches only a query that does too, and conversely |
| `TermMatch.JoinIsInjective` | packages/domain/sqlverity_domain/text.py:7-13 | normalized texts are equal if and only if their tokens are |
| `Concepts.ConfirmedTermsAreDisjoint` | packages/catalog/sqlverity_catalog/business_concepts.py:80-167 | in every reachable state distinct confirmed concepts have no term in common |
| `Concepts.ConfirmedTextsDiffer` | packages/catalog/sqlverity_catalog/business_concepts.py:80-167 | in every reachable state of atomic steps no name, synonym or key read with spaces of one confirmed concept has the tokens of one of another |
| `Concepts.TermsAreTexts` | packages/catalog/sqlverity_catalog/business_concepts.py:383-387 | the terms of a concept are the tokens of its name, of its synonyms and of its key read with spaces, as far as they are not blank |
| `Concepts.AnswersByText` | packages/catalog/sqlverity_catalog/business_concepts.py:225-276 | a text of a confirmed concept whose tokens stand next to each other in the query leads to that concept, unless another confirmed concept has a text with the same tokens, when it is ambiguous between them; nothing else is answered |
| `Concepts.TermsFreeByText` | packages/catalog/sqlverity_catalog/business_concepts.py:358-380 | a correction finds its terms free if and only if no text of another confirmed concept has the tokens of one of its own |
| `Concepts.CheckedRule` | packages/catalog/sqlverity_catalog/business_concepts.py:278-356 | what a definition must be to be written |
| `Concepts.ProposeRule` | packages/catalog/sqlverity_catalog/business_concepts.py:80-122 | when evidence of automation is written |
| `Concepts.CorrectRule` | packages/catalog/sqlverity_catalog/business_concepts.py:124-167 | when a correction is written, and what the key resolves to then |
| `Concepts.DefinitionsAreAcceptable` | packages/catalog/sqlverity_catalog/business_concepts.py:278-356 | every stored definition is sound, in every reachable state of atomic steps |
| `Concepts.SameExactly` | packages/domain/sqlverity_domain/epistemic.py:130-142 | two definitions say the same if and only if they agree up to case in texts and the order of synonyms and references |
| `Concepts.SeparateCheckCanShareTerms` | packages/catalog/sqlverity_catalog/business_concepts.py:157-164 | two corrections that both check before either writes can share a term; one atomic step refuses |
| `Concepts.CommitKeepsTermsExactly` | packages/catalog/sqlverity_catalog/business_concepts.py:157-164 | an accepted write keeps confirmed terms disjoint if and only if it is no correction or its terms are free in the state written to |
| `Concepts.TermsStayDisjointExactly` | packages/catalog/sqlverity_catalog/business_concepts.py:80-167 | however checks, reads and writes interleave, terms are disjoint in every state of a run if and only if every accepted correction found its terms free when it wrote |
| `Concepts.NoTermIsAmbiguous` | packages/catalog/sqlverity_catalog/business_concepts.py:225-276 | with disjoint terms no term has two owners |
| `Concepts.BusinessConcepts.ProposeConcept` | packages/catalog/sqlverity_catalog/business_concepts.py:80-122 | only automatic evidence is written, after the checks |
| `Concepts.BusinessConcepts.CorrectConcept` | packages/catalog/sqlverity_catalog/business_concepts.py:124-167 | the correction is written if and only if the atomic step allows it |
| `Concepts.BusinessConcepts.Collisions` | packages/catalog/sqlverity_catalog/business_concepts.py:358-380 | the loop finds exactly the tokens that a text of the candidate and a text of another confirmed concept have in common |
| `Concepts.BusinessConcepts.TermMap` | packages/catalog/sqlverity_catalog/business_concepts.py:241-244 | maps each term to the concepts that have it, in order |
| `Concepts.BusinessConcepts.ResolveTerms` | packages/catalog/sqlverity_catalog/business_concepts.py:225-276 | each text of a confirmed concept that the query contains leads to that concept, or is ambiguous with every other that has it; with disjoint terms nothing is ambiguous |
| `Analytics.DependenciesStayConfirmed` | packages/catalog/sqlverity_catalog/analytics_semantics.py:515-555 | however checks, reads and writes of clients interleave, as long as writes of concepts and rules replace the rows they read, everything a metric or rule depends on is confirmed |
| `Analytics.OneProcessStaysGrounded` | packages/catalog/sqlverity_catalog/analytics_semantics.py:515-555 | in one process that holds in every reachable state, with checks at any time before the writes |
| `Analytics.OneProcessSelectionIsClosed` | packages/catalog/sqlverity_catalog/analytics_semantics.py:331-366 | so in one process every selection is closed under dependency |
| `Analytics.StepKeepsGroundedExactly` | packages/catalog/sqlverity_catalog/analytics_semantics.py:515-555 | a step keeps that if and only if it does not unseat a concept or rule that a stored metric or rule names |
| `Analytics.InTimeUnseatsNothing` | packages/catalog/sqlverity_catalog/repository.py:2168-2271 | a write that replaces the row it read takes no confirmation away |
| `Analytics.OnTimeIsQuiet` | packages/catalog/sqlverity_catalog/repository.py:2004-2104 | nor does any write of a run in which all do |
| `Analytics.OneProcessIsOnTime` | packages/catalog/sqlverity_catalog/repository.py:93-105 | in one process every write replaces the row its call read |
| `Analytics.GroundCanBeLost` | packages/catalog/sqlverity_catalog/repository.py:3980-4016 | a run across replicas after which a confirmed rule depends on a concept that is no longer confirmed |
| `Analytics.MetricCheckRule` | packages/catalog/sqlverity_catalog/analytics_semantics.py:368-424 | when the definition of a metric passes the checks |
| `Analytics.RuleCheckRule` | packages/catalog/sqlverity_catalog/analytics_semantics.py:426-465 | when the definition of a rule passes the checks |
| `Analytics.CommitKeepsNamesExactly` | packages/catalog/sqlverity_catalog/analytics_semantics.py:557-576 | an accepted write keeps the names of confirmed metrics or rules apart if and only if it is no correction or its name is free in the state it writes to |
| `Analytics.CheckedCorrectionKeepsNames` | packages/catalog/sqlverity_catalog/analytics_semantics.py:557-576 | a correction that is checked, read and written in one go keeps them apart |
| `Analytics.OneGoIsPropose` | packages/catalog/sqlverity_catalog/analytics_semantics.py:98-138 | what passes the checks is proposed: check, read and write in one go do what one call does to its table, and nothing to the others |
| `Analytics.SameExactly` | packages/domain/sqlverity_domain/epistemic.py:209-232 | metrics and rules compare as the tuples of their fields, up to case in texts and order in lists |
| `Analytics.SelectionIsClosed` | packages/catalog/sqlverity_catalog/analytics_semantics.py:331-366 | in such a state every rule of a selected metric is selected with it and names it |
| `Analytics.ReachableSelectionIsClosed` | packages/catalog/sqlverity_catalog/analytics_semantics.py:331-366 | the two together, for every query and every run whose writes replace the rows they read |
| `Analytics.SelectMetrics` | packages/catalog/sqlverity_catalog/analytics_semantics.py:342-352 | selects exactly the confirmed metrics that match a term or a wanted concept |
| `Analytics.MatchedTermsExactly` | packages/catalog/sqlverity_catalog/analytics_semantics.py:719-721 | the matched terms are the tokens of the name and of the key read with spaces that stand next to each other in the query |
| `Analytics.WantedExactly` | packages/catalog/sqlverity_catalog/analytics_semantics.py:331-366 | a query selects the confirmed metrics and rules it asks for by name or key, those of a wanted concept, and the rules that a selected metric names |
| `Analytics.SelectedByRule` | packages/catalog/sqlverity_catalog/analytics_semantics.py:353-358 | for every rule, exactly the selected metrics that name it |
| `Analytics.ResolveForQuery` | packages/catalog/sqlverity_catalog/analytics_semantics.py:331-366 | selects exactly the wanted metrics and rules, closed under dependency when the catalog is grounded |
| `BoundedFetch.ScanIsBounded` | packages/connectors/sqlverity_connectors/postgresql_executor.py:321-353 | the rows are a prefix of the result within both bounds, and the reason tells which bound stopped it |
| `BoundedFetch.PageIsLongestPrefix` | packages/connectors/sqlverity_connectors/postgresql_executor.py:321-353 | for any rows these properties, with distinct columns, determine the answered page: rows, bytes and reason |
| `BoundedFetch.RefusedExactly` | packages/connectors/sqlverity_connectors/postgresql_executor.py:314-353 | columns that share a name are refused, and so is a row that is reached and has another number of values; nothing else |
| `BoundedFetch.NamedPairs` | packages/connectors/sqlverity_connectors/postgresql_executor.py:336 | a row pairs each column with the value at its place and holds nothing else |
| `BoundedFetch.FetchBoundedRows` | packages/connectors/sqlverity_connectors/postgresql_executor.py:321-353 | fetching in batches gives the page read row by row, and never fetches more than the row bound |
| `Requests.FlagAlwaysAgrees` | apps/web/assets/requests.js:12-31 | after any sequence of begins and invalidations the abort flag agrees with the latest-and-generations test |
| `Requests.CurrentMeansNotOvertaken` | apps/web/assets/requests.js:12-31 | an operation is current if and only if no later begin used its key and no later invalidation hit its level or an outer one |
| `Requests.LevelsEnclose` | apps/web/assets/requests.js:9-18 | levels are ordered as a session holds tenants, a tenant sources and a source queries |
| `Requests.OneCurrentPerKey` | apps/web/assets/requests.js:20-31 | at most one operation per key is current |
| `Requests.SQLVerityRequests.Invalidate` | apps/web/assets/requests.js:12-18 | advances the generations from the level on and aborts the latest operations there |
| `Requests.SQLVerityRequests.Begin` | apps/web/assets/requests.js:20-26 | aborts the latest operation of the key and becomes the latest |
| `Requests.SQLVerityRequests.IsCurrent` | apps/web/assets/requests.js:29-31 | the test made before each request and on each response |

## Left out

- Materialize.MaterializePreservesMeaning: truth is two-valued and Except removes one copy per match, where SQL has nulls and EXCEPT; the AST is rewritten as a value, so replacing the node in place and aliasing of nodes are not captured; recursive WITH, outer joins, DISTINCT, ORDER BY, QUALIFY and window functions are not in the evaluator.
- Materialize.Materialize: identifiers are taken in their case-folded form, and of the checks on bound values only that the supplied names are the declared ones is modelled; null, finiteness and physical type are left to the caller.
- Validation of the base query when it is registered, and the signature hash of the bound parameters.
- QueryApproval.Repository.CreateQueryRequest: `create_query_request` stores any state and approval fields it is given; only the three states in which generation creates requests are modelled, without an approval.
- QueryApproval.ApprovalIntegrity: digests are opaque values; result columns that take part in no decision are not stored.
- BudgetLedger.SettleMovesWithinMonth: on PostgreSQL instants are compared instead of texts, which is the case in which the shown month is the month of the instant.
- FinOps.CostTextsAgreeExactly: texts that parse to NaN or an infinity.
- Price estimates with cached and batch rates: exact decimal arithmetic without state.
- FinOps.Summarize: the order of the breakdown lines.
- Jobs.RunKeeps: jobs enter as the only caller builds them, waiting and never tried; the retry delay the worker chooses and its heartbeat thread are not modelled.
- Inference.ChainCoversTargets: the data source and catalog lookups, building the target list, the model's proposals and their parsing; payload values are texts or null.
- Quota.RequestQuotas.AcquireAll: how scope names and window numbers are built from principals and the clock.
- Knowledge.KnowledgeBase.ProposeDefinition: the catalog version check, sources, reasons and audit events.
- Concepts.BusinessConcepts.ResolveTerms: the order in which matches and ambiguities are listed.
- Analytics.ResolveForQuery: the order of the selection.
- Analytics.DependenciesStayConfirmed: parsing the SQL fragments of metrics and rules, and looking up the columns they refer to.
- Requests.SQLVerityRequests.Begin: button labels restored on finish, and promises; a response is accepted exactly when the test holds on arrival.
- BoundedFetch.FetchBoundedRows: the driver fills a batch unless the result ends, as the code takes a short batch for the end.
- Unicode normalization itself: any function into sequences of non-empty tokens without spaces.
- HTTP routes, authentication, connectors, secret managers, migrations, retention and the user interface.
