# Verified model of spendlease's budget core

spendlease is a gateway in front of language-model vendors. Before a request leaves, it *reserves* an upper bound of
what the request may cost against the budget of its run and of every ancestor run; when the response ends, it *settles*
the reservation with the real charge, written to a hash-chained ledger. This project models that core in Dafny and
proves what makes the bound mean something:

- no subtree of runs ever spends and holds more than its budget plus what the code lets past it on purpose, in every
  reachable state of the store and under every interleaving of several replicas on one PostgreSQL database;
- an enforced reservation is allowed exactly when every level and the lease can afford it, and stored as it was asked for;
- a successful request is charged exactly once, its priced row joined to its reservation; a charge never moves, and a
  failed request is free;
- a closed run never gains a hold or a lease again, on itself or on any descendant, however late that is created;
- across replicas a hold that was released while uncharged can still be charged exactly when a settlement of it is
  already under way;
- every reachable ledger verifies after it is stored and read back, and two accepted chains with one head agree in
  every hashed field, itemized usage and price provenance included, or exhibit a collision of the digest between two of
  their own entries;
- at any prices for the hold and the charge, what a settlement can exceed its hold by is known up to two nanodollars of
  rounding; so in one process or many replicas the gateway's calls keep spend plus holds within the budget, that excess
  per charged hold, and the charges whose holds had lapsed;
- the stream observer's result depends on the bytes and not on how they were cut into reads, with the exact condition on
  lines past its cap; a filter withholds exactly the blocks whose payload it drops;
- amounts, usage maps, placeholders and reconciliation reports round-trip or are exact, with the precise condition
  wherever that fails.

`dafny verify dfyconfig.toml` checks everything.

## How it is organised

| files | what they hold |
|---|---|
| `Wrappers`, `Int64`, `Sequences`, `Sums`, `Text`, `Ordering` | Option and Result, Go's wrapping int64, sequence facts, SQL sums, decimal text and trimming, sorted keys |
| `Hierarchy`, `Tables`, `Changes`, `Budgets` | the run forest and its two recursive walks, the five tables with their sums and constraints, the row changes transactions commit, and the decision rule |
| `Outcomes`, `BudgetStore` | what each transaction answers and leaves behind, and the `Store` class whose methods are the transactions |
| `Stamps` | the textual comparison by which holds expire |
| `Histories`, `Agreement` | theorems over every sequence of calls, and between the decision and the report |
| `Effects`, `Sealing` | what each call does to the tables, row by row and figure by figure; what a ledger row holds and what its hash covers |
| `Replicas`, `Undisturbed`, `Races`, `Fleet` | every interleaving of replicas: that one alone does what the transaction does, what holds at each instant, what holds from one instant to any later one, and what the gateways of one database can spend together |
| `Pricing`, `WorstCase`, `PriceConditions` | integer pricing and reservation sizing, the most that counts within their ceilings can cost, and exactly which prices keep a settlement within its hold |
| `Gateway`, `Recorded`, `Metering` | the recorder that reserves, releases and records, what of each reply reaches the ledger, and what its calls add up to |
| `Billing`, `Ledger` | usage maps and their canonical JSON, and the hash chain |
| `EventStream`, `Filtering`, `Scanning`, `Observer` | server-sent-event framing, what lines and blocks report and which blocks are withheld, exactly when the cuts of a stream do not matter, and the reader class that observes and filters a body |
| `Money`, `Rebind`, `Reconcile` | dollar texts, PostgreSQL placeholders, the reconciliation report |

Modelling decisions:

- A run's ancestors and descendants are walked by recursion on the order in which rows were inserted, which the foreign
  key on the parent makes a rank.
- `waivers` is a ghost table of the spend the code lets past a budget on purpose: an observe-mode hold that did not
  fit, the part of a charge above its hold, the charge of a hold that had already expired, and a direct
  `AppendLedger`. Budget theorems bound spend plus holds by the budget plus the waivers of the subtree, and
  `NeverOverBudget` shows which calls add none.
- The digest is an arbitrary function parameter: nothing is assumed of SHA-256.
- Instants are integers that count nanoseconds. Expiry compares them as the database compares their text (`Stamps`); in
  the ledger, time text is an injective decimal of the instant.
- `Validate` reports whichever offending unit it meets first, so `Validate`, `CanonicalJson` and `ComputeHash` promise
  one of several answers when several units offend.
- `Wrap` marks int64 operations that could overflow; a database sum that leaves the int64 range is an `Overflow` error.
- Strings are sequences of characters. Those of a body and of hashed text stand for bytes; white space in a body is
  recognised in its UTF-8 encoding.

Where the code and its own documentation disagree, the model follows the code:

- `Nanos.String` says its result round-trips through `ParseUSD`. It does so exactly below 9,223,372,036 whole dollars,
  and the most negative amount prints as a text with two signs (`Money.RoundTrip`, `Money.LeastPrints`).
- `record.go` calls the reserved and the estimated amounts upper bounds. A reservation sized at the plain input rate is
  one, to within two nanodollars, exactly when no prompt-side rate of a tier is higher
  (`PriceConditions.DominatesExactly`); those two are reached (`Pricing.BoundIsTight`). The published Claude cache-write
  rates in `pricing/anthropic-2026-07-31.yaml` are 1.25 and 2 times the input rate, and those of the gpt-5.6 family in
  `pricing/openai-2026-07-31.yaml` 1.25 times (`PriceConditions.PublishedPriceOverruns`). At any prices the hold falls
  short by a known amount (`PriceConditions.ShortfallExactly`).
- A request that produces no output holds nothing for output but is charged for some when its usage is not reported, so
  its estimate stays within the hold exactly when output is free (`PriceConditions.NoOutputEstimateExactly`).
- The bound assumes one price from reservation to settlement, but the code looks the price up twice. Between two prices
  it holds exactly when at every size of prompt no rate of the second exceeds what it would be held at
  (`PriceConditions.TwoPricesExactly`).
- `LongContextThreshold` is documented as the count to exceed; the code switches tier on reaching it
  (`Pricing.TierStartsAtThreshold`).
- `ResolveReservation` and `SettleReservation` exclude each other in one process. Across replicas a release that commits
  between a settlement's read and its commit does not stop the charge (`Races.ReleasedHoldIsCharged`), and nothing else
  lets a released hold be charged (`Races.ReleasedChargeableExactly`).
- `observe.go` says that the tail of an incomplete line is carried into the next call. A tail past the 1 MiB cap is
  discarded instead, so the same stream can report different events (`Scanning.LongEventDependsOnCuts`); it reports the
  same however it is cut exactly when no line past the cap has anything to report (`Scanning.CutsDoNotMatterExactly`).
- `ComputeHash` says it is deterministic for any value. For invalid usage the hashed text holds an error message about
  whichever unit the map iteration meets first: it is determined exactly when at most one unit offends
  (`Ledger.SettledExactly`, `Ledger.WrittenIsDetermined`), which two units in capitals are not
  (`Ledger.CapitalsAreNotSettled`). Such entries are never stored.
- `helpers.go` says that stored times sort as text in the order they sort chronologically. RFC 3339 text drops trailing
  zeros, so within one second it does not when one fraction continues the other (`Stamps.TextOrderExactly`), and a hold
  can expire a fraction of a second early (`Stamps.OverdueTooEarly`).
- `rebind` preserves a query's parameters only when no unquoted placeholder is directly followed by a digit
  (`Rebind.ParametersInOrder`); the store's queries are all of that kind.

## Model

| member | source | states |
|---|---|---|
| Hierarchy.WalksAreDual | internal/store/sqlite/sqlite.go:755-762 | a run is on another's ancestor walk exactly when the other is in its subtree walk |
| Hierarchy.ChainClosedUpward | internal/store/sqlite/sqlite.go:755-762 | the parent of any run on an ancestor walk is on it too |
| Hierarchy.SubtreeClosedDownward | internal/store/sqlite/sqlite.go:878-882 | a child of any run in a subtree is in it too |
| Hierarchy.ChainIsStable | internal/store/sqlite/sqlite.go:375-395 | creating and closing runs never changes an existing run's ancestor walk |
| Hierarchy.SubtreeIsStable | internal/store/sqlite/sqlite.go:375-395 | among existing runs, membership of a subtree never changes |
| Tables.LocateIs | internal/store/sqlite/sqlite.go:1110-1115 | with unique ids, looking a reservation up finds its own row |
| Changes.ChargeLoad | internal/store/sqlite/sqlite.go:1127-1145 | a charge raises no subtree's load: what exceeds the hold is waived |
| Changes.ResolveLoad | internal/store/sqlite/sqlite.go:1023-1040 | resolving a hold raises no subtree's load |
| Changes.SweepLoad | internal/store/sqlite/sqlite.go:1055-1070 | sweeping overdue holds raises no subtree's load |
| Changes.InsertHoldLoad | internal/store/sqlite/sqlite.go:863-868 | a hold raises exactly the subtrees that contain its run, by its amount, unless it was waived |
| Changes.ChargeLeaseLoad | internal/store/sqlite/sqlite.go:1127-1145 | a charge raises no lease's load: the hold it resolves pays for it up to its amount |
| Changes.ChargeKeepsLinks | internal/store/sqlite/sqlite.go:1131-1136 | a charge joins one new ledger row to one reservation, and no row is ever joined twice |
| Budgets.Remaining | internal/store/sqlite/sqlite.go:803-813 | the two-step saturating subtraction is budget minus spent minus held, or zero |
| Budgets.NotShortHasRoom | internal/store/sqlite/sqlite.go:815-823 | a level the decision does not find short has room for the amount |
| Budgets.ChangeKeepsIntegrity | internal/store/sqlite/sqlite.go:732-1152 | every committed transaction keeps the forest, the references, the unique ids and the settlement links |
| Budgets.LoadBound | internal/store/sqlite/sqlite.go:732-892 | only a fitting new hold raises a load, and only on the runs whose subtree contains it |
| Budgets.ChangeKeepsBudgets | internal/store/sqlite/sqlite.go:732-892 | no transaction takes any budgeted run of any hierarchy past its budget and waivers |
| Budgets.ChangeKeepsLeases | internal/store/sqlite/sqlite.go:825-859 | no transaction takes a lease past its positive ceiling and waivers |
| Budgets.ChangeKeepsSafe | internal/store/sqlite/sqlite.go:732-1238 | every enabled transaction keeps integrity, budgets, ceilings and the hash chain together |
| BudgetStore.Store.CreateRun | internal/store/sqlite/sqlite.go:363-412 | inserts exactly when the id is new, the budget is not negative and any parent is an active run of the same principal; otherwise nothing changes and a missing parent is NotFound |
| BudgetStore.Store.CloseRun | internal/store/sqlite/sqlite.go:484-521 | closes the run and nothing else; closing again succeeds unchanged, an unknown run is NotFound |
| BudgetStore.Store.CreateLease | internal/store/sqlite/sqlite.go:531-590 | inserts exactly when every run up to the root is active and id and token are new |
| Effects.RunCreatedExactly | internal/store/sqlite/sqlite.go:363-412 | a run is inserted as given exactly under an active parent of its principal, or none; otherwise nothing changes |
| Effects.RunClosedExactly | internal/store/sqlite/sqlite.go:484-521 | closing changes one run's status and nothing else |
| Effects.LeaseCreatedExactly | internal/store/sqlite/sqlite.go:531-590 | a lease is inserted as given exactly when every run up to the root is active and its keys are new; otherwise nothing changes |
| Effects.NoChildOfClosed | internal/store/sqlite/sqlite.go:375-395 | once a run is closed no run is ever created under it |
| BudgetStore.Store.SubtreeUsage | internal/store/sqlite/sqlite.go:875-892 | the settled spend and pending holds of the whole subtree, or an overflow error |
| BudgetStore.Store.DecideRuns | internal/store/sqlite/sqlite.go:791-824 | names the nearest insufficient run with its figures, or fails at the nearest closed or unsummable level |
| BudgetStore.Store.DecideLease | internal/store/sqlite/sqlite.go:825-859 | checks the lease ceiling after the runs and names it only when no run was short |
| BudgetStore.Store.TryReserve | internal/store/sqlite/sqlite.go:732-873 | the decision as above; the hold is inserted exactly when it is allowed, and every error leaves the tables unchanged |
| Effects.AllowedIsStored | internal/store/sqlite/sqlite.go:717-726 | an allowed reservation adds one pending hold with the id, run, lease, amount and expiry that were asked for, and changes nothing else |
| Effects.AllowedCounts | internal/store/sqlite/sqlite.go:863-868 | it adds its amount to what its lease holds and to what its run and every ancestor hold, and to nothing else |
| Effects.RefusedChangesNothing | internal/store/sqlite/sqlite.go:732-873 | a reservation that is refused or fails changes nothing |
| Effects.AllowedExactly | internal/store/sqlite/sqlite.go:787-868 | an enforced reservation is allowed if and only if it is new, pending and not negative, every run up to the root is active and affords it, and so does its lease |
| Effects.BlockedFigures | internal/store/sqlite/sqlite.go:803-859 | a decision that would block names the nearest run that cannot afford the amount, or else the lease, with its figures and the shortfall |
| Effects.FailuresNamed | internal/store/sqlite/sqlite.go:732-868 | which error a reservation fails with: the first that its checks come to |
| BudgetStore.Store.BudgetStatus | internal/store/sqlite/sqlite.go:896-982 | every level's figures, the nearest closed run, and the nearest run with the least remaining budget |
| Effects.ReportFigures | internal/store/sqlite/sqlite.go:918-978 | the report describes every run up to the root with its spend, holds and remainder, and names the nearest closed level and the nearest with the least left |
| BudgetStore.Store.ResolveReservation | internal/store/sqlite/sqlite.go:1023-1052 | only a pending hold changes status; resolving it again is a conflict, an unknown one NotFound |
| Effects.ResolvedExactly | internal/store/sqlite/sqlite.go:1023-1052 | the pending hold of that id takes the given status, and nothing else changes |
| BudgetStore.Store.ExpirePendingReservations | internal/store/sqlite/sqlite.go:1055-1071 | expires the pending holds that are overdue in the order of their stored text, and counts the rows it changes |
| Effects.SweptExactly | internal/store/sqlite/sqlite.go:1059-1062 | a hold changes if and only if it was pending and its stored expiry is at most the stored now; then it is expired and otherwise the same |
| Effects.SweptByTheClock | internal/store/sqlite/sqlite.go:1059-1062 | a pending hold due in an earlier second is expired; one due in a later second, or not pending, is untouched |
| Stamps.TextOrderExactly | internal/store/sqlite/helpers.go:13-19 | the stored texts of any two instants compare as the instants do, unless both lie in one second and the fraction digits of one continue the other's |
| Stamps.OverdueTooEarly | internal/store/sqlite/sqlite.go:1059-1062 | two instants in one second of which the later counts as overdue at the earlier |
| BudgetStore.Store.SealNext | internal/store/sqlite/sqlite.go:1192-1238 | the entry numbered after the head and chained onto it, or the error that refuses it |
| Sealing.SealedIs | internal/ledger/entry.go:158-170 | sealing gives an entry without a version version 2 and its itemized usage, keeps a given version, and sets the link and the hash alone |
| Sealing.SealedCarries | internal/store/sqlite/sqlite.go:1192-1238 | the row of a sealed entry holds its every column, follows the head, reads back as the entry and hashes what it reads back |
| Sealing.AppendableExactly | internal/store/sqlite/sqlite.go:1192-1238 | an entry is accepted if and only if its version is known, its quantities are valid, no figure is negative, its run is known and its hash is new |
| Sealing.RefusalsNamed | internal/store/sqlite/sqlite.go:1192-1238 | which error refuses an entry: the first check that it fails |
| BudgetStore.Store.AppendLedger | internal/store/sqlite/sqlite.go:1168-1190 | appends one sealed row or changes nothing |
| Sealing.AppendedExactly | internal/store/sqlite/sqlite.go:1168-1190 | a direct append adds the row of exactly the acceptable entries, joined to nothing, and otherwise changes nothing |
| BudgetStore.Store.ChargeHold | internal/store/sqlite/sqlite.go:1127-1148 | appends, links and, for a pending hold, resolves in one change, or changes nothing |
| BudgetStore.Store.SettleReservation | internal/store/sqlite/sqlite.go:1086-1152 | a linked reservation returns its first entry; one of another run, released or settled is a conflict; a pending or expired one is charged |
| Sealing.SettledExactly | internal/store/sqlite/sqlite.go:1086-1152 | a settlement adds the row, joins it to the reservation and settles a pending hold exactly when the reservation can be charged and the entry accepted; otherwise nothing changes |
| Sealing.SettlementAnswers | internal/store/sqlite/sqlite.go:1117-1148 | a reservation of another run, released or settled answers Conflict; one that can be charged answers the sealed entry, or why it is refused |
| Sealing.UnknownIsNotFound | internal/store/sqlite/sqlite.go:1117-1121 | an unknown reservation answers NotFound |
| Sealing.ChargeCounts | internal/store/sqlite/sqlite.go:1127-1145 | a charge adds its cost to the spend of its run, every ancestor and its lease, and takes a pending hold off them |
| Outcomes.DecidedHasRoom | internal/store/sqlite/sqlite.go:863-868 | an allowed enforced decision leaves room on every level and the lease |
| Outcomes.SealedKeepsChain | internal/store/sqlite/sqlite.go:1200-1216 | sealing onto the stored head keeps the stored chain |
| Outcomes.ReportedStep | internal/store/sqlite/sqlite.go:944-978 | one turn of the status loop extends the report by one level |
| Histories.Perform | internal/store/sqlite/sqlite.go:363-1190 | each store method answers as one step of the histories the theorems are about |
| Histories.ReachableIsSafe | internal/store/sqlite/sqlite.go:732-1238 | every state reachable from the empty store keeps every reference, budget, ceiling and hash link |
| Histories.BudgetsHold | internal/store/sqlite/sqlite.go:732-892 | in every reachable state a budgeted subtree's spend plus holds is at most its budget plus its waivers |
| Histories.LeaseCeilingsHold | internal/store/sqlite/sqlite.go:825-859 | in every reachable state a lease's joined cost plus holds is at most its ceiling plus its waivers |
| Histories.LedgersVerify | internal/store/sqlite/sqlite.go:1192-1348 | every reachable ledger is numbered from 1, reads back and passes verification |
| Sealing.LedgersInUsageForm | internal/ledger/entry.go:158-164 | where no call gives a version, every row of every reachable ledger is in the usage form |
| Sealing.SameHeadSameRecords | internal/ledger/entry.go:219-232 | two such ledgers with one head hold the same records, itemized usage, external id, price revision and effective date included, or exhibit a break of the digest |
| Histories.HistoryGrows | internal/store/sqlite/sqlite.go:1023-1152 | runs, leases, settlements and ledger rows are never removed or rewritten, and a hold leaves pending at most once |
| Histories.ChargedOnce | internal/store/sqlite/sqlite.go:1086-1152 | a charge stays joined to the same row for ever, no row serves two reservations, and a released hold is never charged |
| Histories.SettledAgain | internal/store/sqlite/sqlite.go:1102-1109 | however much later, settling a charged reservation again returns the first entry as stored and changes nothing |
| Histories.EveryChargeHasItsHold | internal/store/sqlite/sqlite.go:1131-1136 | without direct appends every ledger row is the charge of exactly one reservation |
| Histories.ClosedForGood | internal/store/sqlite/sqlite.go:375-395 | once a run is closed, no later hold or lease lies under it, on descendants created afterwards included |
| Histories.NeverOverBudget | internal/store/sqlite/sqlite.go:732-892 | after enforced reservations and charges within pending holds, spend plus holds never exceeds the budget |
| Histories.ChargeMovesUsage | internal/store/sqlite/sqlite.go:1116-1145 | a charge moves each ancestor's spend plus holds by cost minus hold if the hold was pending, by cost if it had expired, and no other run's |
| Agreement.LevelsAgree | internal/store/sqlite/sqlite.go:944-978 | the report allows spending exactly when every level is active, and its effective remaining covers an amount exactly when no run is short of it |
| Agreement.AllowedIffAffordable | internal/store/sqlite/sqlite.go:791-872 | without a lease, an enforced reservation is allowed exactly when the budget report allows spending and is unlimited or has the amount left |
| Agreement.BlockedRunsAgree | internal/store/sqlite/sqlite.go:815-823 | when a run blocks, the report's limiting run is short too and has no more left than the named one |
| Agreement.ObserveDecidesAlike | internal/store/sqlite/sqlite.go:862-868 | observe mode computes the decision of enforce mode and always allows it |
| Replicas.ExecutionIsOk | internal/store/sqlite/sqlite.go:167-199 | in every interleaving, what a replica has read still bounds what it will commit, and the tables stay safe |
| Replicas.FactsKept | internal/store/sqlite/sqlite.go:167-183 | no step outside a principal's budget lock invalidates what the lock's holder has read |
| Replicas.BudgetsHoldAcrossReplicas | internal/store/sqlite/sqlite.go:167-183 | hierarchical budget safety at every instant of every interleaving |
| Replicas.LeaseCeilingsHoldAcrossReplicas | internal/store/sqlite/sqlite.go:825-859 | lease ceiling safety at every instant of every interleaving |
| Replicas.NeverOverBudgetAcrossReplicas | internal/store/sqlite/sqlite.go:167-183 | with enforced decisions and charges within holds still pending at commit, never over budget |
| Undisturbed.ReservesAlone | internal/store/sqlite/sqlite.go:732-873 | every decision TryReserve reaches is reached, with the same tables, by steps of one undisturbed replica |
| Undisturbed.SettlesAlone | internal/store/sqlite/sqlite.go:1086-1152 | every charge SettleReservation makes is made by two steps of one undisturbed replica |
| Undisturbed.OthersAlone | internal/store/sqlite/sqlite.go:363-1190 | every other call that changes the tables is one step where no lock is held |
| Races.ExecutionPersists | internal/store/sqlite/sqlite.go:363-1190 | under any interleaving runs, leases, settlements and ledger rows are never removed or rewritten, and holds change in status only |
| Races.ChargeStaysAcrossReplicas | internal/store/sqlite/sqlite.go:1127-1145 | across replicas a charge stays joined to the same row for ever, and no row serves two reservations |
| Races.ClosedAcrossReplicas | internal/store/sqlite/sqlite.go:732-790 | across replicas no later hold or lease lies under a closed run, on descendants created afterwards included |
| Races.FreedForGood | internal/store/sqlite/sqlite.go:1113-1126 | a released, uncharged hold with no settlement under way stays so on every continuation |
| Races.ReleasedChargeableExactly | internal/store/sqlite/sqlite.go:1086-1152 | at any point of any interleaving a released, uncharged hold is charged on some continuation if and only if a settlement of it is under way whose entry can be inserted |
| Races.ReleasedHoldIsCharged | internal/store/sqlite/sqlite.go:1023-1152 | a run of two replicas from an empty system that charges a released hold |
| Pricing.RateWrapsExact | internal/pricing/cost.go:73-87 | up to MAX_RATE the split int64 computation is the half-up rounded product, wrapped |
| Pricing.RateIsExact | internal/pricing/cost.go:60-87 | every charge that fits an int64 is exact if and only if the rate is at most MAX_RATE |
| Pricing.PiecesNearSum | internal/pricing/cost.go:38-42 | charging n pieces differs from charging their sum by at most n/2 nanodollars, rounded down |
| Pricing.CostIsExact | internal/pricing/cost.go:28-43 | a request's cost is its exact five-part charge if and only if that fits an int64 |
| Pricing.ReservationTokens | internal/pricing/estimate.go:148-156 | the reserved output is always positive |
| Pricing.EstimateFromChars | internal/pricing/estimate.go:121-130 | the estimate is never negative, and zero only for no characters |
| Pricing.ReservedExactly | internal/pricing/estimate.go:135-156 | a hold is sized for the body and 1024 tokens of input, and for the caller's output limit, or else the model's, or else 4096 tokens |
| Pricing.EstimatedExactly | internal/gateway/record.go:345-356 | an estimate counts a token for every four characters begun and the output limit, or half of it rounded down if the reply was incomplete |
| Pricing.TierStartsAtThreshold | internal/pricing/cost.go:28-36 | a count equal to the threshold is charged at the long-context rates, one less at the ordinary ones |
| WorstCase.WorstExactly | internal/pricing/cost.go:28-43 | at any price, of all counts within given ceilings the dearest kind at the top of one of the tiers is reached, and exceeded by at most two nanodollars |
| WorstCase.WorstInInt64 | internal/pricing/cost.go:28-87 | while that worst case fits an int64, every cost within the ceilings is computed exactly and bounded by it |
| PriceConditions.ShortfallExactly | internal/gateway/record.go:183-206 | at any two prices no settlement exceeds its hold by more than the shortfall and two nanodollars, and a positive shortfall is reached |
| PriceConditions.CoveredCost | internal/gateway/record.go:262-285 | where the held price covers the charged one at every size of prompt, the int64 cost stays within two nanodollars of the hold |
| PriceConditions.ReservationDominates | internal/gateway/record.go:183-206 | at one price whose input is dearest, counts reported within the reserved ceiling cost at most two nanodollars more than the hold |
| PriceConditions.TwoPricesExactly | internal/gateway/record.go:262-285 | for every request the cost computed at the second price stays within two nanodollars of the hold if and only if the first price covers the second, for all prices whose excess shows in some request |
| PriceConditions.PlainPricesShow | internal/pricing/cost.go:28-43 | between two prices without a long tier, up to ninety dollars per million, every excess shows in some request |
| PriceConditions.DominatesExactly | internal/gateway/record.go:183-206 | at one price, with or without a long tier, the bound holds for all requests if and only if no prompt-side rate of a tier exceeds its input rate |
| PriceConditions.PublishedPriceOverruns | pricing/openai-2026-07-31.yaml:11-22 | a published price with a long tier at which a request overruns its hold |
| Pricing.BoundIsTight | internal/pricing/cost.go:38-42 | a price and a request that reach the two nanodollars |
| Pricing.EstimateWithinHold | internal/gateway/record.go:345-356 | an estimated charge of an output-producing request never exceeds its hold, complete or not |
| PriceConditions.NoOutputEstimateExactly | internal/gateway/record.go:191-194 | for requests without output the estimate stays within every hold if and only if output is free in every tier |
| Gateway.StrictBoundIsTheCallers | internal/gateway/record.go:139-155 | strict mode admits exactly the priced requests whose reserved output is the caller's own limit |
| Gateway.RefusedExactly | internal/gateway/record.go:139-155 | only strict enforcement refuses, exactly when the model is unknown or the caller gave no limit on output, and names the first of these |
| Gateway.Recorder.Reserve | internal/gateway/record.go:183-225 | asks for one decision on a hold of the request's upper bound |
| Gateway.Recorder.Release | internal/gateway/record.go:229-238 | releases a pending hold and otherwise changes nothing |
| Gateway.Recorder.Record | internal/gateway/record.go:247-337 | issues the one store call its observation calls for: nothing, a release, a settlement or an append |
| Gateway.Recorder.Finish | internal/gateway/proxy.go:251-254 | each way a request ends issues at most one kind of resolution |
| Gateway.EntryFits | internal/gateway/record.go:287-309 | every recorded entry's counts are int64s |
| Gateway.FailureIsFree | internal/gateway/proxy.go:422-425 | a transport failure or non-2xx reply adds no charge and only frees its own pending hold |
| Gateway.SuccessNeverReleases | internal/gateway/proxy.go:466-489 | the end of a 2xx body for a named model never releases a hold |
| Recorded.SuccessIsCharged | internal/gateway/record.go:247-311 | a success for a named model and a run whose reservation can be charged adds exactly one row, of its run and priced cost, joined to the reservation, whose hold is pending no more; unless its entry is not accepted |
| Recorded.UnchargeableIsLeft | internal/gateway/record.go:310-311 | with any other reservation it changes nothing |
| Recorded.UnreservedIsCharged | internal/gateway/record.go:312-314 | without a reservation it adds exactly one row, joined to none |
| Recorded.UnnamedIsReleased | internal/gateway/record.go:256-264 | without a model it adds no row and releases a pending hold |
| Recorded.NothingIsRecorded | internal/gateway/record.go:248-254 | outside any run, or of a refused reply, nothing is recorded |
| Recorded.EntryAccounts | internal/gateway/record.go:266-309 | the entry prices the reported or estimated counts, itemizes each under its own unit, and is marked estimated unless the price is known and the usage reported and complete |
| Recorded.OneEntry | internal/gateway/record.go:287-309 | there is no other such entry |
| Recorded.RecordableExactly | internal/gateway/record.go:287-314 | that entry is accepted if and only if no count and no cost is negative, its run is known and its hash is new |
| Billing.TokenUnits | internal/billing/usage.go:29-42 | the five counts each go to their own unit, zeros left out |
| Metering.MeteredCost | internal/gateway/record.go:262-285 | at any two prices a job's reported or estimated charge is at most its overage and two nanodollars above its hold |
| Metering.CoveredOwesNothing | internal/gateway/record.go:183-206 | a job has no overage where the held price covers the charged one and output was reserved for an estimate |
| Metering.RecordedIsMetered | internal/gateway/record.go:262-285 | what Record charges for a job is such a charge |
| Metering.BudgetHoldsToRounding | internal/gateway/record.go:183-337 | after any history of enforced gateway calls, spend plus holds is at most the budget, two nanodollars and the job's overage per charged hold, and the charges of holds that had expired |
| Metering.CeilingHoldsToRounding | internal/gateway/record.go:183-337 | after the same histories a lease stays within its ceiling, the same overages, and the charges of holds that had expired |
| Fleet.BudgetHoldsToRoundingAcrossReplicas | internal/gateway/record.go:183-337 | the same budget bound at every instant of every interleaving of replicas, where a hold may also be resolved between a settlement's read and its commit |
| Fleet.CeilingHoldsToRoundingAcrossReplicas | internal/gateway/record.go:183-337 | the same lease bound at every instant of every interleaving |
| Billing.ValidUnit | internal/billing/usage.go:68-81 | accepts exactly a lower-case letter followed by at most 63 letters, digits, underscores and dots |
| Billing.Validate | internal/billing/usage.go:56-66 | accepts exactly the maps of valid units with non-negative quantities, and otherwise complains about some offending unit |
| Billing.ComplaintsDiffer | internal/billing/usage.go:56-66 | no two offending units draw the same complaint |
| Billing.CanonicalJson | internal/billing/usage.go:93-118 | the canonical text of a valid map, in increasing unit order and without zero quantities, or the complaint about some offending unit |
| Billing.ParseUsageJson | internal/billing/usage.go:123-150 | the normalised map of a JSON object of int64 quantities, or an error |
| Billing.EscapedIsRead | internal/billing/usage.go:123-130 | a key spelled wholly in escapes is read as the key it stands for |
| Billing.DecodeOfCanonical | internal/billing/usage.go:101-117 | the canonical text is one JSON object with exactly the rendered members and nothing after it |
| Billing.RoundTrip | internal/billing/usage.go:93-150 | parsing the canonical text of a valid map gives its normal form |
| Billing.CanonicalIsExact | internal/billing/usage.go:89-118 | two valid maps have the same canonical text if and only if their normal forms are equal |
| Billing.ParsedIsNormal | internal/billing/usage.go:141-149 | whatever is parsed is valid, in int64 range and a fixed point of rendering and parsing |
| Ledger.ComputeHash | internal/ledger/entry.go:111-154 | digests the length-prefixed fields of the entry's form; of invalid usage it hashes the complaint about some offending unit |
| Ledger.SettledExactly | internal/ledger/entry.go:132-137 | hashing twice is sure to read the same usage text if and only if at most one unit offends |
| Ledger.WrittenIsDetermined | internal/ledger/entry.go:111-154 | the whole hashed text is determined if and only if the form is the legacy one or at most one unit offends |
| Ledger.CapitalsAreNotSettled | internal/ledger/entry.go:132-137 | an entry with two units in capitals may hash either of two messages |
| Ledger.NetstringsInjective | internal/ledger/entry.go:103-121 | the serialisation is uniquely decodable, whatever the fields contain |
| Ledger.FieldsDetermine | internal/ledger/entry.go:123-151 | equal field lists mean equal contents, across the 11-field and 16-field forms |
| Ledger.VerifyChain | internal/ledger/entry.go:235-262 | accepts linked chains only, exactly those where every hash is determined, and otherwise reports the first broken row and which check it failed |
| Ledger.TamperEvidence | internal/ledger/entry.go:219-232 | two accepted chains with one head have the same length and contents, unless two of their entries collide or one digests to the genesis hash |
| Ledger.ScanRestores | internal/store/sqlite/sqlite.go:1313-1348 | a stored row reads back as its entry, itemised and on the UTC clock |
| Ledger.StoredEntryVerifies | internal/store/sqlite/sqlite.go:1217-1235 | a sealed entry still carries the hash of its contents after storing and reading back |
| Ledger.StoredChainVerifies | internal/store/sqlite/sqlite.go:1313-1348 | a well-linked ledger table reads back as a chain numbered from 1 that verifies |
| Ledger.AppendKeepsChain | internal/store/sqlite/sqlite.go:1192-1216 | appending a sealed entry keeps the table well linked |
| EventStream.ReturnsDoNotMatter | internal/gateway/observe.go:185-197 | trimming carriage returns never changes a line's payload |
| EventStream.LinesOfConcat | internal/gateway/observe.go:240-268 | scanning lines may stop anywhere if the unfinished line is carried over |
| EventStream.BlocksOfConcat | internal/gateway/observe.go:139-164 | cutting blocks at the first blank line may stop anywhere if the tail is carried over |
| EventStream.NothingDropped | internal/gateway/observe.go:105-107 | a filter that drops nothing delivers the stream unchanged |
| Filtering.LineCarries | internal/gateway/observe.go:270-274 | a line carries what follows its data prefix without the ASCII white space around it, unless nothing is left |
| Filtering.OtherLinesCarryNothing | internal/gateway/observe.go:270-273 | a line without the prefix carries nothing |
| Filtering.FirstLineCarries | internal/gateway/observe.go:185-197 | a block's payload is that of its first line that carries one |
| Filtering.StreamReports | internal/gateway/observe.go:252-291 | a stream reports the payloads of its lines in order, end markers excepted |
| Filtering.BlockFiltered | internal/gateway/observe.go:144-162 | a complete block is delivered whole, or withheld exactly if it has a payload that the filter drops; it is reported either way |
| Filtering.UnfinishedFiltered | internal/gateway/observe.go:167-181 | and so is an unfinished last block |
| Filtering.FilteredExactly | internal/gateway/observe.go:139-181 | the client gets the undropped blocks in order and nothing else, and the payloads of all blocks are reported |
| Filtering.EverythingDropped | internal/gateway/observe.go:155-162 | a filter that drops everything delivers exactly the blocks without a payload |
| Scanning.CutProofReports | internal/gateway/observe.go:240-268 | a stream none of whose cuts can matter reports the events of its lines from every list of reads |
| Scanning.ShortLinesAreCutProof | internal/gateway/observe.go:246-251 | lines within 1 MiB are of that kind |
| Scanning.LongLineCutProof | internal/gateway/observe.go:246-251 | a longer line is of that kind if and only if neither it nor any of its ends past the cap reports anything |
| Scanning.CapExactly | internal/gateway/observe.go:246-251 | no cut matters to a line of 1,048,576 bytes, and some does to a line of five bytes more |
| Scanning.CutsDoNotMatterExactly | internal/gateway/observe.go:240-295 | a finished stream reports the same events from every list of reads if and only if it is of that kind |
| Scanning.LongEventDependsOnCuts | internal/gateway/observe.go:246-251 | a stream of one long event that is not |
| Observer.EventPayload | internal/gateway/observe.go:185-197 | the first non-blank data payload among a block's lines |
| Observer.ObservingReader.HandleLine | internal/gateway/observe.go:270-281 | reports one payload, never a blank one or the end marker |
| Observer.ObservingReader.ConsumeEvents | internal/gateway/observe.go:141-164 | appends exactly the undropped complete blocks, reports each block once and keeps the tail |
| Observer.ObservingReader.FlushRemainder | internal/gateway/observe.go:167-181 | treats the tail as a last block |
| Observer.ObservingReader.ReadFiltered | internal/gateway/observe.go:109-137 | delivers the filtered stream in order, and ends only when all of it has been delivered |
| Observer.ObservingReader.Accumulate | internal/gateway/observe.go:228-238 | collects a body until its total passes the cap, then nothing |
| Observer.ObservingReader.ScanEvents | internal/gateway/observe.go:245-268 | reports every complete line once and carries the unfinished one, unless it has passed the cap |
| Observer.ObservingReader.Flush | internal/gateway/observe.go:284-295 | reports an unfinished last line, or delivers an untruncated body |
| Observer.ObservingReader.ReadStream | internal/gateway/observe.go:87-102 | forwards every byte unchanged while reporting the lines so far |
| Observer.ObservingReader.ReadBody | internal/gateway/observe.go:87-102 | forwards every byte unchanged and delivers the whole body at the end exactly when it is within the cap |
| Observer.ObservingReader.Read | internal/gateway/observe.go:87-102 | what the caller has received at the end is exactly what is due, in every mode |
| Observer.ObservingReader.Close | internal/gateway/observe.go:203-207 | completes once, as complete only after the end of the body |
| Observer.ObservingReader.Finish | internal/gateway/observe.go:210-216 | the first completion is the only one |
| Observer.Drain | internal/gateway/observe.go:87-216 | for every cut into reads and every choice of buffer sizes, a drained body gives the same bytes and bodies and one completion, and the same events when its cuts do not matter |
| Money.ValueIsDecimal | internal/money/money.go:95-112 | an accepted amount is exactly the decimal number written, and below 9,223,372,036 dollars |
| Money.ParsedExactly | internal/money/money.go:55-113 | a text is accepted if and only if it is a spelling of an amount, and is read as that amount |
| Money.AllDigitsIn | internal/money/money.go:170-180 | true exactly for non-empty runs of ASCII digits |
| Money.ParseUSD | internal/money/money.go:55-113 | the int64 computation gives the specified amount, and its overflow check never fires |
| Money.ParseNumber | internal/money/money.go:79-98 | splits at the first point and rejects exactly what is no number |
| Money.Assemble | internal/money/money.go:95-112 | the padded int64 sum is the exact amount |
| Money.String | internal/money/money.go:131-153 | prints the specified text of every int64 |
| Money.LeastPrints | internal/money/money.go:132-136 | the most negative amount prints as a text that cannot be read back |
| Money.RoundTrip | internal/money/money.go:125-153 | printing and reading back gives the amount if and only if it is below 9,223,372,036 whole dollars either way |
| Money.CanonicalForm | internal/money/money.go:125-153 | what was read prints as a text that reads back as the same amount |
| Rebind.Rebind | internal/store/postgres/driver.go:90-125 | the look-ahead scanner numbers placeholders as a plain toggle lexer does |
| Rebind.ParametersInOrder | internal/store/postgres/driver.go:114-118 | the parameters read back are 1, 2, ... in order if and only if no placeholder runs into a digit |
| Rebind.ErasingRestores | internal/store/postgres/driver.go:90-125 | erasing the numbers restores a query without unquoted dollars if and only if no placeholder runs into a digit |
| Reconcile.AddUsage | internal/reconcile/reconcile.go:179-184 | adds every quantity, or fails exactly when a sum leaves the int64 range |
| Reconcile.Add | internal/reconcile/reconcile.go:159-189 | adds one record to its group, or fails exactly on a refused record or an overflow |
| Reconcile.Aggregated | internal/reconcile/reconcile.go:91-106 | the exact sums of every key with records in the period, or an error exactly when a record is refused or a sum overflows |
| Reconcile.UsageDelta | internal/reconcile/reconcile.go:202-219 | statement minus ledger for every unit, without zeros and never overflowing |
| Reconcile.SubtractNanos | internal/reconcile/reconcile.go:221-229 | the exact difference, or an error exactly when it leaves the int64 range |
| Reconcile.BuildGroup | internal/reconcile/reconcile.go:131-149 | one group's sides, deltas, status and matched ids from the exact sums |
| Reconcile.BuildGroups | internal/reconcile/reconcile.go:126-151 | every key's group, in order, and whether all match |
| Reconcile.Build | internal/reconcile/reconcile.go:81-152 | reports if and only if the options are right and both sources can be aggregated, and then lists each key once, sorted, with exact sums |
| Reconcile.AggregableInAnyOrder | internal/reconcile/reconcile.go:91-106 | whether an error occurs does not depend on the order of the records |
| Reconcile.ReportInAnyOrder | internal/reconcile/reconcile.go:81-152 | reordering either source changes nothing in the report |
| Reconcile.MatchExactly | internal/reconcile/reconcile.go:231-244 | a group matches if and only if both sides have records, costs differ within tolerance and every quantity is equal |
| Reconcile.PeriodExactly | internal/reconcile/reconcile.go:82-87 | the options are right if and only if both ends are given, some instant lies between them and the tolerance is not negative; the first end belongs to the period and the second does not |
| Reconcile.LedgerSums | internal/reconcile/reconcile.go:91-98 | the ledger's side counts, prices and itemizes exactly the period's entries of the group's provider and model |
| Reconcile.LedgerIds | internal/reconcile/reconcile.go:185-187 | and names exactly the trimmed external ids of those entries |
| Reconcile.StatementCounts | internal/reconcile/reconcile.go:99-106 | the statement's side does the same for its rows |
| Reconcile.StatementIds | internal/reconcile/reconcile.go:185-187 | and names exactly the trimmed external ids of those rows |
| Reconcile.RefusedExactly | internal/reconcile/reconcile.go:159-184 | a source is refused if and only if a record of the period lacks a provider, a model, valid usage or a non-negative cost, or a sum leaves the int64 range |
| Reconcile.StatusExactly | internal/reconcile/reconcile.go:231-244 | a group's status is the first that applies, and the tolerance counts both ways |
| Reconcile.GroupsInOrder | internal/reconcile/reconcile.go:119-124 | groups come in byte order of provider, then of model |

## Left out

- HTTP proxying, headers, credentials, TLS, timeouts and the concurrency limiter: only the order of reserve, release and record is modelled.
- SQL text, drivers, migrations and error strings: tables are maps and sequences, and failures are NotFound, Conflict, Overflow or Invalid.
- The date and time of RFC 3339 text before its fraction, which has a fixed width for four-digit years, and a PostgreSQL collation under which text does not sort by bytes.
- The principals table and its foreign keys; closing, resolving and revoking times; provider lists and expiry of leases; RevokeLease.
- CreatePrincipalRunLease and CreateReservation, which bypass the budget decision and are not part of the gateway's store interface.
- resolveRun and implicitRun: which run a request is charged to is an input.
- Price-book loading, aliases and scheduled prices: a resolved price is an input.
- Vendor-specific request and usage parsing: token counts, body size and prompt characters are inputs, with the assumptions stated on them.
- The text estimator with its float factor, which the accounting path does not use.
- Billing.ParseUsageJson: error texts.
- Observer.Drain: the upstream body is a finite list of pieces followed by one ending; an upstream that never ends is not modelled.
- Replicas.NeverOverBudgetAcrossReplicas: requests name a lease of their own principal, because the gateway authenticates them that way; lock acquisition is a step that waits until the lock is free.
- Billing.Validate: the complaint escapes the ASCII characters of a unit as %q does, and shows all others as they are.
- PriceConditions.CoveredCost: assumes that no long-context rate of the held price is below the ordinary one, as in every published price; PriceConditions.ShortfallExactly does not.
- PriceConditions.TwoPricesExactly: assumes the same, and says nothing of an excess so small, in a tier so short, that it never amounts to three nanodollars and may vanish in rounding, or of one that shows only in charges past an int64.
- PriceConditions.DominatesExactly: likewise; thresholds up to a billion tokens.
- PriceConditions.NoOutputEstimateExactly: likewise, and assumes that the smallest long prompt is held at nine thousand dollars or less, so that an int64 output limit can exceed the hold.
- Reconcile.Build: error texts, and amounts as text, which Money.String prints.
- Reading statement CSV files and writing JSON and CSV reports.
- Dashboard, control plane, command line, SDKs, metrics, alerts, audit, key storage and token hashing.
