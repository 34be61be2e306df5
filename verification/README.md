# Verified model of the budget ledger, the nonce store and the address classifier

This project states in Dafny what four parts of the repository promise, and proves it.

**The budget ledger** (`packages/core/src/budget`). `Ledger` describes every public operation as one transaction on
four tables: accounts, reservations, idempotency records and the outbox. `LedgerRuns` describes crash recovery and
runs: any interleaving of any clients is a sequence of calls, a call that throws changes nothing, and a crash is a
client that stops calling. `BudgetDatabase`, `ReservationEngine`, `ReconciliationEngine`, `RecoveryEngine` and
`BudgetManager` are the source's objects: they change the tables in place, statement by statement, inside nested
transactions that roll back, and are proved to perform exactly those transactions. A ghost history ties every
reachable `BudgetManager` to a run of the ledger, so the laws in `LedgerLaws`, `LifeCycle` and `AdapterLaws` hold of
the object. Three figures the laws need are computed from the outbox alone (`AuditTrail`): what period resets carried
out, the highest limit, and whether a limit was ever lowered. `AdapterProtocol` and `BudgetAwareLlmAdapter` describe a
budgeted provider call; other clients may act between any two of its transactions. `OutboxDrain` delivers the outbox to
the history, with refusals and with a process that dies between an append and its delivery mark.

`LedgerMeaning` and `AdapterMeaning` write out, field by field and reason by reason, what each operation does and when
it is refused, in terms of the rate lookup and the price alone; `PricingMeaning` and `NormalizerMeaning` do the same
for prices, counts and tiers, `NonceMeaning` for the nonce store, and `QuadTexts` for IPv4 texts.

**Pricing and usage** (`PricingEngine`, `PricingLaws`, `OmissionLaws`, `PricingLookup`, `UsageNormalizer`,
`NormalizerLaws`). Rational rates with four ceilings, the context tier switch, and the normaliser whose sums are
JavaScript doubles (`Doubles`).

**The nonce store** (`packages/core/src/authorization`). `Nonces` describes one operation on the persisted file, with
its two readings of the clock; `NonceStore` is the object with its pruning and validation loops; `NonceLaws` holds the
laws over runs. `VerifierProtocol` is the reserve, then mark or release protocol of the OIDC adapter as a state
machine over its steps. `LockQueue` is the promise queue that serialises operations on one path.

**The address classifier**. `IpText` says which texts are IPv4 and IPv6 addresses (text forms of section 2.2 of
RFC 4291, prefixes of section 3.1 of RFC 4632); `IpAddress` has the loops, shifts and masks; `IpParsing`, `IpRanges`,
`Ipv4Table`, `IpLaws` and `IpVerdicts` prove what they mean. `Bits`, `Strings` and `Text` hold the operators and
string methods used.

## Where code and documentation part

The model follows the code. These differences are proved, each with the condition under which code and promise agree:

- Recovery says it recalibrates every account to its UNKNOWN holds. A project account whose only pending rows were
  PREPARED is not revisited and keeps its reserved spend (`LedgerLaws.RecoveryIsExact`, `StrandedReservedSpend`; the
  run of three calls is `WitnessRuns.StrandedRun`).
- An omitted cached count is said never to undercharge. It can, by one nano-USD when the cached price is at
  most the input price. A tier is safe if and only if a whole
  price per token lies between its cached and its input price, or its threshold lies below the first input at which
  the rounding of the input price adds up to a nano-USD (`OmissionLaws.OmittedCachedExact`). `FirstLoss` is that input;
  at a cached price not above the input price a threshold T lies below it exactly when
  T * (inputDen - inputNum % inputDen) < inputDen (`FirstLossWithin`). The same condition, together with a total that
  fits in int64, is exact for the costs the engine returns (`OmittedCachedCostExact`) and for the bills of normalised
  responses (`NormalizerLaws.OmittedReportExact`, with the undercharged response in `ReportUnderbilled`). Beyond the
  threshold only a whole price in the long-context tier helps (`OmittedCachedBeyondExact`, `OmittedCachedCostBeyond`).
- The partition test of the normaliser adds doubles. From 2^53 on it can accept counts that exceed the input by one
  (`Doubles.PartitionTestExact`, `NormalizerLaws.LargeInputEscapesDomain`).
- Rates are filed under names joined with "::", and the lookup promises exact matches only. With providers and tiers
  free of colons and any model names a registration is seen by exactly the lookups that name it if and only if the two
  do not clash: one model's name is the other's name, "::" and tier, and the longer name goes by its short key
  (`PricingLookup.RegistrationIsExact`, with an instance in `ColonInModelNameCollides`).
- The checks before a dispatch claim and the guard of its UPDATE differ for rows without a provider and for an empty
  project name (`LedgerLaws.VerifyMeetsGuard`; the latter is reached in `WitnessRuns.EmptyProjectRun`, the former needs
  a reservation under an empty provider name, for which no rate can be registered).
- A settlement whose key already carries another reservation is taken for a retry and leaves its own reservation in
  flight (`AdapterLaws.EveryExitEndsFlight`, reached in `WitnessRuns.TakenKeyRun`).
- The OIDC adapter does not look at the boolean of the mark. That is harmless exactly when every mark took effect,
  which the 60-second reservation guarantees only to verifiers that finish in time
  (`VerifierProtocol.IgnoredBooleanMatters`, `TimelyVerifiersApproveOnce`, `LateVerifierSlipsThrough`).

Further facts are visible in the model: a record the history refuses is marked FAILED and never tried again, while
later records are delivered (`OutboxDrain.FailedForGood`); the adapter settles at the rate of the wrapped provider's
own name, not at that of the billing provider it reserved under; creating an account again forces its limit and makes
it ACTIVE, so the overrun law speaks of accounts created once; and releasing a nonce removes the reservation whoever
holds it.

## Model

| member | source | states |
|---|---|---|
| `BudgetTypes.CeilDiv` | packages/core/src/budget/budget-types.ts:208-216 | the result is the least integer whose product with the denominator reaches the numerator; a denominator that is not positive is refused, a numerator that is not positive gives 0 |
| `PricingEngine.PricingEngine.RegisterRate` | packages/core/src/budget/pricing-engine.ts:22-91 | a registration is accepted exactly for a named provider, a specific model and well-formed rates; only then the table changes, and every rate in it stays well-formed |
| `PricingLookup.RegistrationIsExact` | packages/core/src/budget/pricing-engine.ts:86-109 | with providers and tiers free of colons and any model names, a registration is seen by exactly the lookups that name its provider, model and tier, whatever was registered before, if and only if the two do not clash |
| `PricingLookup.ColonInModelNameCollides` | packages/core/src/budget/pricing-engine.ts:86-100 | an instance of the clash: a model name ending in "::tier" is found by lookups of that tier of another model |
| `PricingLaws.PricedExactlyWhen` | packages/core/src/budget/pricing-engine.ts:115-232 | a usage is priced exactly when its counts are integers in the domain, its context tier and its cache writes have prices, and the total fits in int64 |
| `PricingLaws.CostIsTierTotal` | packages/core/src/budget/pricing-engine.ts:181-225 | the cost is the sum of the four rounded charges at the tier the context length selects |
| `PricingLaws.CostBounds` | packages/core/src/budget/pricing-engine.ts:211-231 | the cost is at least the exact rational cost at the active tier and exceeds it by less than one nano-USD for each part that is not zero, and it fits in int64 |
| `PricingLaws.CostMonotone` | packages/core/src/budget/pricing-engine.ts:167-225 | more tokens never cost less within one context tier, nor across the long-context threshold when every long price is at least the short one |
| `PricingLaws.CostSplit` | packages/core/src/budget/pricing-engine.ts:211-231 | splitting a usage in two at one rate and within one context tier never lowers the returned cost and raises it by at most four nano-USD |
| `OmissionLaws.OmittedCachedWithinOne` | packages/core/src/budget/usage-normalizer.ts:277-299 | with the cached price at most the input price, counting cached tokens as ordinary input charges at least the true cost less one nano-USD |
| `OmissionLaws.OmittedCachedExact` | packages/core/src/budget/usage-normalizer.ts:295-299 | for all counts a tier prices up to a threshold, or for all counts when there is none, an omitted cached count never undercharges if and only if a whole price per token lies between the cached and the input price or the threshold is below the first loss |
| `OmissionLaws.FirstLossWithin` | packages/core/src/budget/usage-normalizer.ts:295-299 | with the cached price at most the input price, the first loss is within a threshold exactly when the rounding of that many single tokens adds up to a nano-USD |
| `OmissionLaws.LossIsLeast` | packages/core/src/budget/usage-normalizer.ts:295-299 | every undercharged count has at least as many tokens and costs at least as much as the first loss |
| `OmissionLaws.OmittedCachedBeyondExact` | packages/core/src/budget/pricing-engine.ts:167-200 | for all counts beyond a threshold the claim holds if and only if a whole price lies between the two prices of the long-context tier |
| `OmissionLaws.OmittedCachedCostExact` | packages/core/src/budget/pricing-engine.ts:115-232 | the cost returned for a usage of JavaScript numbers is never lowered by the omission if and only if the prices are safe up to the threshold or the first loss does not fit in int64; for requests short of the threshold and for requests that ask for the long context |
| `OmissionLaws.OmittedCachedCostBeyond` | packages/core/src/budget/pricing-engine.ts:167-232 | past the threshold a whole price in the long-context tier keeps every returned cost from being lowered, and without one every loss that passes the threshold and fits is lowered |
| `PricingLaws.DominatingRateCostsMore` | packages/core/src/budget/usage-normalizer.ts:385-401 | settling at a rate that is at least another in every price never charges less |
| `PricingMeaning.ShortContextCost` | packages/core/src/budget/pricing-engine.ts:167-232 | a cost short of the threshold is the sum of the four charges at the short prices of the rate, each rounded up: at least the exact rational cost, and by less than one nano-USD more for each part that is not zero |
| `PricingMeaning.LongContextCost` | packages/core/src/budget/pricing-engine.ts:167-232 | a cost in the long context is the same sum at the long prices, with the short cached and cache-write prices wherever the long tier gives only half of its own or none |
| `PricingMeaning.PricedExactly` | packages/core/src/budget/pricing-engine.ts:115-232 | a usage is priced exactly when its counts are whole and fit each other, a needed long-context price and cache-write price exist, and the four rounded charges fit in int64 |
| `PricingMeaning.RefusalReason` | packages/core/src/budget/pricing-engine.ts:115-232 | a refused usage is refused for the first of six reasons, in order: counts, partition, reasoning, long-context price, cache-write price, overflow |
| `PricingMeaning.AcceptedExactly` | packages/core/src/budget/pricing-engine.ts:22-64 | a registration is accepted exactly for a named provider, a specific model and prices that are not negative over positive denominators |
| `PricingMeaning.RegisteredPrices` | packages/core/src/budget/pricing-engine.ts:66-109 | a lookup by the names of a registration finds the prices it gave, a missing price as 0 and a missing denominator as 1 |
| `Doubles.RoundMonotone` | packages/core/src/budget/usage-normalizer.ts:347-354 | rounding to 53 significant bits, half to even, keeps the order of integers |
| `Doubles.PartitionTestExact` | packages/core/src/budget/usage-normalizer.ts:347-354 | the floating-point partition test agrees with the exact one for all counts if and only if adding 1 to the total is not lost to rounding; every total below 2^53 qualifies |
| `NormalizerLaws.NormalizedIsInPricingDomain` | packages/core/src/budget/usage-normalizer.ts:153-426 | on success the tier has a rate and is batch or flex only if reported, reasoning is within output, cached and cache-write are within input wherever adding 1 to the input is exact, and pricing can then fail only for a missing long-context or cache-write price or overflow |
| `NormalizerLaws.LargeInputEscapesDomain` | packages/core/src/budget/usage-normalizer.ts:347-354 | for every input whose successor is lost to rounding there is a report that normalises and that pricing then refuses |
| `NormalizerLaws.UnreportedDiscountNotGranted` | packages/core/src/budget/usage-normalizer.ts:385-401 | a batch or flex request whose response names no tier is settled as standard, which costs at least the requested tier when the standard rate dominates it |
| `NormalizerLaws.OmissionNormalizes` | packages/core/src/budget/usage-normalizer.ts:277-299 | a report without its cached fields still normalises, to the same usage with a cached count of 0 |
| `NormalizerLaws.OmissionCost` | packages/core/src/budget/usage-normalizer.ts:277-299 | leaving the cached fields out of a response lowers its bill by at most one nano-USD when the cached price is at most the input price, and never when a whole price lies between the two |
| `NormalizerLaws.OmittedReportExact` | packages/core/src/budget/usage-normalizer.ts:295-299 | over every response of an accepted endpoint billed at a rate short of its threshold, leaving the cached fields out never lowers the bill if and only if the prices are safe up to the threshold or the first loss does not fit in int64 |
| `NormalizerLaws.ReportUnderbilled` | packages/core/src/budget/usage-normalizer.ts:277-299 | each loss is a response that normalises, is billed, and is billed less without its cached field, in the short and in the long context |
| `NormalizerMeaning.SettledTier` | packages/core/src/budget/usage-normalizer.ts:360-401 | the first tier given by response, usage, raw metadata and metadata decides: default, scale and standard settle as standard, priority and fast as fast, any other text as itself in trimmed lower case, and with none given a requested fast stays fast and all else is standard; the bill is at the rate of that tier |
| `NormalizerMeaning.NormalizesExactly` | packages/core/src/budget/usage-normalizer.ts:153-426 | a response normalises exactly when the endpoint is accepted and of the expected kind, every count that is needed is there, given counts are whole and consistent, and the tier has a rate; the usage is then the counts read, each from the first field that is there |
| `NormalizerMeaning.NormalizationRefusedFor` | packages/core/src/budget/usage-normalizer.ts:153-426 | a response that does not normalise is refused for the first reason in the stated order |
| `BudgetDatabase.BudgetDatabase.Begin` | packages/core/src/budget/budget-database.ts:238-247 | a nested transaction joins the outer one, whose start is what a rollback restores |
| `BudgetDatabase.BudgetDatabase.End` | packages/core/src/budget/budget-database.ts:248-260 | only the outermost transaction commits or rolls back; after a rollback every table and the outbox are as at its start |
| `BudgetDatabase.BudgetDatabase.UpsertAccount` | packages/core/src/budget/budget-database.ts:264-308 | a new id inserts an account, an existing one keeps its balances and takes the limit and state given; a negative limit or a second account of one scope is refused |
| `BudgetDatabase.BudgetDatabase.GetGlobalAccount` | packages/core/src/budget/budget-database.ts:317-322 | finds the one GLOBAL account, if any |
| `BudgetDatabase.BudgetDatabase.UpdateAccountBalances` | packages/core/src/budget/budget-database.ts:331-358 | changes the given figures of one existing account and nothing else |
| `BudgetDatabase.BudgetDatabase.UpdateAccountLimit` | packages/core/src/budget/budget-database.ts:360-381 | sets the limit and derives the overrun state from committed spend |
| `BudgetDatabase.BudgetDatabase.ResetCommittedSpend` | packages/core/src/budget/budget-database.ts:383-403 | sets committed spend to zero, sets the limit and lifts an overrun |
| `BudgetDatabase.BudgetDatabase.CreateReservation` | packages/core/src/budget/budget-database.ts:513-549 | inserts exactly when the id and the idempotency key are unused and the account exists |
| `BudgetDatabase.BudgetDatabase.GetReservationByIdempotencyKey` | packages/core/src/budget/budget-database.ts:558-563 | finds the one row with the key, if any |
| `BudgetDatabase.BudgetDatabase.UpdateReservationState` | packages/core/src/budget/budget-database.ts:565-588 | changes state and, when given, settled amount of one row; an unknown id changes nothing |
| `BudgetDatabase.BudgetDatabase.ListPendingReservations` | packages/core/src/budget/budget-database.ts:590-607 | lists every PREPARED, DISPATCHED or UNKNOWN row once and no other |
| `BudgetDatabase.BudgetDatabase.ClaimReservationForDispatch` | packages/core/src/budget/budget-database.ts:697-784 | stores the claim exactly when the checks and the guard of the UPDATE pass; otherwise nothing changes |
| `BudgetDatabase.BudgetDatabase.SaveIdempotencyRecord` | packages/core/src/budget/budget-database.ts:801-813 | inserts a record under an unused key, refuses a used one |
| `ReservationEngine.PreDispatchValidator.CheckDispatch` | packages/core/src/budget/pre-dispatch-validator.ts:23-142 | answers the account to charge and the estimate, or the first reason not to dispatch in the order audit, account, state, price, funds |
| `LedgerMeaning.CheckPassesExactly` | packages/core/src/budget/pre-dispatch-validator.ts:23-142 | the check passes exactly for an ACTIVE account that can pay the price of the whole estimate at the rate of its provider, model and own tier, and answers that account and price |
| `LedgerMeaning.ReservationHoldsThePrice` | packages/core/src/budget/budget-reservation-engine.ts:25-78 | a reservation under a new key leaves a PREPARED row that holds the price of the whole estimate, at the rate of its provider, model and own tier, on the account charged, whose available funds cover it; nothing else changes |
| `LedgerMeaning.RefusedForFundsExactly` | packages/core/src/budget/pre-dispatch-validator.ts:98-135 | a request that meets every other condition is refused as over budget exactly when its price exceeds what is available, and accepted otherwise |
| `LedgerMeaning.ReservationRefusedFor` | packages/core/src/budget/budget-reservation-engine.ts:25-78 | a reservation is refused for the first reason in the order key, audit, state, price, funds, key constraint |
| `LedgerMeaning.EstimateSettlesWithinHold` | packages/core/src/budget/reconciliation-engine.ts:74-112 | settling the estimate itself at the rate it was reserved at has no overdraft |
| `LedgerMeaning.DispatchMeaning` | packages/core/src/budget/budget-reservation-engine.ts:84-110 | marking changes the state of one PREPARED row to DISPATCHED and nothing else, and is refused exactly for a missing row or another state |
| `LedgerMeaning.ClaimMeaning` | packages/core/src/budget/budget-database.ts:751-762 | a claim leaves its row DISPATCHED with count 1 and the claim id, and changes no other row, account or record |
| `LedgerMeaning.ClaimSucceedsExactly` | packages/core/src/budget/budget-database.ts:697-762 | a claim succeeds exactly for an unclaimed row in flight whose account, model and provider it names, with the project of the account unless that is the global one |
| `LedgerMeaning.ClaimRefusedFor` | packages/core/src/budget/budget-database.ts:697-784 | a claim is refused for the first reason in the stated order |
| `LedgerMeaning.ClaimSurvivesCrash` | packages/core/src/budget/budget-recovery-engine.ts:44-55 | recovery turns a claimed row UNKNOWN and counts it as moved |
| `LedgerMeaning.ClaimCanBeReleased` | packages/core/src/budget/reconciliation-engine.ts:148-195 | a claimed row can be released, which gives its hold back to its account |
| `ReservationEngine.BudgetReservationEngine.PrepareReservation` | packages/core/src/budget/budget-reservation-engine.ts:25-78 | a known key returns its reservation and changes nothing; otherwise balance, row and record are written together, or a violated key undoes the balance already written |
| `ReservationEngine.BudgetReservationEngine.MarkDispatched` | packages/core/src/budget/budget-reservation-engine.ts:84-110 | PREPARED becomes DISPATCHED, DISPATCHED stays, any other state is refused |
| `ReconciliationEngine.ReconciliationEngine.Settle` | packages/core/src/budget/reconciliation-engine.ts:28-141 | the stated transaction on the tables: replay by key, or hold moved into committed spend at the actual cost with the row SETTLED and the result on record |
| `ReconciliationEngine.ReconciliationEngine.Release` | packages/core/src/budget/reconciliation-engine.ts:148-195 | gives the hold of a PREPARED or DISPATCHED row back; a RELEASED row stays, SETTLED and UNKNOWN rows are refused |
| `ReconciliationEngine.ReconciliationEngine.RecordUnknown` | packages/core/src/budget/reconciliation-engine.ts:202-223 | any row that is not terminal becomes UNKNOWN and keeps its hold |
| `LedgerMeaning.SettlementMeaning` | packages/core/src/budget/reconciliation-engine.ts:28-141 | a first settlement takes the hold off the reserved spend, adds the price of the usage to committed spend, overruns the account exactly when that exceeds the limit, closes the row and keeps the result; the overrun event is emitted exactly when committed spend exceeds the limit afterwards |
| `LedgerMeaning.RetriedSettlementTells` | packages/core/src/budget/budget-manager.ts:573-607 | a retried settlement changes no table, and emits the overrun event exactly when the account of the row is overrun |
| `LedgerMeaning.SettlementRefusedFor` | packages/core/src/budget/reconciliation-engine.ts:28-84 | a settlement is refused for the first reason in the stated order |
| `LedgerMeaning.ReleaseMeaning` | packages/core/src/budget/reconciliation-engine.ts:148-195 | a release is accepted exactly for PREPARED, DISPATCHED and RELEASED rows, and gives the hold of the first two back; nothing else changes |
| `LedgerMeaning.UnknownMeaning` | packages/core/src/budget/reconciliation-engine.ts:202-223 | holding is accepted exactly for rows that are not terminal, and changes their state alone |
| `RecoveryEngine.BudgetRecoveryEngine.MovePending` | packages/core/src/budget/budget-recovery-engine.ts:36-62 | one pass over the pending rows in any order releases or moves each, and leaves a map that holds, for exactly the accounts with a surviving hold, the sum of their surviving holds |
| `RecoveryEngine.BudgetRecoveryEngine.AccountsToUpdate` | packages/core/src/budget/budget-recovery-engine.ts:64-76 | the list names the global account and every account with a surviving hold, each once |
| `RecoveryEngine.BudgetRecoveryEngine.Recalibrate` | packages/core/src/budget/budget-recovery-engine.ts:78-91 | every listed account gets its collected hold and its overrun state, every other account stays |
| `RecoveryEngine.BudgetRecoveryEngine.Recover` | packages/core/src/budget/budget-recovery-engine.ts:29-101 | the loops end in the tables and the report that the row-by-row and account-by-account description gives |
| `LedgerMeaning.RecoveredRowMeaning` | packages/core/src/budget/budget-recovery-engine.ts:39-62 | recovery turns PREPARED into RELEASED and DISPATCHED into UNKNOWN and leaves everything else of every row |
| `LedgerMeaning.RecoveredAccountMeaning` | packages/core/src/budget/budget-recovery-engine.ts:64-91 | the global account and every account with a DISPATCHED or UNKNOWN row reserve their UNKNOWN holds afterwards and are overrun exactly when committed spend exceeds the limit; all other accounts stay |
| `LedgerMeaning.RecoveryReportMeaning` | packages/core/src/budget/budget-recovery-engine.ts:39-99 | the report counts the rows by the state recovery found them in, and the accounts it recalibrated |
| `BudgetManager.BudgetManager.CreateGlobalAccount` | packages/core/src/budget/budget-manager.ts:351-377 | one transaction of the global account and its event; the object is in the state of the run extended by this call |
| `BudgetManager.BudgetManager.CreateProjectAccount` | packages/core/src/budget/budget-manager.ts:379-407 | the same for a project account |
| `BudgetManager.BudgetManager.UpdateBudgetLimit` | packages/core/src/budget/budget-manager.ts:424-449 | limit, state and event change together, or nothing does |
| `BudgetManager.BudgetManager.RolloverBudgetPeriod` | packages/core/src/budget/budget-manager.ts:454-487 | committed spend is carried into the event and reset, or nothing changes |
| `LedgerMeaning.CreationMeaning` | packages/core/src/budget/budget-manager.ts:351-407 | after creation the account has the limit given and is ACTIVE, a new one has no balances and an old one keeps its own; nothing else changes |
| `LedgerMeaning.CreationRefusedExactly` | packages/core/src/budget/budget-database.ts:264-308 | creation is refused exactly for a negative limit and for a second account of one scope under another id |
| `LedgerMeaning.LimitMeaning` | packages/core/src/budget/budget-manager.ts:424-449 | after an update the limit is the one given, and the account is overrun exactly when committed spend exceeds it, an overrun being lifted otherwise; nothing else changes |
| `LedgerMeaning.RolloverMeaning` | packages/core/src/budget/budget-manager.ts:454-487 | after a reset committed spend is 0 and carried in the event, the limit is the one given or the old one, an overrun is lifted, and reserved spend, rows and records stay |
| `BudgetManager.BudgetManager.Reserve` | packages/core/src/budget/budget-manager.ts:513-536 | the engine step joins the transaction of its event: both happen or neither |
| `BudgetManager.BudgetManager.MarkDispatched` | packages/core/src/budget/budget-manager.ts:538-557 | the dispatch and its event happen together or not at all |
| `BudgetManager.BudgetManager.ClaimReservationForDispatch` | packages/core/src/budget/budget-manager.ts:567-569 | the claim as one call of the run |
| `BudgetManager.BudgetManager.Settle` | packages/core/src/budget/budget-manager.ts:573-607 | settlement, its event and an overrun event happen together or not at all; a replay only adds events |
| `BudgetManager.BudgetManager.Release` | packages/core/src/budget/budget-manager.ts:611-626 | the release and its event happen together or not at all |
| `BudgetManager.BudgetManager.RecordUnknown` | packages/core/src/budget/budget-manager.ts:628-643 | the hold and its event happen together or not at all |
| `BudgetManager.BudgetManager.Recover` | packages/core/src/budget/budget-manager.ts:647-668 | recovery and its event as one call of the run |
| `BudgetManager.BudgetManager.Reachable` | packages/core/src/budget/budget-manager.ts:351-668 | at any time the object satisfies the ledger invariant |
| `LedgerSteps.ApplyKeeps` | packages/core/src/budget/budget-manager.ts:351-668 | every successful public operation keeps the ledger invariant |
| `LedgerInvariant.ClampNeverFires` | packages/core/src/budget/reconciliation-engine.ts:85-88 | in a reachable ledger the reserved spend covers the hold, so the subtraction of settle and release never stops at zero |
| `LedgerLaws.HoldsAreConserved` | packages/core/src/budget/reconciliation-engine.ts:85-108 | in every reachable state reserved spend is at least the sum of the pending holds, and equal to it for the global account and, on runs without recovery, for every account |
| `LedgerLaws.ExposureIsBounded` | packages/core/src/budget/pre-dispatch-validator.ts:115-135 | committed plus reserved spend never exceeds the highest limit the account had plus all settlement overdrafts; for an account created once LIMIT_OVERRUN holds exactly when committed spend exceeds the limit |
| `LedgerLaws.FittingSettlementsNeverOverrun` | packages/core/src/budget/reconciliation-engine.ts:92-96 | if no limit was lowered and every settlement fits its hold the account stays ACTIVE |
| `LedgerLaws.SpendIsExactlyOnce` | packages/core/src/budget/reconciliation-engine.ts:33-140 | committed spend plus what period resets carried out is the sum of the settled amounts, whatever was retried |
| `LedgerLaws.AuditTrailAgrees` | packages/core/src/budget/budget-manager.ts:573-607 | settlement events counted once for each reservation sum to lifetime committed spend, and repeated events agree |
| `LedgerLaws.RetriedSettlementIsInert` | packages/core/src/budget/reconciliation-engine.ts:34-50 | a later settlement under the same key moves nothing and repeats the first result, or fails on an unknown reservation |
| `LedgerLaws.RetriedReservationIsInert` | packages/core/src/budget/budget-reservation-engine.ts:31-35 | a later reservation under the same key returns the first one and changes nothing |
| `LedgerLaws.KeysAreUnique` | packages/core/src/budget/budget-database.ts:155-169 | the idempotency records alone already keep the keys of the rows unique |
| `LedgerLaws.RecoveryIsExact` | packages/core/src/budget/budget-recovery-engine.ts:64-91 | after recovery an account reserves exactly its UNKNOWN holds if and only if recovery revisited it or it had nothing reserved |
| `LedgerLaws.RecoveryClearsInFlight` | packages/core/src/budget/budget-recovery-engine.ts:39-62 | after recovery nothing is PREPARED or DISPATCHED and the reported total is the sum of the UNKNOWN holds |
| `LedgerLaws.RecoveryIsIdempotent` | packages/core/src/budget/budget-recovery-engine.ts:29-101 | a second recovery changes no table and reports nothing released or moved |
| `LedgerLaws.StrandedReservedSpend` | packages/core/src/budget/budget-recovery-engine.ts:64-76 | in every run that reserves for a project account without pending rows and then recovers, the row is released, nothing is held, and the account keeps the cost reserved |
| `WitnessRuns.StrandedRun` | packages/core/src/budget/budget-recovery-engine.ts:64-76 | create a project, reserve its limit, recover: the whole limit stays reserved, nothing is held and nothing is available |
| `LedgerLaws.DispatchDecidesRecovery` | packages/core/src/budget/budget-recovery-engine.ts:39-55 | a crash after the dispatch mark leaves the hold UNKNOWN, one before it releases the reservation |
| `LedgerLaws.ReleaseUndoesReservation` | packages/core/src/budget/reconciliation-engine.ts:176-193 | releasing a fresh reservation restores every balance |
| `LedgerLaws.SingleDispatch` | packages/core/src/budget/budget-database.ts:736-762 | in every run a dispatch count is at most 1, and 1 exactly when a claim is stored |
| `LedgerLaws.ClaimOnlyOnce` | packages/core/src/budget/budget-database.ts:722-729 | after a claim every later claim of the row is refused and the first one stays |
| `LedgerLaws.VerifyMeetsGuard` | packages/core/src/budget/budget-database.ts:736-748 | for an unclaimed row and full bindings the guard implies the checks, and the checks imply the guard exactly when the row names a provider and its account no empty project |
| `WitnessRuns.EmptyProjectRun` | packages/core/src/budget/budget-database.ts:722-762 | a reservation of the project with the empty name passes the checks of a claim that names another project, and the guard refuses it as already consumed |
| `LifeCycle.RunFollows` | packages/core/src/budget/reconciliation-engine.ts:148-223 | over any calls no row, record or event is lost, terms never change, states only rise, terminal rows are final and UNKNOWN leaves only by settlement |
| `LifeCycle.AtMostThreeChanges` | packages/core/src/budget/reconciliation-engine.ts:148-223 | a row changes state at most three times |
| `BudgetAwareLlmAdapter.BudgetAwareLlmAdapter.Dispatch` | packages/core/src/budget/budget-aware-llm-adapter.ts:163-210 | the steps up to the provider call, as the protocol without interference describes them |
| `BudgetAwareLlmAdapter.BudgetAwareLlmAdapter.Complete` | packages/core/src/budget/budget-aware-llm-adapter.ts:214-272 | the steps after the provider call, as the protocol without interference describes them |
| `AdapterLaws.EveryExitEndsFlight` | packages/core/src/budget/budget-aware-llm-adapter.ts:214-272 | after the provider the reservation is UNKNOWN or terminal, for every provider behaviour and interference, except exactly when it was in flight, the reply normalises and the settlement key already carries another reservation |
| `WitnessRuns.TakenKeyLeavesFlight` | packages/core/src/budget/budget-aware-llm-adapter.ts:163-272 | from every reachable ledger in which the settlement key of a call carries another reservation, a call that opens and gets a reply that normalises returns with its reservation in flight |
| `WitnessRuns.TakenKeyRun` | packages/core/src/budget/budget-aware-llm-adapter.ts:163-272 | create the global account, reserve, settle under the settlement key of a later call: that call ends with its reservation in flight |
| `AdapterLaws.EarlyExitEndsFlight` | packages/core/src/budget/budget-aware-llm-adapter.ts:171-192 | an exit between reservation and provider leaves the reservation out of flight |
| `AdapterLaws.CallNeverStrandsItsHold` | packages/core/src/budget/budget-aware-llm-adapter.ts:163-273 | among clients that respect its two keys every call, first or retried, ends with its reservation UNKNOWN or terminal, whatever others do at any point |
| `AdapterLaws.RunKeepsPairing` | packages/core/src/budget/budget-aware-llm-adapter.ts:158-159 | such clients never put another reservation under the settlement key |
| `AdapterLaws.KeysAreInjective` | packages/core/src/budget/budget-aware-llm-adapter.ts:158-159 | two calls share a key only with equal correlation and attempt |
| `AdapterLaws.OutOfFlightForGood` | packages/core/src/budget/budget-aware-llm-adapter.ts:214-272 | a reservation out of flight is never in flight again |
| `AdapterLaws.OnlySettlementSpends` | packages/core/src/budget/reconciliation-engine.ts:90-108 | no public operation but settlement and rollover touches committed spend |
| `AdapterLaws.SettlementSpendsThePrice` | packages/core/src/budget/reconciliation-engine.ts:74-108 | a first settlement adds the price of the reported usage, at the rate of the given provider for the model of the row, to the account of the row alone; a replay adds nothing |
| `AdapterLaws.AdapterCallsRespect` | packages/core/src/budget/budget-aware-llm-adapter.ts:158-159 | every other adapter call and every retry is such a client |
| `AdapterLaws.BilledCallSpendsThePrice` | packages/core/src/budget/budget-aware-llm-adapter.ts:238-272 | a call that returns on a normalised report adds the price of that usage, at the rate of the wrapped provider, to the account of the reservation alone, and a retried settlement adds nothing |
| `AdapterLaws.UnbilledCallSpendsNothing` | packages/core/src/budget/budget-aware-llm-adapter.ts:214-272 | committed spend is untouched unless a report normalised and the call returned |
| `AdapterLaws.OpeningSpendsNothing` | packages/core/src/budget/budget-aware-llm-adapter.ts:161-192 | checking, reserving and dispatching spend nothing, so the estimate is never settled |
| `AdapterMeaning.OpeningFails` | packages/core/src/budget/budget-aware-llm-adapter.ts:129-171 | an endpoint refused, a check failed or a reservation refused ends the call with that error and no reservation; the reservation is of the whole estimate, billed to the provider of the endpoint on the global account |
| `AdapterMeaning.OpeningDispatches` | packages/core/src/budget/budget-aware-llm-adapter.ts:173-176 | a PREPARED reservation is marked dispatched before the provider is asked, a retried one that was dispatched goes on as it is, and one that left PREPARED meanwhile ends the call |
| `AdapterMeaning.ProviderFailureFails` | packages/core/src/budget/budget-aware-llm-adapter.ts:194-216 | a failing provider makes the call fail, with the reservation UNKNOWN |
| `AdapterMeaning.MissingPriceThrows` | packages/core/src/budget/budget-aware-llm-adapter.ts:218-226 | without a price in memory or in the database the call throws, with the reservation UNKNOWN |
| `AdapterMeaning.UnclearReportReturns` | packages/core/src/budget/budget-aware-llm-adapter.ts:228-248 | a report that does not normalise returns the response, with the reservation UNKNOWN |
| `AdapterMeaning.ClearReportSettles` | packages/core/src/budget/budget-aware-llm-adapter.ts:250-272 | a report that normalises is settled under the key of the call at the rate of the wrapped provider and the response returned; a settlement that fails throws its error, with the reservation UNKNOWN if it still can be |
| `OutboxDrain.OutboxDrainer.GetPendingOutboxRecords` | packages/core/src/budget/budget-database.ts:854-874 | the first pending records in order of creation, up to the limit; whatever else is pending comes later |
| `OutboxDrain.OutboxDrainer.DoDrainOutbox` | packages/core/src/budget/budget-manager.ts:293-333 | the batches of 50 amount to handling the records one by one in order until the first refusal or the death of the process, and the count is the number of deliveries |
| `OutboxDrain.HistoryIsExact` | packages/core/src/budget/budget-manager.ts:276-333 | over any drains, refused or cut short, the history holds every delivered record exactly once and in order of creation, and beyond delivered and failed records at most the first pending one |
| `OutboxDrain.FailedForGood` | packages/core/src/budget/budget-manager.ts:323-328 | a failed record stays failed in every later run |
| `OutboxDrain.DrainMeaning` | packages/core/src/budget/budget-manager.ts:293-333 | up to the first pending record that is refused or that the process dies on every pending record is delivered; that record has failed or stays pending, all others are not touched |
| `OutboxDrain.DrainCounts` | packages/core/src/budget/budget-manager.ts:293-333 | the count returned is the number of records delivered |
| `OutboxDrain.DrainTells` | packages/core/src/budget/budget-manager.ts:293-333 | the history gains exactly the delivered records and the one the process died on |
| `Nonces.SafeSum` | packages/core/src/authorization/nonce-store.ts:66-72 | a JavaScript sum that passes the safe-integer check is the exact sum, and the check fails exactly when the exact sum is out of range |
| `NonceLaws.RetentionIsLatest` | packages/core/src/authorization/nonce-store.ts:125-266 | a retention time is the latest of default retention, stated expiry plus skew and stated duration; none is granted exactly when an argument or one of those times is no safe integer |
| `NonceStore.NonceStore.ReadStateUnderLock` | packages/core/src/authorization/nonce-store.ts:479-655 | validation and both pruning loops give the stated view of the file |
| `NonceStore.NonceStore.ReserveNonce` | packages/core/src/authorization/nonce-store.ts:661-695 | the stated step on the file: refused when seen or reserved, otherwise reserved until now plus the duration |
| `NonceStore.NonceStore.ReleaseReservation` | packages/core/src/authorization/nonce-store.ts:701-716 | removes a reservation, whoever holds it, and nothing else |
| `NonceStore.NonceStore.MarkNonceSeen` | packages/core/src/authorization/nonce-store.ts:725-760 | the stated step: false when seen, otherwise seen with its retention time and no longer reserved |
| `NonceStore.NonceStore.MarkNoncesSeenBatch` | packages/core/src/authorization/nonce-store.ts:765-802 | marks each unseen nonce of the batch once and counts them |
| `NonceStore.NonceStore.IsNonceSeen` | packages/core/src/authorization/nonce-store.ts:808-828 | true exactly when seen or reserved at the second reading of the clock |
| `NonceLaws.NonceIsSingleUse` | packages/core/src/authorization/nonce-store.ts:624-760 | with a clock that never goes back, a consumed nonce is accepted by no mark, batch, reservation or check that starts before its retention time, which is at least the default retention after the mark and at least the stated expiry plus skew |
| `NonceLaws.LegacyIsNeverAccepted` | packages/core/src/authorization/nonce-store.ts:638-652 | a seen entry without a timestamp is never accepted again |
| `NonceLaws.MarkSucceedsExactlyWhen` | packages/core/src/authorization/nonce-store.ts:725-760 | a valid mark on a readable file succeeds exactly when the nonce is not on record or its retention time has come |
| `NonceLaws.RunClean` | packages/core/src/authorization/nonce-store.ts:661-802 | a file that started empty lists every nonce once, has no nonce both seen and reserved, gives every seen nonce a time and always reads back |
| `NonceMeaning.ReadableExactly` | packages/core/src/authorization/nonce-store.ts:479-620 | a file is read exactly when it parses, names no empty nonce and has only safe integers as times |
| `NonceMeaning.SeenExactly` | packages/core/src/authorization/nonce-store.ts:808-828 | a nonce reads as seen exactly when it is on record or on hold |
| `NonceMeaning.ReserveMeaning` | packages/core/src/authorization/nonce-store.ts:661-695 | a reservation succeeds exactly for a nonce neither on record nor on hold, holds it for exactly the duration, and leaves every other nonce as it was |
| `NonceMeaning.ReserveFailsFor` | packages/core/src/authorization/nonce-store.ts:661-695 | a reservation fails exactly for a blank nonce, a bad duration, an unreadable file, a bad clock or a sum out of range, in this order, and then changes nothing |
| `NonceMeaning.ReservedUntilItEnds` | packages/core/src/authorization/nonce-store.ts:661-828 | a reserved nonce reads as seen and cannot be reserved until its reservation ends, and reads as unseen and can be reserved afterwards |
| `NonceMeaning.ReleaseMeaning` | packages/core/src/authorization/nonce-store.ts:701-716 | a release ends the hold of the nonce and changes nothing else |
| `NonceMeaning.ReleasedIsFree` | packages/core/src/authorization/nonce-store.ts:661-716 | a released nonce reads as unseen and can be reserved again unless it is on record |
| `NonceMeaning.MarkMeaning` | packages/core/src/authorization/nonce-store.ts:725-760 | a mark succeeds exactly for a nonce not on record, keeps it on record until its retention time, ends its hold and leaves every other nonce as it was |
| `NonceMeaning.BatchMeaning` | packages/core/src/authorization/nonce-store.ts:765-802 | a batch marks exactly the nonces of its list that are not on record, counts each once and leaves all others as they were |
| `VerifierProtocol.TimelyVerifiersApproveOnce` | packages/core/src/authorization/trusted-identity-adapters.ts:1257-1301 | if every verifier marks or releases before its reservation lapses, then in every interleaving no VERIFIED outcome falls before the retention time of an earlier one |
| `VerifierProtocol.IgnoredBooleanMatters` | packages/core/src/authorization/trusted-identity-adapters.ts:1456-1471 | without that assumption the same holds if and only if every ignored boolean of the mark was true |
| `VerifierProtocol.LateVerifierSlipsThrough` | packages/core/src/authorization/trusted-identity-adapters.ts:1456-1471 | a verifier that finishes after its reservation lapsed ends VERIFIED a millisecond after another one |
| `VerifierProtocol.StartHoldsTheNonce` | packages/core/src/authorization/trusted-identity-adapters.ts:1257-1301 | a verifier starts exactly when the nonce is neither on record nor on hold, and holds it for a minute |
| `VerifierProtocol.FailureFreesTheNonce` | packages/core/src/authorization/trusted-identity-adapters.ts:1257-1301 | a verifier that fails ends the hold of the nonce and changes nothing else |
| `VerifierProtocol.PassRecordsTheNonce` | packages/core/src/authorization/trusted-identity-adapters.ts:1456-1471 | a verifier whose mark does not throw reports VERIFIED whatever the mark answers, with the nonce on record; one whose mark throws goes on holding it |
| `LockQueue.InProcessLocks.WithInProcessLock` | packages/core/src/authorization/nonce-store.ts:309-325 | a call takes the present tail and puts its own in the map |
| `LockQueue.InProcessLocks.RunOperation` | packages/core/src/authorization/nonce-store.ts:327-329 | a waiting call starts only after the tail it found has settled |
| `LockQueue.InProcessLocks.Finally` | packages/core/src/authorization/nonce-store.ts:330-335 | the lock is resolved and the entry removed only if no newer call replaced it |
| `LockQueue.OneAtATimeInOrder` | packages/core/src/authorization/nonce-store.ts:307-336 | when an operation has started every earlier one on its path is done, whichever failed |
| `LockQueue.EveryWaiterIsServed` | packages/core/src/authorization/nonce-store.ts:307-336 | once arrivals cease the turns are bounded, and when none is left every call is done and the map is empty |
| `IpAddress.IpV4ToNumber` | packages/core/src/authorization/trusted-identity-adapters.ts:152-164 | four decimal octets without leading zeros give their 32-bit number, shifts and ors being sums; any other text none |
| `IpAddress.MaskTest` | packages/core/src/authorization/trusted-identity-adapters.ts:173-174 | the masked comparison holds exactly when the number lies in the aligned block of the prefix |
| `IpAddress.BlockIsInterval` | packages/core/src/authorization/trusted-identity-adapters.ts:251-256 | agreement above the low bits is membership in an interval |
| `IpAddress.IsForbiddenIpv4` | packages/core/src/authorization/trusted-identity-adapters.ts:169-179 | true exactly when the number lies in a block of the table |
| `IpAddress.ParseIpv6` | packages/core/src/authorization/trusted-identity-adapters.ts:186-246 | the loops give the eight words of the parsed groups and their 128-bit number, shift and or being base-65536 digits |
| `IpAddress.IsPrivateOrSpecialIp` | packages/core/src/authorization/trusted-identity-adapters.ts:263-314 | the verdict in terms of parsed words: refused when empty or unparsable, otherwise by the tables and the embedded IPv4 address |
| `QuadTexts.NumberExactlyWhen` | packages/core/src/authorization/trusted-identity-adapters.ts:152-164 | a text gets a number exactly when, outer spaces aside, it is four octets up to 255 joined by dots, each written without leading zeros |
| `QuadTexts.NumberOfDotted` | packages/core/src/authorization/trusted-identity-adapters.ts:152-164 | that number has the four octets as its bytes, the first one highest |
| `QuadTexts.DigitsAndDotsVerdict` | packages/core/src/authorization/trusted-identity-adapters.ts:263-280 | a text of digits and dots is let through exactly when it is a canonical quad of no special address, so that leading zeros and missing, extra, empty or too large parts are refused |
| `QuadTexts.AcceptsExactlyTheDottedForms` | packages/core/src/authorization/trusted-identity-adapters.ts:186-240 | a text with a dot parses to words exactly when its last two groups are written as a canonical quad in a full or elided form |
| `QuadTexts.BadTailRefused` | packages/core/src/authorization/trusted-identity-adapters.ts:197-208 | an IPv6 text whose tail has a dot but is no canonical quad is refused, however decorated |
| `QuadTexts.AllowedExactlyWhen` | packages/core/src/authorization/trusted-identity-adapters.ts:263-314 | exactly two kinds of text are let through: canonical quads of no special address, and texts that parse to words which neither are special nor carry a special IPv4 address |
| `IpParsing.FullFormParses` | packages/core/src/authorization/trusted-identity-adapters.ts:228-240 | eight groups joined by colons parse to their eight values |
| `IpParsing.ElidedFormParses` | packages/core/src/authorization/trusted-identity-adapters.ts:210-227 | up to seven groups around one double colon parse to their values with zeros in its place |
| `IpParsing.ElisionKeepsAddress` | packages/core/src/authorization/trusted-identity-adapters.ts:210-227 | replacing any run of zero groups by a double colon does not change the parsed address |
| `IpParsing.AcceptsExactlyTheForms` | packages/core/src/authorization/trusted-identity-adapters.ts:186-240 | without a dotted quad exactly the full and elided forms are accepted |
| `IpParsing.DottedQuadIsTwoGroups` | packages/core/src/authorization/trusted-identity-adapters.ts:197-208 | after any text that ends in a colon a dotted quad parses as its two hexadecimal groups do |
| `IpParsing.FullQuadParses` | packages/core/src/authorization/trusted-identity-adapters.ts:197-208 | six groups and a dotted quad parse to the six values and the two halves of the quad |
| `IpParsing.ElidedQuadParses` | packages/core/src/authorization/trusted-identity-adapters.ts:197-227 | the same with a double colon among at most five groups |
| `IpParsing.DecorationsIgnored` | packages/core/src/authorization/trusted-identity-adapters.ts:188-189 | brackets and a zone do not change the parsed address |
| `IpParsing.CaseIgnored` | packages/core/src/authorization/trusted-identity-adapters.ts:188-189 | letter case does not change the parsed address |
| `Ipv4Table.Ipv4TableMeaning` | packages/core/src/authorization/trusted-identity-adapters.ts:115-132 | the prefix table, read through parser and masks, forbids exactly the listed octet patterns |
| `IpLaws.Ipv6TableMeaning` | packages/core/src/authorization/trusted-identity-adapters.ts:135-147 | the prefix table, read through parser and shift test, forbids exactly the listed word patterns |
| `IpLaws.VerdictOnWords` | packages/core/src/authorization/trusted-identity-adapters.ts:283-313 | an IPv6 address is forbidden exactly when its words are special or the IPv4 address in them is forbidden |
| `IpLaws.SameVerdictInEveryForm` | packages/core/src/authorization/trusted-identity-adapters.ts:263-314 | for every IPv4 address the dotted, compatible, mapped and translated texts get one verdict |
| `IpVerdicts.VerdictOnCore` | packages/core/src/authorization/trusted-identity-adapters.ts:264-276 | the verdict on a text is that on what is left once brackets, zone and outer spaces are gone; the test for a blank text is subsumed |
| `IpVerdicts.BareMeaning` | packages/core/src/authorization/trusted-identity-adapters.ts:188-189 | one opening bracket in front and one closing bracket at the end are dropped, each with or without the other, and then everything from the first percent sign on |
| `IpVerdicts.ReadsTheCore` | packages/core/src/authorization/trusted-identity-adapters.ts:188-189 | what is parsed is the core in lower case |
| `IpVerdicts.GroupExactly` | packages/core/src/authorization/trusted-identity-adapters.ts:228-240 | a group is one to four hexadecimal digits of either case, and its value fits 16 bits |
| `IpVerdicts.DecorationsKeepVerdict` | packages/core/src/authorization/trusted-identity-adapters.ts:264-276 | brackets and a zone do not change the verdict |
| `IpVerdicts.CaseKeepsVerdict` | packages/core/src/authorization/trusted-identity-adapters.ts:186-189 | letter case does not change the verdict |
| `IpVerdicts.DottedVerdict` | packages/core/src/authorization/trusted-identity-adapters.ts:115-179 | a dotted quad is forbidden exactly when its octets match one of the listed patterns |
| `IpVerdicts.VerdictOfAnyText` | packages/core/src/authorization/trusted-identity-adapters.ts:263-313 | every text that parses to words, however decorated, is judged by its words alone |
| `IpVerdicts.SixToFourVerdictAgrees` | packages/core/src/authorization/trusted-identity-adapters.ts:308-311 | every text of a 6to4 address, however decorated, gets the verdict of its IPv4 address |

## Left out

- SQLite itself: pragmas, column migrations, opening and closing, busy timeouts, I/O failures, and the limits of its
  64-bit integers and of numbers bound as doubles. Tables are maps with their key, foreign-key and check constraints.
- Session, `taskId` and correlation labels, rate ids, validity dates, ISO timestamps, event payload text and error messages.
  The order of pending rows by creation time is left open; every order is covered.
- Creation times of outbox records: the source sorts them by a timestamp of milliseconds with no second key, and the
  model by their record number, which is that order as long as no two records share a millisecond.
- `usdToNanoUsd` and its float arithmetic: limits arrive as whole nano-USD.
- The `pricing_rates` table: the adapter gets its answer as a parameter. The built-in price list is data; the laws
  hold for every valid rate.
- Endpoint audit and URL policy: their verdict is a parameter of the validator, the normaliser and the adapter.
- Token estimation from message text: the estimate is an arbitrary usage.
- Two drains at once: drains run one after another, no record is added in the middle of one, and an append to the
  history is one atomic step. The connection is open throughout a drain.
- Texts that the source tests for truth are optional values: an empty text and a missing one are one case.
- Letters outside ASCII in case folding, sums of token counts beyond the range of doubles, and object keys that
  JavaScript treats specially, such as `__proto__`.
- JSON parsing of the nonce file: a file that does not parse to one of the two formats is one case, `Unreadable`.
  The store's constructor check of its options is repeated by every mark and is modelled there.
- The cross-process file lock: each operation on the file is one atomic step.
- Of the OIDC adapter everything but reserving, releasing and marking the nonce; a dry run counts as an operation
  that changes nothing.
- HTTP, DNS, key sets, token signatures, certificates, hashing and random ids: fresh ids and provider behaviour are
  arbitrary inputs.
- Approval packages, authorization policy, dispatch, clarification, discovery, command line and build adapters.
- ReservationEngine.BudgetReservationEngine.PrepareReservation: the row is returned by its id rather than as a copy.
- BudgetDatabase.BudgetDatabase.ListPendingReservations: the optional filter by account has no caller and is not modelled.
- BudgetDatabase.BudgetDatabase.UpsertAccount: the balances and state of a new account are those the manager passes,
  zero and ACTIVE; no other caller exists.
- ReservationEngine.PreDispatchValidator.CheckDispatch: the non-strict mode, which returns the same reasons instead of
  throwing them, has no caller and is not modelled.
- OmissionLaws.OmittedCachedCostBeyond: past the threshold the failing half is stated for the counts of `LossCounts`
  that pass the threshold and fit; where none of them fits in int64, only the safe half is stated.
- OmissionLaws.OmittedCachedCostExact: for a denominator above 2^53 - 1 only the safe half is stated, because the
  cheapest undercharged count need not be a JavaScript number; the same holds of `NormalizerLaws.OmittedReportExact`.
- PricingLookup.RegistrationIsExact: providers and tiers with a colon are not covered.
