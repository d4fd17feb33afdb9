# Paper-trading engine: a verified model

A Dafny model of the accounting, crash and replay behaviour of the paper-trading
engine and of the deterministic backtester beside it, with proofs over every
input, run and reachable state. `dafny verify dfyconfig.toml` checks all of it.

Money and prices are exact reals; a database transaction is one atomic step; a
crash stops a process after any number of completed steps; files are values with
exclusive creation and atomic replacement. Each imperative class is proved equal,
method by method, to a function of its old state, and the theorems are about
those functions. For each main operation one theorem says what it comes to in the
fields of its inputs alone, without the functions that compute it.

| files | what they model |
|---|---|
| Common, Grid, Quantities, QuantityRules | exchange quantity rules: the two grids, the limits, the rejection reasons, the rule evidence and its re-derivation |
| Broker, BrokerTargets, BrokerFills, BrokerSolvency, BrokerTrace, BrokerLedger, BrokerDrift, BrokerIntents, BrokerCommits | the weekly execution as one function of the tables; sizing, fills, solvency, ledgers, drift, equity, intents, which executions commit |
| Reconcile, AuditGuarantees, BrokerRows, BrokerAudit, BrokerWeeks, BrokerExactAudit | the audit, written from the persisted rows alone, and exactly when whole histories of the writer satisfy it |
| PaperBroker | the same execution and audit as classes with loops |
| Lifecycle, LifecycleRuns, LifecycleSafety, PaperSystem | how runs end, schedule keys, crashes, recovery, kill switch; exactly-once trading |
| Publication, CanonicalPipeline | dataset publication across a row, an immutable file and a pointer |
| Notifications, NotificationRulings, NotificationService | the notification outbox with ambiguous outcomes |
| Backtest, BacktestSignals, BacktestFills, BacktestSafety, EventDrivenBacktester | bar loop: signal bars, orders, fills, costs; solvency and no look-ahead |
| Portfolio, PortfolioRules, Strategy, StrategyRules | weights and signal |
| ExperimentLedger, ExperimentGate, ChronologicalSplit | experiment records, stages and periods |
| MissedWindows, ImportClosure | schedule audit and import worklist |

## Where a promise fails

Some promises hold only under a condition. Each condition is proved exact, and a
concrete input shows what goes wrong without it.

- A position equals its ledger exactly when no sell leaves a positive remainder
  within the tolerance (BrokerDrift.ExecuteNoDriftExactly, NoDriftExactly); each
  such remainder is lost for good (DriftIsStranded), and two ordinary weeks can
  lose one (SnapDrifts). Equity conservation fails by the same remainders
  (ExecuteEquityExactly). Quantities on a common unit above the tolerance never
  leave one (BrokerLedger.ExecuteOnUnits).
- The audit re-derives a rejection reason exactly when the limit it names is a raw
  rule value (Quantities.AuditAgreesExactly). The parser fills missing minima and
  maxima from convenience limits the audit never sees
  (Quantities.FloatFallbackEscapesAudit).
- The audit accepts a recorded PRICE_RANGE row exactly when the rule is
  enforceable or no reference price was observed
  (Quantities.RangeAuditAgreesExactly): the broker records the observed price
  also for absent rules (src/paper_broker.py:962-965), the audit expects none
  (src/paper_store.py:1487-1488).
- Together: the audit accepts a whole history exactly when every committed week
  recorded valid evidence and met neither of the last two, and the lost
  remainders of each symbol sum to at most the tolerance
  (BrokerExactAudit.ReconcilesExactly).
- Two-grid flooring is not always the greatest executable quantity: unrelated
  steps and the early maximum test refuse requests that a smaller quantity would
  satisfy (Quantities.LotMismatchReachable, Quantities.EarlyMaximumRefuses);
  Quantities.AcceptedExactly is the exact condition.
- Publication is safe exactly when no exception follows the completing update
  (Publication.SafeExactlyWhenRaisedInTime).
- At-most-once delivery needs more than true rulings
  (NotificationRulings.TruthAloneDeliversTwice): "not delivered" is safe exactly
  when, besides, no sender of the notification is in its call or holds a definite
  failure it has not recorded (RulingSafeExactly). The one-to-one match of
  ambiguous attempts and notifications needs the sender dead (RulingInStepExactly).
- The chronological split is proper exactly when the lookback is positive or the
  week does not change from the last bar back to the first
  (ChronologicalSplit.SplitProperExactly, ZeroLookbackWraps).
- The lock does not freeze the finalists (ExperimentGate.LockedFinalistExactly,
  LockedLosesFinalist).

## Model

| member | source | states |
|---|---|---|
| Grid.FloorStepGreatest | src/paper_broker.py:660-665 | flooring to a step gives the largest multiple of the step not above the value |
| Grid.AlignedIffOnGrid | src/paper_broker.py:667-669 | the floor-and-multiply alignment test holds exactly of multiples of the step |
| Quantities.AcceptedExactly | src/paper_broker.py:629-763 | a request is accepted, and as n, if and only if n is the double floor, n passes every grid, quantity and notional filter, and the lot floor is not above the maximum |
| Quantities.AcceptedIsGreatest | src/paper_broker.py:715-750 | an accepted quantity is the greatest value on both the LOT_SIZE and MARKET_LOT_SIZE grids not above the request |
| Quantities.MarketMismatchUnreachable | src/paper_broker.py:741-742 | the market-step mismatch branch is never taken |
| Quantities.NestedStepsComplete | src/paper_broker.py:715-750 | when one step divides the other, lot-step mismatch is unreachable, and a request is accepted exactly when the greatest common-grid value is executable and the early maximum test passes |
| Quantities.LotMismatchReachable | src/paper_broker.py:749-750 | the normaliser with steps 2 and 3 refuses a request for 11 although it accepts 6 |
| Quantities.EarlyMaximumRefuses | src/paper_broker.py:726-729 | the normaliser applies the maximum to the lot floor: it refuses 12 although the greatest value on both grids, 10, is executable |
| Quantities.NormalizeIdempotent | src/paper_broker.py:629-763 | normalising an accepted quantity again returns it unchanged |
| Quantities.NormalizeMonotone | src/paper_broker.py:629-763 | of two accepted requests the larger never yields the smaller quantity |
| QuantityRules.NormalizeExactly | src/paper_broker.py:629-763 | with rules a request is accepted, and as n, if and only if it exceeds the tolerance, the symbol trades and takes MARKET orders, every limit in force is sane, bounds leave room, the reference price is positive, n is the double floor, passes every filter, and the lot floor is not above the maximum |
| QuantityRules.NormalizeWithoutRules | src/paper_broker.py:640-645 | without rules a request is taken unchanged, refused as too small, or refused for missing rules, exactly when |
| QuantityRules.FaultyRulesExactly | src/paper_broker.py:645-714 | which refusal faulty rules get, for each of the four: not tradable, MARKET not allowed, invalid, reference unverifiable |
| QuantityRules.QuantityRefusalsExactly | src/paper_broker.py:715-750 | which quantity reason refuses a request, for each of them, by the first check that fails |
| QuantityRules.ReferenceExactly | src/paper_broker.py:615-627 | notional filters are measured at the fetched reference price, at nothing where an average is needed, else at the last trade |
| QuantityRules.RangeDecidedExactly | src/paper_broker.py:92-148 | when a PRICE_RANGE evaluation raises, is not enforced, lacks evidence, refuses or accepts, with buys held to the bid and sells to the ask multipliers |
| Quantities.AuditAgreesExactly | src/paper_store.py:1253-1363 | for rules whose steps the audit sees and valid evidence, every accepted quantity passes the audit, and a rule-based rejection reason is the one the audit re-derives if and only if the limit it names is a raw value |
| Quantities.ParsedStepsAudited | src/paper_market.py:389-410 | parsed rules always have such steps: the parser never takes a step from the convenience limits |
| Quantities.AuditAgrees | src/paper_store.py:1253-1363 | where no float limit stands in for a missing quantity limit every rule-based rejection reason is re-derived |
| Quantities.FloatFallbackEscapesAudit | src/paper_broker.py:671-679 | a parsed rule with a convenience minimum refuses what the audit cannot explain |
| Quantities.RangeAuditAgreesExactly | src/paper_store.py:1472-1528 | the audit accepts the recorded PRICE_RANGE row if and only if the rule is enforceable or no reference price was observed |
| Quantities.AbsentRangeRowMismatch | src/paper_broker.py:938-970 | a decision on an absent rule with an observed reference price records a row the audit refuses |
| BrokerSolvency.TermsOrdered | src/paper_broker.py:848-869 | buys execute at or above the spread-adjusted price and mid, sells at or below them and above zero |
| BrokerSolvency.FillSellsSolvent | src/paper_broker.py:1276-1277 | covered sells never fail for cash or division, never lower cash and leave no short |
| BrokerSolvency.FillBuysSolvent | src/paper_broker.py:1279-1315 | after each scaled buy the cash still covers the scaled cost of every buy to come |
| BrokerSolvency.ExecuteSolvent | src/paper_broker.py:1157-1318 | for every book, snapshot and proposals: no negative-cash error, no division by zero, no insufficient-cash rejection, and committed cash and positions are non-negative |
| BrokerTrace.ExecuteTrace | src/paper_broker.py:1120-1317 | a committed execution acts on the ledgers as a sequence of fills with distinct symbols, normalised quantities within the proposed ones, and covered sells |
| BrokerFills.ExecuteFillsExactly | src/paper_broker.py:1120-1317 | the fills of an execution, in order: each sell that goes through at its own normalised quantity, then each buy normalised at the one share of its request that cash and sale proceeds can pay for, everything or exactly all the cash |
| BrokerFills.CostBasisExactly | src/paper_broker.py:1192-1201 | average cost times quantity grows by exactly the price paid; a sell keeps the unit cost of what is left and a remainder within the tolerance costs nothing |
| BrokerFills.WeeksShow | src/paper_broker.py:1205-1274 | after any weeks every cash row shows the running balance and every asset's last position row the quantity held |
| BrokerLedger.PersistFillDrift | src/paper_broker.py:1179-1274 | one fill keeps cash on its ledger and changes the position drift by at most one tolerance, of its own symbol only |
| BrokerLedger.AverageCostBetween | src/paper_broker.py:1192-1201 | a buy leaves the average cost between the old one and the price paid; a sell keeps it until the position closes |
| BrokerLedger.ExecuteKeepsBook | src/paper_broker.py:1179-1322 | cash equals the sum of the cash ledger, tables stay aligned with unique keys, and each position is within one tolerance per fill of its ledger |
| BrokerLedger.ExecuteOnUnits | src/paper_broker.py:1202-1204 | when every lot step is a multiple of a unit above the tolerance, the snap to zero never changes a value and positions equal their ledger sums |
| BrokerDrift.ExecuteDriftExactly | src/paper_broker.py:1202-1204 | across any execution a position departs from its ledger by exactly what its sell leaves within the tolerance of zero; buys and refused sells add nothing |
| BrokerDrift.ExecuteNoDriftExactly | src/paper_broker.py:1202-1204 | positions stay equal to their ledgers if and only if no sell that goes through leaves a remainder that is positive and within the tolerance |
| BrokerDrift.ExecuteEquityExactly | src/paper_broker.py:972-992 | across any execution mid-marked equity falls by exactly the recorded costs plus the stranded remainders at mid, by the costs alone if and only if nothing is stranded |
| BrokerDrift.DriftIsStranded | src/paper_store.py:1541-1566 | after any weeks each position is below its ledger sum by exactly the total its sells stranded; nothing drifts back |
| BrokerDrift.NoDriftExactly | src/paper_store.py:1541-1566 | after any weeks positions equal their ledgers if and only if no week stranded anything |
| BrokerDrift.PositionsReconcileExactly | src/paper_store.py:1541-1566 | the audit accepts the positions after any weeks if and only if the stranded total of each symbol is at most the tolerance |
| BrokerDrift.SnapDrifts | src/paper_broker.py:1202-1203 | two whole weeks, a buy with all cash and a sell down to nine tenths of the tolerance, leave that drift |
| BrokerLedger.ExecuteConservesLedgerEquity | src/paper_broker.py:1179-1274 | across any execution equity by the ledgers, marked at mid, falls by exactly the recorded fees, spread and slippage costs, each non-negative |
| BrokerLedger.ExecuteSnapshot | src/paper_broker.py:972-992 | the equity snapshot of an execution is the committed cash and positions marked at mid |
| BrokerLedger.ExecuteConservesEquity | src/paper_broker.py:972-992 | on a common unit the recorded equity is the equity before the execution less exactly its costs |
| BrokerIntents.ProposalsPartition | src/paper_broker.py:801-846 | proposals and proposal-stage rejections together carry the key of each asset whose delta exceeds the tolerance, once |
| BrokerTargets.WeekHitsTargets | src/paper_broker.py:788-846 | every proposal and every refusal is about the trade after which the asset at mid is worth its weight of cash plus holdings; an asset gets one if and only if it is not worth that already within the tolerance, and never both |
| BrokerIntents.WeekAccountsForEveryIntent | src/paper_broker.py:1121-1314 | every intent of a week ends as exactly one filled order or exactly one rejection, and there are no others |
| BrokerIntents.OutcomeNeverConflicts | src/paper_store.py:2602-2622 | the outcome written inside the transaction is the one recomputed after the commit, so the immutability conflict never fires |
| BrokerIntents.WeekOutcomeExactly | src/paper_broker.py:462-469 | which of the four outcomes is recorded, by the numbers of intents, fills and rejections |
| BrokerRows.CommittedNoted | src/paper_broker.py:1125-1314 | from staged evidence to the last fill an execution adds only sound final rejections and PRICE_RANGE decisions, and every refusing decision has its rejection |
| BrokerAudit.FillAccountedExactly | src/paper_store.py:1881-1997 | the rows of a fill equal the price, spread, slippage, fee and ledger deltas the audit re-derives from the persisted quote |
| BrokerAudit.RejectionSoundAudited | src/paper_store.py:1278-1363 | a rejection passes the audit, from its quantity or from the quantity recovered from its notional, if and only if the limit it names is visible to the audit |
| BrokerAudit.JoinsKept | src/paper_store.py:1881-1997 | one execution keeps every join of orders, fills, ledger rows and quotes consistent |
| BrokerAudit.RulesKept | src/paper_store.py:1170-1363 | an execution whose evidence is valid and whose rejections name visible limits keeps every fill and rejection consistent with the rule evidence of its run |
| BrokerAudit.RangesKept | src/paper_store.py:1440-1528 | an execution that decides only on enforceable rules or without a reference keeps every PRICE_RANGE decision re-derivable, linked and complete |
| BrokerWeeks.ExecuteExtends | src/paper_broker.py:1025-1406 | a committed execution extends the tables by sound rows only, with every row the audit joins present |
| BrokerWeeks.WeekNeverOvershoots | src/paper_broker.py:801-846 | every fill trades on the side of its asset's target and at most the distance to it |
| BrokerWeeks.WeeksKeepBook | src/paper_store.py:1529-1566 | after any number of any weeks cash equals its ledger and is non-negative, no position is short, drift is at most one tolerance per fill |
| BrokerWeeks.AuditedReconciles | src/paper_store.py:970-1998 | the invariant kept by every week implies everything the modelled audit checks |
| BrokerWeeks.ReconcileAlwaysPasses | src/paper_store.py:970-1998 | writer refines checker: after any number of clean weeks on common units the audit accepts the tables |
| BrokerExactAudit.RunWeekVettedExactly | src/paper_store.py:1170-1528 | one week leaves the rule and PRICE_RANGE audits passing if and only if they passed before and the week explained what it recorded; a failed audit never recovers |
| BrokerExactAudit.ReconcilesExactly | src/paper_store.py:970-1998 | for all weeks with parsed rules the audit accepts the tables if and only if every committed week recorded valid evidence, named only visible limits and decided only on enforceable or unreferenced PRICE_RANGE rules, and the stranded totals are within the tolerance |
| AuditGuarantees.AuditExactly | src/paper_store.py:970-1998 | over any tables whoever wrote them: the audit passes if and only if balances agree with ledgers, every order traces to agreeing fill, ledger rows and quote, nothing is stray, rule evidence is sound, obeyed and explains each rejection, and PRICE_RANGE decisions follow from theirs |
| BrokerCommits.ExecuteCommitsExactly | src/paper_broker.py:1025-1406 | for a new signal time an execution commits if and only if the evidence is complete and valid and the PRICE_RANGE rule of every proposal evaluates |
| BrokerCommits.CleanWeeksExist | src/paper_broker.py:150-252 | the audit promise is not empty: on any book and valid quotes, under range evidence or not, some clean snapshot on common units commits |
| PaperBroker.Transaction.PersistFill | src/paper_broker.py:1179-1274 | one fill updates cash, position and the four row tables exactly as the specification function, or raises the same error |
| PaperBroker.Transaction.CheckRange | src/paper_broker.py:1130-1139 | records the PRICE_RANGE decision and its rejection, and tells whether to proceed |
| PaperBroker.Transaction.PlanSells | src/paper_broker.py:1124-1156 | the sell loop plans exactly the specified fills and rejections |
| PaperBroker.Transaction.PlanBuys | src/paper_broker.py:1157-1176 | the buy loop plans the specified buys and accumulates exactly the cash they need |
| PaperBroker.Transaction.FillBuys | src/paper_broker.py:1279-1315 | the scaling loop fills and refuses exactly the specified buys |
| PaperBroker.Transaction.Execute | src/paper_broker.py:994-1406 | the whole transaction leaves exactly the specified tables, or raises the specified error |
| PaperBroker.PaperBroker.Proposals | src/paper_broker.py:788-846 | one pass over the assets yields exactly the specified proposals and rejections |
| PaperBroker.PaperBroker.RunWeek | src/paper_broker.py:1568-1625 | a week commits the execution or leaves the book as it was |
| PaperBroker.PaperBroker.RunWeeks | src/paper_broker.py:1568-1625 | any number of weeks keeps the bookkeeping invariant |
| PaperBroker.PaperBroker.ReconcilePositions | src/paper_store.py:1541-1566 | one pass over the ledger and the held symbols decides exactly the position checks |
| PaperBroker.PaperBroker.Reconcile | src/paper_store.py:970-1998 | returns true if and only if every modelled audit check holds |
| LifecycleSafety.ExactlyOnce | src/paper_store.py:2424-2476 | at every reachable store a run with fills is a PAPER run with an equity snapshot that owns its key, and no two such runs own the same key |
| LifecycleSafety.TradedForever | src/paper_broker.py:1568-1584 | once a run has traded for a key it keeps its fills and the key, and no other run ever owns that key |
| LifecycleSafety.RetryableTakesNoKey | src/paper_forward.py:237-252 | a retryable admission failure, stopped after any commit, leaves every key as it was |
| LifecycleSafety.RefusedRunTakesNoKey | src/paper_broker.py:1429-1454 | nor does a run refused for missing provenance or invalid data |
| LifecycleSafety.DryRunNeverTrades | src/paper_broker.py:1597-1624 | a dry run, stopped anywhere, never touches the trading tables |
| LifecycleSafety.RecoveryCompletes | src/paper_store.py:912-949 | a completed recovery leaves nothing running, releases exactly the keys of abandoned runs without a snapshot, and changes nothing else |
| LifecycleSafety.InterruptedRecovery | src/paper_store.py:912-949 | an interrupted recovery has settled its first rows; the next one finds exactly the rest |
| LifecycleSafety.AllOrNothing | src/paper_broker.py:1573-1656 | crash an admitted run after any commit and restart: either the book is untouched and the key free, or the whole execution is there and the run keeps the key |
| LifecycleSafety.StepKeeps | src/paper_broker.py:1409-1656 | every operation, stopped after any commit, keeps the invariant and takes back no fill, snapshot or traded key |
| LifecycleSafety.CleanHistoriesNeverHalt | src/paper_broker.py:1626-1640 | with clean weeks the audit passes at every point of every history, the kill switch never fires by itself, and no run ends in KILL_SWITCH |
| LifecycleRuns.TradesExactly | src/paper_broker.py:1409-1656 | an uncut run adds its execution to the books if and only if the account is active, the audit passes, data are valid, it is no dry run, its window is open and unclaimed, it is admitted under a new id, and the execution commits |
| LifecycleRuns.HaltHolds | src/paper_broker.py:1451-1473 | from a halted store to the next reset no history of operations, cut short anywhere, trades or lifts the halt |
| LifecycleRuns.HaltLiftedExactly | src/paper_store.py:2015-2029 | the halt is lifted if and only if by a reset that finds the books in order |
| LifecycleRuns.RunEndsExactly | src/paper_broker.py:1409-1656 | in every reachable store an uncut run ends in the one status its circumstances call for or leaves no trace; it owns the key if and only if it traded, tried to, or was officially stopped; the account is halted afterwards if and only if it was or an audit failed |
| LifecycleRuns.FailureEndsExactly | src/paper_forward.py:223-275 | the row, key and halt an operational failure leaves, kind by kind: retryable ones never take the key, two kinds halt |
| PaperSystem.PaperSystem.InsertRun | src/paper_store.py:2424-2476 | inserts a RUNNING row unless the id is used, the key is taken, or an official run has no provenance |
| PaperSystem.PaperSystem.Run | src/paper_broker.py:1409-1656 | commits exactly the specified steps, branch by branch, up to its last completed commit |
| PaperSystem.PaperSystem.CommitOperationalFailure | src/paper_forward.py:223-302 | commits exactly the specified steps of an operational failure |
| PaperSystem.PaperSystem.RecoverAbandonedRuns | src/paper_store.py:912-949 | recovers the listed running rows one commit at a time; completed, nothing is running |
| PaperSystem.PaperSystem.ResetKillSwitch | src/paper_store.py:2015-2029 | reactivates the account exactly when the audit passes |
| Publication.PublishSound | run_data_pipeline.py:353-394 | the guards of one publication never raise: it commits all six steps, changing only its own row, and the pointer from the fourth on |
| Publication.FailKeeps | src/database.py:66-71 | failing a run is safe when the pointer check came first: such a run is neither published nor named |
| Publication.RecoverSound | run_data_pipeline.py:149-174 | every commit of a recovery keeps the invariant and the pointer, and each listed run ends completed if its manifest is the published one and failed otherwise |
| Publication.RecoveryCompletes | run_data_pipeline.py:149-174 | a finished recovery leaves nothing running or merely published, completes the run whose manifest is published, and fails no published run |
| Publication.RecoveryIdempotent | run_data_pipeline.py:149-174 | a second recovery changes nothing |
| Publication.RecoveryTrustsExactly | run_data_pipeline.py:124-174 | in any world, tampered with or not, recovery completes an interrupted run if and only if pointer, manifest in place and recorded digest all agree on it, fails it otherwise, and touches nothing else |
| Publication.ListedExactly | src/database.py:139-152 | recovery goes through exactly the running rows and those failed after their artifacts were ready |
| Publication.CrashesExactly | run_data_pipeline.py:195-402 | where a crash after any number of commits leaves a pipeline, within its recovery or its publication |
| Publication.PointerAlwaysSafe | run_data_pipeline.py:195-402 | over all pipelines, crashes and exceptions the pointer is absent or equals the immutable manifest of a run at least artifacts_ready, and a published uncompleted run is the one it names |
| Publication.UndisturbedPublishes | run_data_pipeline.py:353-394 | an undisturbed pipeline ends with the pointer at its own manifest and its run completed |
| Publication.SafeExactlyWhenRaisedInTime | run_data_pipeline.py:386-402 | the safety holds if and only if the exception handler never runs after the run was completed |
| CanonicalPipeline.Database.Publish | run_data_pipeline.py:353-384 | the guarded updates, exclusive create and atomic replace leave exactly the specified world |
| CanonicalPipeline.Database.Recover | run_data_pipeline.py:149-174 | the recovery loop performs exactly the specified commits, up to its budget |
| CanonicalPipeline.Database.RunLocked | run_data_pipeline.py:195-402 | one locked pipeline, stopped anywhere, leaves the specified world and keeps the invariant |
| Notifications.AtMostOnce | src/paper_notifications.py:179-222 | over every interleaving of senders, deaths, resends and rulings no notification reaches its target twice, when definite failures are true and "not delivered" is ruled only of quiet notifications |
| Notifications.RegisteredExactly | src/paper_notifications.py:89-105 | a notification is registered if and only if its run is finalized where needed, with target and report; a row already there is never changed; each refusal exactly when |
| Notifications.ClaimedExactly | src/paper_notifications.py:107-134 | an attempt starts if and only if the notification is pending or failed, finalized and of the kind asked for, and the report still has its registered digest |
| Notifications.RegistrationStays | src/paper_notifications.py:89-105 | digest and kind of a notification never change over any history |
| Notifications.AmbiguousExactly | src/paper_notifications.py:255-309 | while rulings wait for dead senders an ambiguous attempt exists, and is unique, exactly when the notification is ambiguous |
| Notifications.AttemptCountExact | src/paper_notifications.py:107-134 | attempt_count is the number of attempt rows in every history, truthful or not |
| Notifications.DeliveredForever | src/paper_notifications.py:139-177 | DELIVERED is absorbing: no later step changes the notification or adds an attempt of it |
| Notifications.ClaimableIsUndelivered | src/paper_notifications.py:107-134 | a notification that can be claimed again never arrived and has no sender that could still deliver it or record a failure |
| NotificationRulings.RulingSafeExactly | src/paper_notifications.py:255-309 | from every state a truthful history reaches, the ruling "not delivered" excludes a second arrival over all truthful steps that follow if and only if nothing of the notification arrived and none of its senders is in its call or holds an unrecorded definite failure |
| NotificationRulings.TruthAloneDeliversTwice | src/paper_notifications.py:139-156 | rulings that are merely true when made are not enough: a definite failure recorded one attempt late lets a message arrive twice |
| NotificationRulings.RulingInStepExactly | src/paper_notifications.py:139-177 | the ruling keeps attempts and notification in step over all patient steps that follow if and only if the sender of the ambiguous attempt is dead |
| NotificationService.Service.RegisterPending | src/paper_notifications.py:89-105 | registers a pending notification of a finalized run once, and leaves an existing one alone |
| NotificationService.AttemptedExactly | src/paper_notifications.py:179-222 | what one whole attempt comes to: refused it changes nothing; otherwise note and attempt end delivered, failed or unknown by the reply, or stay SENDING if the sender died first, and the message arrives only if the call was reached |
| NotificationService.Service.AttemptOne | src/paper_notifications.py:179-222 | verifies, claims, sends and marks exactly as specified, wherever the process dies |
| NotificationService.Service.SendCommittedMonthly | src/paper_notifications.py:311-354 | delivers a monthly report once; a delivered one is reported and nothing changes |
| NotificationService.Service.RecoverOne | src/paper_notifications.py:255-309 | applies the operator's ruling to the latest ambiguous attempt and appends its audit event |
| BacktestSafety.ExecuteSolvent | src/backtest.py:177-235 | execution never raises and never clamps cash, and leaves cash and quantities non-negative |
| BacktestSafety.OrdersReachTargets | src/backtest.py:151-175 | filled in full at the signal prices the queued orders bring every asset to its weight of the equity, within the tolerance |
| BacktestSafety.RunSolvent | src/backtest.py:132-272 | for every price table, target function and start: the negative-cash error is unreachable and cash and quantities are non-negative after each bar |
| BacktestSafety.EachOrderFilledOnce | src/backtest.py:237-272 | in a run of more than one bar each order is filled exactly once, on the bar after its signal bar |
| BacktestSafety.SingleBarNeverFills | src/backtest.py:237-272 | with one bar nothing is ever filled |
| BacktestSafety.ExecuteCosts | src/backtest.py:177-235 | a bar's fills lower equity by exactly fees, slippage and the dust its sells drop, which is worth at most one tolerance of each asset sold and nothing at zero tolerance |
| BacktestSafety.BarEquity | src/backtest.py:237-252 | each recorded equity is the previous holdings at the bar's closes less exactly the bar's costs and dust |
| BacktestSafety.NoLookAhead | src/backtest.py:132-272 | two price histories with one calendar that agree through bar k give the same simulation through bar k; later bars only add later records |
| BacktestSignals.SignalBarsExactly | src/backtest.py:258-272 | a bar is a signal bar if and only if the week key changes after it and at least the interval of whole days has passed since every earlier signal bar |
| BacktestSignals.EveryCloseSignals | src/backtest.py:258-272 | with interval 7 and weekly closes a week apart every weekly close is a signal bar |
| BacktestSignals.WeightsAcceptedExactly | src/backtest.py:102-130 | weights are accepted if and only if known, finite, not negative, at most one in total, and completed to one by CASH where given |
| BacktestSignals.BarDecidesExactly | src/backtest.py:151-175 | a bar with a start allocation or a signal queues exactly one order for each asset not worth its weight at the close, of the size that makes it so; any other bar queues nothing |
| BacktestFills.RunFillsExactly | src/backtest.py:177-235 | every bar fills the orders of the bar before: sells up to what is held, buys at the one share cash can pay for, everything or exactly all of it, with the quantities and cash that remain |
| BacktestFills.EveryFillPriced | src/costs.py:28-59 | every fill of a run executes at its bar's close times one plus or minus the slippage rate, with exactly the fee and slippage cost the two rates make of it |
| BacktestFills.BarRecordsExactly | src/backtest.py:237-257 | each bar records cash plus holdings at the close and one row per column with its quantity, value and part of the equity |
| EventDrivenBacktester.Simulation.CreateOrders | src/backtest.py:151-175 | queues exactly the specified orders with consecutive ids |
| EventDrivenBacktester.Simulation.ExecuteOrders | src/backtest.py:177-235 | fills sells, then scaled buys, exactly as specified |
| EventDrivenBacktester.Simulation.Step | src/backtest.py:237-272 | one bar: fills, records, and the bar's own signal, exactly as specified |
| EventDrivenBacktester.RunBacktest | src/backtest.py:132-272 | the bar loop computes the specified run, and can fail only for weights |
| Portfolio.ConstraintsCompose | src/portfolio.py:23-55 | for all rankings, volatilities and limits: no leverage error, at most max_assets weighted, each weight within its cap, altcoins within their limit, and all weights with cash sum to one |
| Portfolio.FullyInvestedExactly | src/portfolio.py:36-55 | no cash is left if and only if every plain inverse-volatility share is within its cap and the altcoins within theirs, and then the weights are those shares |
| Portfolio.UnconstrainedIsInverseVolatility | src/portfolio.py:36-41 | where nothing binds, weight times volatility is the same for every asset and no cash is left |
| Portfolio.UncappedKeepProportion | src/portfolio.py:19-22 | caps are not redistributed: uncapped assets keep their inverse-volatility proportion |
| Portfolio.BuiltIsAccepted | src/backtest.py:102-130 | the backtester's weight check accepts every result, even at zero tolerance |
| Portfolio.Build | src/portfolio.py:9-55 | the scan with early exit and the in-place rescaling compute the specified allocation |
| PortfolioRules.ChosenExactly | src/portfolio.py:23-35 | the assets weighted are the first weighable ones of the ranking, as many as allowed, each once |
| PortfolioRules.WeightsExactly | src/portfolio.py:36-55 | every weight: the share of the inverse volatilities, cut at its cap, altcoins over their limit scaled in proportion to exactly that limit, the rest in cash |
| Strategy.RequiredExactly | src/strategy.py:91-100 | the required history is exactly what every window and endpoint needs |
| Strategy.RankedAreBest | src/strategy.py:164-178 | the ranking takes the best eligible assets and no others, as many as allowed |
| Strategy.SignalReadsPrefix | src/strategy.py:114-195 | tables that agree through a date give the same signal for it |
| StrategyRules.SignalExactly | src/strategy.py:114-195 | from the closes alone: a signal is given if and only if every window is full and BTC is a column; it is all cash when BTC is not above the average of its last closes; otherwise it ranks the assets that rose over both spans by how far they rose, and weights them by the volatility of their last closes |
| Strategy.StrategyNoLookAhead | src/backtest.py:258-268 | a backtest of the strategy never sees the future |
| Strategy.SignalAccepted | src/backtest.py:102-130 | every signal of the strategy is accepted by the backtester |
| Strategy.StrategyRunsThrough | src/backtest.py:132-272 | with enough history before the first weekly close the backtest of the strategy raises nothing |
| ExperimentLedger.SameSealSameLedger | src/experiment_ledger.py:105-119 | two verifying ledgers with the same final hash and record count are the same sequence |
| ExperimentLedger.FinalHashIdentifies | src/experiment_ledger.py:105-119 | for nonempty ledgers the final hash alone determines length and every record |
| ExperimentLedger.SealedFileIsExact | src/experiment_ledger.py:24-37 | a sealed ledger opens if and only if the file is exactly the sealed sequence |
| ExperimentLedger.AlwaysReopens | src/experiment_ledger.py:16-39 | after any appends, finalizations and reopenings the chain verifies and reopening restores hash, sequence and finality |
| ExperimentLedger.FinalizedForever | src/experiment_ledger.py:82-103 | once finalized nothing is ever appended |
| ExperimentLedger.Ledger.Append | src/experiment_ledger.py:82-103 | appends exactly the next linked record, or refuses a finalized ledger or reserved keys |
| ExperimentLedger.Ledger.Verify | src/experiment_ledger.py:105-119 | the loop decides exactly whether every record links to the one before it |
| ExperimentLedger.Ledger.Finalize | src/experiment_ledger.py:129-146 | seals the ledger so that it still opens and stays closed |
| ExperimentLedger.FinalizeSeals | src/experiment_ledger.py:129-146 | finalizing at any point of any lifetime seals whatever was appended |
| MissedWindows.ClosedDaysExactly | src/forward_operations.py:165-173 | the generator yields exactly the windows on or after the start date that closed before now, each once, in order |
| MissedWindows.RecordedExactly | src/forward_operations.py:176-264 | afterwards there is exactly one row per closed window, missed unless a run owns it, old rows untouched, one incident per missed window |
| MissedWindows.ScheduledKeyUntouched | src/paper_broker.py:495-501 | a key a run would claim now never gets a row |
| MissedWindows.SecondCallAddsNothing | src/forward_operations.py:176-264 | a second call adds nothing, whatever runs finished since |
| MissedWindows.AuditingOftenIsTheSame | src/forward_operations.py:176-264 | auditing earlier as well makes no difference to the windows recorded |
| MissedWindows.TargetRoundTrip | src/schedule.py:48-59 | a persisted start resolves exactly when it is a window start, and then to that window's target |
| MissedWindows.TargetIsNextTargetMinute | src/schedule.py:17-45 | the execution target is the first whole minute from the window start on whose minute of the hour is the configured one |
| MissedWindows.ScheduledKeyExactly | src/paper_broker.py:495-501 | a run may claim a key if and only if it starts in a scheduled day's window, and then that window's start |
| MissedWindows.OutcomeExactly | src/forward_operations.py:203-223 | what a window owned by a finished run is recorded as, status by status and by whether it filled |
| MissedWindows.WindowOrdered | src/schedule.py:28-45 | start, target and end are in order and the start lies on its date |
| MissedWindows.ForwardStore.RecordMissedWindows | src/forward_operations.py:165-264 | the loops terminate and record exactly the specified rows; the count is the number of incidents added |
| ChronologicalSplit.SplitProperExactly | src/experiment_manager.py:87-138 | whenever it returns, the periods are non-empty, adjacent, in order, cover every bar from the first usable week end, and the folds partition validation, if and only if the lookback is positive or the week does not change from the last bar to the first |
| ChronologicalSplit.SplitReturnsExactly | src/experiment_manager.py:87-128 | when a split is returned and which error each other input gets |
| ChronologicalSplit.ZeroLookbackWraps | src/experiment_manager.py:104-113 | with lookback zero six bars give a training period that starts at the last bar and ends at the first |
| ChronologicalSplit.BoundariesAreLatest | src/experiment_manager.py:114-122 | training and validation run to the latest week end within their share of the usable bars |
| ChronologicalSplit.FoldsPartition | src/experiment_manager.py:129-137 | the folds are consecutive, non-empty, cover the period, and differ in size by at most one |
| ExperimentGate.TestAccessIsEarned | src/experiment_manager.py:201-258 | whoever may access the final test was trained among all expected trials, validated while a declared finalist, and locked while a declared finalist when exactly the finalists were validated |
| ExperimentGate.LockIsFinal | src/experiment_manager.py:243-258 | no later calls open the test to another candidate |
| ExperimentGate.FinalistsAreLastDeclared | src/experiment_manager.py:218-236 | after the first declaration training is frozen and the finalists are always the last duplicate-free list of trained candidates declared |
| ExperimentGate.LockedFinalistExactly | src/experiment_manager.py:218-258 | whatever calls follow the lock, the locked candidate stays a finalist throughout if and only if every declarable list among them names it |
| ExperimentGate.LockedLosesFinalist | src/experiment_manager.py:218-258 | a whole experiment in which the candidate with test access is no longer a finalist |
| ExperimentGate.ExperimentGate.DeclareFinalists | src/experiment_manager.py:218-236 | accepts exactly non-empty, duplicate-free lists of trained candidates once training is complete |
| ImportClosure.Discover | scripts/generate_hardening_manifest.py:218-232 | the worklist terminates with exactly the files reachable from the existing entry points, the least set closed under local imports |
| ImportClosure.VerifyCoverage | scripts/generate_hardening_manifest.py:235-244 | succeeds if and only if every reachable file is listed |

## Left out

- BrokerWeeks.AuditedReconciles: does not model the digests, timestamps, versions and provenance that `reconcile` also checks, because they are equality checks without arithmetic; the same holds of the next three.
- BrokerWeeks.ReconcileAlwaysPasses: as above.
- BrokerExactAudit.ReconcilesExactly: as above. It takes the rules as parsed: a hand-built rule whose step exists only as a positive float is outside it.
- PaperBroker.PaperBroker.Reconcile: as above.
- PaperSystem.PaperSystem.Run: its audit covers the rule and PRICE_RANGE evidence of every committed run. The source looks only at official scheduled runs already EXECUTED (src/paper_store.py:1081, src/paper_store.py:1366), so on an unexplained week the model halts in that run and the source in the next one.
- PaperSystem.PaperSystem.CommitOperationalFailure: does not model the forward window and incident rows it also writes (src/paper_forward.py:276-301).
- PaperSystem.PaperSystem.ResetKillSwitch: does not model the clearing of the incident row (src/paper_store.py:2026).
- BrokerLedger.ExecuteOnUnits: a sufficient condition a caller can arrange once for all weeks; the exact one is BrokerDrift.ExecuteNoDriftExactly.
- Quantities.AuditAgrees: a sufficient condition on the rules alone; the exact one is Quantities.AuditAgreesExactly.
- Floating point and Decimal precision: all arithmetic is exact; NaN and infinity appear only for rule limits, rule prices and volatilities.
- The bound on Decimal exponents in exact products (src/paper_broker.py:86-89, src/paper_store.py:143-157).
- SQL, schema migrations, locks and fsync: tables are maps and sequences behind a single writer; concurrent processes are modelled only for notification senders.
- Hashing and JSON encoding: idempotency keys are injective in signal time and asset, manifests and records are hashed by a parameter.
- Quote freshness, timestamps, protocol versions and digests in the evidence (src/paper_broker.py:150-252, src/paper_store.py:970-1252): equality checks without arithmetic.
- Duplicate assets: the configured universe has none, and a valid snapshot quotes exactly it.
- The evidence transaction that `run` commits just before `_execute` (src/paper_broker.py:1586-1594): its rows are written again inside the execution, and the model writes them once.
- Forward windows and incidents written by operational failures (src/paper_forward.py:276-301): the schedule audit has its own table of windows.
- The historical seal manifest of the experiment ledger (src/experiment_ledger.py:41-67), and ledgers already open in another process when one is finalized.
- Download, validation and storage of raw and clean data before the manifest exists (run_data_pipeline.py:222-352): any failure there is an exception after the run row was inserted.
- The volatility estimator (square roots and logarithms): a parameter of the signal that sees only its window's closes.
- ISO weeks and time zones: the week of each bar is given, instants are integers.
- Recovery of forward evidence, monthly reports, baselines, governance and hardening manifests, report rendering, metrics and command lines: long equality checks or presentation.
- `select_stable_finalists`, candidate grids and scores (src/experiment_manager.py:58-80, 141-198): enumeration and scoring.
- Exchange transport, Telegram and subprocess calls: market data, sender replies and arrivals are inputs.
