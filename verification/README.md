# A verified model of the bot's money side

The project models the parts of the Bitcoin spot bot that own money-side state,
and proves what they keep over every run.

**The order protocol** (`Ledger`, `Protocol`, `ProtocolSafety`, `ProtocolRuns`,
`ProtocolSteps`, `ProtocolExamples`, `ProtocolEvidence`). Every
order or cancel request is a durable row: PREPARED, then
SUBMITTING, then sent, then finished on evidence. The protocol is a step system.
One durable transaction is one step, the process may crash between any two steps
and loses only its control state, and the exchange lets each request land, lose it
or refuse it at any later time. A ghost history keeps every request sent and the
orders that ended. The theorems in `ProtocolRuns` speak of every reachable state
and of every pair of moments in a run.

**The code that walks it** (`StateStore`, `AdapterSpecs`, `Adapter`,
`OrderManager`). The methods follow the source statement by statement. Their
common postcondition `Onward` says that the tables, the exchange and the control
state are the last state of a run of the protocol that extends the one before the
call, whatever crash or exception cut the call short. So every theorem about runs
holds of the code. The further postconditions say what each call
writes, and what it leaves alone.

**Exchange events** (`EventLog`, `EventTable`). Events are folded into trade rows;
identifiers may be bound late, and the stored events replayed.

**Order arithmetic** (`Rounding`, `DecimalText`, `OrderRequests`), over exact
rationals and printed decimals.

**Budgets, windows, at-most-once control** (`QuotaLedger`, `SpotStream`,
`PairSwitch`, `TelegramStore`, `AuditRotation`). Each is a class whose invariant
ties its small mutable state to a ghost history.

## What the code does not keep

- A single-order reply carries list id -1, which is bound as it is. Recording
  ignores -1 and replaying does not, so the replay closes the row once any single
  sell of the symbol was filled (`EventTable.UnlistedBindingCloses`,
  `UnlistedBindingDiffers`). `EventTable.LateBindingIff` says exactly when late and
  early binding agree: a rebinding that drops an id also lets them differ.
- Such a row records list -1 as its protection. Its cancels name that list and
  never the stop order, so the emergency exit cannot sell it and a conversion
  cannot replace it (`ProtocolRuns.UnlistedIsStuck`,
  `AdapterSpecs.UnlistedIsNotConverted`; a row records its stop order exactly when
  it records no list, `ProtocolRuns.RecordsStopIff`).
- The comment on `_event_updates` calls the update monotonic. The lifecycle rank
  is; `filled_quantity` falls exactly when a BUY report undercuts it
  (`EventLog.FilledFallsIff`, `FilledNeverFallsIff`; 2 then 1 in
  `LateReportLowersFilled`).
- Recovery looks at the trade's newest cancel, which need not be the plan's own.
  `ProtocolEvidence.RecoveryProvesOwnIff` says exactly which tables prove that the
  order to be replaced has ended: those with a CONFIRMED cancel row naming it.
  (An emergency sell names no order, and its trade row may have been rewritten.)
  `ProtocolExamples.RecoveredBesideOpenOrder` is a run where it has not ended. What
  is left is the balance check: `Adapters.Adapter.ResumePlan` writes the child
  exactly when at least one step is free.
- The factory fills in missing trailing bounds with 10 and 2000 and clamps to
  bounds that the filter check refuses, so a trailing request can be built that
  never passes: `OrderRequests.EntryPassesIff` and `ReplacementPassesIff` say
  exactly when; `MissingFilterRefused` and `ZeroBoundRefused` are inputs.
- A Retry-After is parsed on every error reply and obeyed on 429 alone
  (external_clients.py:65-71, external_context.py:404-411):
  `QuotaLedgers.RetryAfterHonouredIff`, and `UnavailableAsksForTwoHours` for a 503.
- An early rejection overwrites an IN_PROGRESS mark
  (`OrderManagers.OrderManager.ProcessSignal` says exactly when).
- After a failed publication the still active pair can be chosen again and resumed
  on the other pair's projections (`PairSwitch.ResumeOnTornFiles`; exactly then,
  `PairSwitch.ResumeTornIff`).
- A process that dies between two writes of a switch leaves a stage that every
  staged call refuses for ever (`PairSwitch.CutSwitchFailsClosed`, `DeadIff`).
- In `_resume_prepared_replacement` the branch for an existing child cannot be
  reached (`AdapterSpecs.OpenPlanIsChildless`).

## Assumptions

- Digests and client ids: intent ids are injective in their seeds, client ids are
  fresh. One client id stands for the list or order id a request is looked up by.
- The exchange is truthful: a reply about an order speaks of that order, a found
  identifier means the request landed, a terminal status means the order ended.
- Time is a nondecreasing input; the UTC month is a monotone function of it.
- The quantity step of the symbol rules is the same throughout a run.
- Decimals are exact; their 28-digit context is not modelled.
- A raised exception in the pair publication has not replaced the state file, and
  a completed publication reads back.

## Model

| member | source | states |
|---|---|---|
| ProtocolSafety.StepKeeps | services/execution_sidecar/state_store.py:368-437 | every step of the protocol keeps the ten-part invariant over ledger, wire, control state, evidence, plans, client ids, trade rows, desk, entries and replacement basis |
| ProtocolRuns.SentAtMostOnce | services/execution_sidecar/bitcoin_adapter.py:342-388 | in every run, with a crash between any two steps, no intent id is on the wire twice, and a PREPARED or ABORTED row was never sent |
| ProtocolRuns.RunGrows | services/execution_sidecar/state_store.py:400-423 | between any two moments of a run rows keep their request, no row becomes PREPARED again, CONFIRMED, DEFINITE_REJECT and ABORTED are final, and the wire is only appended to |
| ProtocolRuns.StrandedNeverSent | services/execution_sidecar/bitcoin_adapter.py:648-661 | a row left PREPARED by a flow that is over, other than a replacement child, is never sent in any continuation |
| ProtocolRuns.AtMostOneExposure | services/execution_sidecar/bitcoin_adapter.py:811-815 | in every reachable state at most one trade is nonterminal and past SIGNAL_APPROVED |
| ProtocolRuns.NoRevivalBesideAnother | services/execution_sidecar/bitcoin_adapter.py:278-320 | a finished trade becomes live again only under its own lock and while no other trade is live |
| ProtocolRuns.PlansYieldOneChild | services/execution_sidecar/state_store.py:377-398 | a replacement plan is never sent, is PREPARED or ABORTED, has at most one child in any run, and none while PREPARED |
| ProtocolRuns.ResolvedOnEvidence | services/execution_sidecar/bitcoin_adapter.py:357-388 | a sent request leaves the unresolved set only on evidence: it landed, it was itself refused, or the order it cancels is terminal |
| ProtocolRuns.PlacedAtMostOnce | services/execution_sidecar/bitcoin_adapter.py:342-356 | no client id is placed twice, although a plan and its child share one |
| ProtocolRuns.ConfirmedLandsExactlyOnce | services/execution_sidecar/bitcoin_adapter.py:383-388 | a CONFIRMED placement is at the exchange exactly once under its client id |
| ProtocolRuns.OneEntryPerSignal | services/execution_sidecar/order_manager.py:80-131 | two ENTRY requests on the wire belong to two different claimed signals |
| ProtocolRuns.EntrySentAlone | services/execution_sidecar/bitcoin_adapter.py:811-815 | when an ENTRY leaves, every earlier placement has landed or been refused; nothing in flight can still land beside it |
| ProtocolRuns.ReplacedOnlyAfterCancel | services/execution_sidecar/bitcoin_adapter.py:1235-1283 | a replacement child exists only after a protection cancel of its trade was confirmed and its order ended |
| ProtocolRuns.ChildWrittenOnProof | services/execution_sidecar/bitcoin_adapter.py:448-476 | at the step that writes a replacement child some confirmed cancel of the trade names an order that has ended, and it is the plan's own protection or the trade's newest cancel |
| ProtocolRuns.FirstConversionIsOwn | services/execution_sidecar/bitcoin_adapter.py:448-476 | from a moment with no protection cancel of the trade, while its row goes on recording one order, any replacement child means that very order has ended; a plan drawn up since was for that order |
| ProtocolRuns.StuckWhileOpen | services/execution_sidecar/bitcoin_adapter.py:1112-1180 | while the order a row records has not ended, no newer cancel of the trade is confirmed and no emergency sell is written |
| ProtocolRuns.UnlistedIsStuck | services/execution_sidecar/bitcoin_adapter.py:1112-1142 | a row that records list id -1: every newer cancel names list -1 and not the stop order, none is confirmed while no such list ends, and no emergency sell is written |
| ProtocolEvidence.TablesProveEndIff | services/execution_sidecar/bitcoin_adapter.py:1145-1180 | for every reachable state and every order: it has ended in all reachable states with the same tables exactly when a CONFIRMED cancel row names it |
| ProtocolEvidence.OpenElsewhere | services/execution_sidecar/bitcoin_adapter.py:1145-1180 | unless a CONFIRMED cancel row names the order, another run ends in the same state but with that order open |
| ProtocolEvidence.RecoveryProvesOwnIff | services/execution_sidecar/bitcoin_adapter.py:454-476 | for a PREPARED plan under the lock and a confirmed newest cancel: over all reachable states with the same tables, the steps that write the plan's child leave its own order ended exactly when some CONFIRMED cancel row names that order |
| ProtocolRuns.SellsWithinOwned | services/execution_sidecar/bitcoin_adapter.py:1201-1204 | when written, a plan, partial-fill or emergency sell is of whole steps and at most max(filled, protected) of the durable row; a child is of whole steps and sells no more than its plan |
| ProtocolRuns.SellsInSteps | services/execution_sidecar/bitcoin_adapter.py:1201-1204 | in every reachable state every plan and sell row is of one or more whole steps |
| ProtocolRuns.ChildIsNew | services/execution_sidecar/bitcoin_adapter.py:342-356 | while a plan is PREPARED the deterministic id of its child is free |
| ProtocolRuns.SecondConversionResumesOnOldCancel | services/execution_sidecar/bitcoin_adapter.py:454-476 | every second conversion that stops right after its plan is written can be resumed on the first conversion's cancel while its own order is still open |
| ProtocolExamples.RecoveredBesideOpenOrder | services/execution_sidecar/bitcoin_adapter.py:448-605 | one whole run from empty tables: entry, first conversion, second plan, crash, and a recovery that writes the child while the order to replace is open |
| StateStores.StateStore.PrepareIntent | services/execution_sidecar/state_store.py:368-398 | inserts the row and closes its PREPARED parent in one transaction, or changes nothing |
| StateStores.StateStore.MarkIntentSubmitting | services/execution_sidecar/state_store.py:400-407 | only a PREPARED row becomes SUBMITTING |
| StateStores.StateStore.FinishIntent | services/execution_sidecar/state_store.py:409-423 | overwrites the state of a known row, whatever it was |
| StateStores.StateStore.UnresolvedIntents | services/execution_sidecar/state_store.py:431-437 | lists every unresolved row once, oldest first |
| StateStores.StateStore.LatestProtectionCancel | services/execution_sidecar/bitcoin_adapter.py:452-460 | the newest CANCEL_PROTECTION row of the trade, or none if it has none |
| StateStores.StateStore.ClaimSignal | services/execution_sidecar/state_store.py:323-331 | true exactly for the first claim or record of an id |
| StateStores.StateStore.RecordSignal | services/execution_sidecar/state_store.py:333-340 | overwrites the mark of one id |
| StateStores.StateStore.UpsertTrade | services/execution_sidecar/state_store.py:509-532 | writes the named columns; an unnamed lifecycle stays |
| StateStores.StateStore.ActiveTradeForSymbol | services/execution_sidecar/state_store.py:463-470 | some nonterminal row of the symbol, or none if there is none |
| StateStores.StateStore.RecordExchangeEvent | services/execution_sidecar/state_store.py:725-745 | stores an event once and applies it to exactly the rows it names |
| StateStores.StateStore.ReplayExchangeEventsForTrade | services/execution_sidecar/state_store.py:747-782 | the loop equals the fold of the routed events over the row |
| EventLog.FinalIsMaximum | services/execution_sidecar/state_store.py:549-566 | over any events from a non-RECONCILED row the rank never falls, the result is the start or an argued lifecycle of maximal rank, and terminal rows absorb |
| EventLog.RankNeverFalls | services/execution_sidecar/state_store.py:691-699 | what a prefix of events reached is never given up by the rest |
| EventLog.OrderIndependent | services/execution_sidecar/state_store.py:650-699 | from any lifecycle permuted events give the same one when the two terminal kinds do not both occur |
| EventLog.OrderIndependentIff | services/execution_sidecar/state_store.py:650-699 | for any nonterminal row below the terminal rank, a RECONCILED one too, all orders agree exactly when the two terminal kinds do not both occur |
| EventLog.ApplyAllColumns | services/execution_sidecar/state_store.py:599-649 | each money column ends as the last event that writes it left it |
| EventLog.FilledFallsIff | services/execution_sidecar/state_store.py:622-631 | one event lowers the held filled quantity exactly when it is a BUY report whose cumulative, a malformed one counting as 0, is below it |
| EventLog.FilledNeverFallsIff | services/execution_sidecar/state_store.py:622-631 | over a sequence the filled quantity falls at no event exactly when the cumulatives of the BUY reports ascend from the one held |
| EventLog.LateReportLowersFilled | services/execution_sidecar/state_store.py:599-649 | two reports of one BUY out of order, 2 then 1: the lifecycle stays and the filled quantity ends as 1 |
| EventLog.FinalFromReconciled | services/execution_sidecar/state_store.py:693-699 | a RECONCILED row adopts the first lifecycle argued for and then climbs to the maximal one |
| EventLog.ReplayIdempotent | services/execution_sidecar/state_store.py:747-782 | replaying a trade's events twice equals replaying them once, on every column |
| EventTable.RoutingsAgreeIff | services/execution_sidecar/state_store.py:710-782 | recording and replaying route every event alike exactly when no bound id is 0 or -1 |
| EventTable.RecordKeepsCurrent | services/execution_sidecar/state_store.py:725-745 | a row that equals the replay of the whole log keeps equal to it when an event is recorded |
| EventTable.KeepsIdsIff | services/execution_sidecar/state_store.py:710-782 | every event recorded to a row is replayed to the row as rebound exactly when the rebinding keeps each id it was found by |
| EventTable.LateBindingAgrees | services/execution_sidecar/bitcoin_adapter.py:318-320 | also for rows bound before: events recorded before the binding and replayed after it give the row that binding first and recording one by one gives, when each new event that names the row is also routed to it as rebound |
| EventTable.LateBindingIff | services/execution_sidecar/state_store.py:747-782 | for any row and any reply ids other than 0, late and early binding agree on every history exactly when the binding holds no -1 and keeps every id the row was found by |
| EventTable.ReplayConverges | services/execution_sidecar/state_store.py:747-782 | any number of events after a replay, a further replay changes no table |
| EventTable.UnlistedBindingCloses | services/execution_sidecar/state_store.py:747-782 | a row bound with list id -1 is closed by the replay if any single sell of the symbol was ever filled |
| EventTable.UnlistedBindingDiffers | services/execution_sidecar/bitcoin_adapter.py:202-224 | a bound row protected by one trailing order, and the fill of an earlier trade's single sell in the log: the replay closes the row, recording that fill after the binding does not |
| AdapterSpecs.LandedIsMine | services/execution_sidecar/bitcoin_adapter.py:334-340 | a placement found under a row's client id is that row's own request |
| AdapterSpecs.OpenPlanIsChildless | services/execution_sidecar/bitcoin_adapter.py:484-554 | a PREPARED plan has no child, so the branch for an existing child is dead |
| AdapterSpecs.BindTies | services/execution_sidecar/bitcoin_adapter.py:278-320 | after bind, record and replay an ENTRY row carries its list id and a protection row its recorded order |
| Adapters.Adapter.Identify | services/execution_sidecar/bitcoin_adapter.py:357-382 | an identifier is accepted only if the exchange named it for this very request |
| Adapters.Adapter.Cross | services/execution_sidecar/bitcoin_adapter.py:415-446 | the row is marked, sent once, and finished on evidence; doubt on a first submission pauses entries |
| Adapters.Adapter.SubmitOnce | services/execution_sidecar/bitcoin_adapter.py:342-388 | exact new ledger and wire: one row, its plan closed, one request, a final or AMBIGUOUS state; cut short anywhere it did at most that |
| Adapters.Adapter.Bind | services/execution_sidecar/bitcoin_adapter.py:278-320 | the tables are the replay of the log over the bound row after recording the reply; the row is tied to the exchange |
| Adapters.Adapter.CrossCancel | services/execution_sidecar/bitcoin_adapter.py:1144-1180 | one DELETE; CONFIRMED only when the reply proves the asked order terminal, else AMBIGUOUS |
| Adapters.Adapter.CancelProtectionOf | services/execution_sidecar/bitcoin_adapter.py:1112-1180 | true only if the recorded list or stop order is terminal by a confirmed cancel that names exactly it; no other row moves |
| Adapters.Adapter.CancelEntryList | services/execution_sidecar/bitcoin_adapter.py:908-940 | true for a recorded list only if its cancel row is CONFIRMED |
| Adapters.Adapter.PlanAndCancel | services/execution_sidecar/bitcoin_adapter.py:1234-1254 | the plan is written first; afterwards the row's own protection is proven ended, or the plan stays PREPARED |
| Adapters.Adapter.PlaceReplacement | services/execution_sidecar/bitcoin_adapter.py:1267-1298 | the child sells the smaller of plan and free balance; the row records the order that replaced, or AMBIGUOUS |
| Adapters.Adapter.ReplaceAfterCancel | services/execution_sidecar/bitcoin_adapter.py:1255-1298 | retained, exited, unconfirmed or replaced, with the plan and row each of them means |
| Adapters.Adapter.Convert | services/execution_sidecar/bitcoin_adapter.py:1182-1298 | however it ends, existing ledger rows stay, and a replacement exists only for the exact order the row recorded, in whole steps, within what the row owned |
| AdapterSpecs.UnlistedIsNotConverted | services/execution_sidecar/bitcoin_adapter.py:1234-1254 | however a conversion ends, a trade whose row records list id -1 gets a plan and a cancel at most, and no replacement while no such list ends |
| Adapters.Adapter.PostEntry | services/execution_sidecar/bitcoin_adapter.py:835-841 | at most one ENTRY row and one request, and exactly one of each when it returns |
| Adapters.Adapter.Submit | services/execution_sidecar/bitcoin_adapter.py:800-854 | anything sent was one ENTRY, armed, beside no other active row and no unresolved intent; rejected, in doubt or bound |
| Adapters.Adapter.ResumePlan | services/execution_sidecar/bitcoin_adapter.py:448-605 | a recovered child rests on the trade's newest cancel, confirmed and seen terminal again, keeps the plan's client id, sells whole steps and never grows; it is written exactly when the free balance is then at least one step, also beside the plan's own open order |
| AdapterSpecs.BesideOpenIsNotOwn | services/execution_sidecar/bitcoin_adapter.py:454-476 | a child written while the plan's order is open rests on a newest cancel that names another order |
| Adapters.Adapter.ResolveChild | services/execution_sidecar/bitcoin_adapter.py:615-647 | a PREPARED child is sent once, and bound if confirmed |
| Adapters.Adapter.AbortPrepared | services/execution_sidecar/bitcoin_adapter.py:648-661 | any other PREPARED row is aborted unsent, and an ENTRY's trade is closed |
| Adapters.Adapter.ResolveCancel | services/execution_sidecar/bitcoin_adapter.py:663-695 | a cancel that may have landed is settled by a terminal status alone |
| Adapters.Adapter.ResolvePlacement | services/execution_sidecar/bitcoin_adapter.py:697-719 | a placement that may have landed is settled by its own client id alone, nothing is sent, and its row is tied |
| Adapters.Adapter.ResolveListed | services/execution_sidecar/bitcoin_adapter.py:607-723 | one round per listed row, each on its own; without an error every listed row is dealt with |
| Adapters.Adapter.ResolveOperationIntents | services/execution_sidecar/bitcoin_adapter.py:607-736 | no request that may have landed is repeated: all that is sent is a plan's child; without an error every old unresolved row other than a plan is resolved |
| Adapters.Adapter.Sell | services/execution_sidecar/bitcoin_adapter.py:1011-1018 | one fresh sell within what the row owns, bound when confirmed |
| Adapters.Adapter.StopEntry | services/execution_sidecar/bitcoin_adapter.py:981-995 | the partly filled BUY's own list is cancelled for good before the BUY is read again |
| Adapters.Adapter.ProtectSettled | services/execution_sidecar/bitcoin_adapter.py:977-1018 | a partial-fill sell is written only after the open list's cancel is CONFIRMED, or with the BUY terminal and no list open |
| Adapters.Adapter.PlacePartialProtection | services/execution_sidecar/bitcoin_adapter.py:942-1022 | however it ends, existing rows stay and it adds only cancels of the entry list and sells in whole steps of one trade |
| Adapters.Adapter.ConfirmExit | services/execution_sidecar/bitcoin_adapter.py:1816-1854 | a verified exit means this IOC ended, its fill was within the order and shows in the free balance, and what is left is below the smallest order |
| Adapters.Adapter.ExitLocked | services/execution_sidecar/bitcoin_adapter.py:1788-1854 | an emergency sell is written only once the recorded protection has ended |
| Adapters.Adapter.EmergencyExitOf | services/execution_sidecar/bitcoin_adapter.py:1780-1854 | entries are halted first, and whatever happens only this trade's cancel and freed sell are added |
| OrderManagers.OrderManager.RejectEarly | services/execution_sidecar/order_manager.py:71-79 | an early rejection only overwrites the mark of its id |
| OrderManagers.OrderManager.RejectKnown | services/execution_sidecar/order_manager.py:83-88 | an IN_PROGRESS mark pauses entries and disables the adapter; nothing else changes |
| OrderManagers.OrderManager.AcceptFresh | services/execution_sidecar/order_manager.py:89-131 | nothing is sent unless every gate passed and the id was claimed first |
| OrderManagers.OrderManager.ProcessSignal | services/execution_sidecar/order_manager.py:57-136 | only an unseen id can reach the exchange, once; a returned call leaves a result; an IN_PROGRESS mark survives exactly when no named early rejection hit it |
| Rounding.FloorStepBounds | services/execution_sidecar/protection_modes.py:10-14 | rounding down lands on the grid, loses less than a step and truncates toward zero |
| Rounding.FloorStepLargest | services/execution_sidecar/protection_modes.py:10-14 | no grid point lies between the rounded value and the value |
| Rounding.CeilStepBounds | services/execution_sidecar/bitcoin_adapter.py:1214-1219 | the ceiling lands on the grid within one tick above |
| DecimalText.ReadOfText | services/execution_sidecar/protection_modes.py:17-19 | every finite decimal, of either sign, printed and read back has its value |
| OrderRequests.FloorToIsFloorStep | services/execution_sidecar/protection_modes.py:10-14 | on decimals and on exact rationals rounding down is the same operation |
| OrderRequests.RulesAreUsable | services/execution_sidecar/bitcoin_adapter.py:132-135 | positive tick and step make every rounding of the factory well defined |
| OrderRequests.LegsSurvive | services/execution_sidecar/filters.py:58-110 | any request the factory builds reads back into legs with equal values |
| OrderRequests.EntryPassesIff | services/execution_sidecar/filters.py:425-439 | every leg of an entry request passes the tick, step and trailing checks of the same rules exactly when it has no trailing leg, or the symbol allows trailing stops and states both bounds with 1 <= lower <= upper |
| OrderRequests.ReplacementPassesIff | services/execution_sidecar/filters.py:425-510 | every leg of a replacement request passes the tick, step and trailing checks of the same rules exactly when it has no trailing leg, or the symbol allows trailing stops and states both bounds with 1 <= lower <= upper |
| OrderRequests.MissingFilterRefused | services/execution_sidecar/bitcoin_adapter.py:117-128 | without a TRAILING_DELTA filter a trailing entry is built with the bounds 10 and 2000, and the check refuses it |
| OrderRequests.ZeroBoundRefused | services/execution_sidecar/filters.py:438-439 | with a lower bound of 0 a trailing entry is built within the bounds, and the check refuses it |
| OrderRequests.PendingWithinFee | services/execution_sidecar/protection_modes.py:42-54 | an entry's pending sell is at most the fee-reduced buy quantity |
| OrderRequests.FixedEntryIsOrdered | services/execution_sidecar/protection_modes.py:55-93 | limit <= stop < entry <= take-profit for fixed-OCO entries |
| OrderRequests.BufferedStopCovers | services/execution_sidecar/bitcoin_adapter.py:1214-1219 | the doubly ceiled stop times the buffer factor covers the protected level |
| OrderRequests.StopSurvivesFloors | services/execution_sidecar/protection_modes.py:125-131 | the factory's two floors do not bring the limit below the level |
| OrderRequests.NoLossAtBreakEven | services/execution_sidecar/protection_modes.py:139-151 | a sale at or above the adjusted break-even pays cost, both fees and slippage |
| OrderRequests.LockedConversionNeverLoses | services/execution_sidecar/bitcoin_adapter.py:1206-1230 | a break-even or profit-lock limit is at least the break-even and the locked level after every rounding, and a fill there loses nothing |
| QuotaLedgers.SpacingBoundsMonth | services/moneyflow/external_context.py:39-47 | grants 300 s apart number at most 8928 in a 31-day month |
| QuotaLedgers.SpacingBoundIsTight | services/moneyflow/external_context.py:39-47 | a 31-day month does hold 8928 grants 300 s apart |
| QuotaLedgers.QuotaLedger.NormalizedCounts | services/moneyflow/external_context.py:205-236 | the normalized row counts exactly the grants of the current month and minute |
| QuotaLedgers.QuotaLedger.Reserve | services/moneyflow/external_context.py:290-356 | the exact decision; grants stay within both caps in every month and minute, an interval apart and behind every backoff; the monthly branch is unreachable with 300 s spacing and a cap of 8928 or more |
| QuotaLedgers.QuotaLedger.MarkSuccess | services/moneyflow/external_context.py:358-375 | the next grant is at least an interval away |
| QuotaLedgers.RetryAfterHonouredIff | services/moneyflow/external_context.py:404-411 | the wait reaches a positive Retry-After exactly for RATE_LIMITED, or when the delay of the status is as long anyway |
| QuotaLedgers.QuotaLedger.MarkFailure | services/moneyflow/external_context.py:377-424 | the delay of the status becomes a barrier that no later grant precedes; the next grant waits for a positive Retry-After exactly for RATE_LIMITED, within that delay, or when the row waited that long already |
| QuotaLedgers.UnavailableAsksForTwoHours | services/moneyflow/external_context.py:404-411 | a 503 with Retry-After 7200 on a first failure: the next grant is due after 300 s |
| QuotaLedgers.QuotaLedger.Refresh | services/moneyflow/external_context.py:457-484 | reading the status never moves a grant forward |
| QuotaLedgers.ContextManager.Provider | services/moneyflow/external_context.py:734-873 | across crashes and saved caches every fetch has a reservation of its own; a disabled or keyless provider, a fresh cache or a broken ledger fetches and reserves nothing |
| SpotStreams.WindowIsGapFree | services/moneyflow/spot_stream.py:275-288 | in a window of a gap-free history count = last id - first id + 1 |
| SpotStreams.SpotMarketStream.ResetSample | services/moneyflow/spot_stream.py:68-74 | a reset starts an empty sample at the given time |
| SpotStreams.SpotMarketStream.Prune | services/moneyflow/spot_stream.py:270-273 | the loop leaves exactly the trades of the last minute of the accepted history |
| SpotStreams.SpotMarketStream.OnOpen | services/moneyflow/spot_stream.py:139-146 | a reconnection, and only that, starts a new sample |
| SpotStreams.SpotMarketStream.EnsureSymbol | services/moneyflow/spot_stream.py:76-87 | a new symbol starts a new generation and a new sample |
| SpotStreams.SpotMarketStream.IngestTrade | services/moneyflow/spot_stream.py:196-236 | repeats are ignored, a gap starts a new sample, and the history stays consecutive |
| SpotStreams.SpotMarketStream.IngestBook | services/moneyflow/spot_stream.py:238-268 | a crossed book is refused |
| SpotStreams.SpotMarketStream.WindowsAgree | services/moneyflow/spot_stream.py:306-314 | a window of the pruned deque equals the window of the whole accepted history |
| SpotStreams.SpotMarketStream.TakeSnapshot | services/moneyflow/spot_stream.py:290-326 | every window is the exact aggregate over the accepted history, leaves out no id, and is ready only if no reset fell into it |
| PairSwitch.DeadIff | services/execution_sidecar/pair_control.py:157-191 | no sequence of calls and restarts ever changes a file again exactly when the first files are partly there, the stage does not fit the state, or a switch is in a passing stage |
| PairSwitch.CutSwitchFailsClosed | services/execution_sidecar/pair_control.py:350-438 | a process that dies between the first and the last write of a switch, so also while publishing, leaves files that every later staged call refuses and no sequence of calls and restarts changes |
| PairSwitch.ResumeTornIff | services/execution_sidecar/pair_control.py:265-276 | in every history, resume-ready files have another pair's projections exactly when some call chose the still active pair on torn BLOCKED files and they stayed resume-ready since |
| PairSwitch.SettledIsProven | services/execution_sidecar/pair_control.py:440-471 | in every history, outside the replacing stages the state is one that was bootstrapped or proven |
| PairSwitch.PairChangesAfterTwoChecks | services/execution_sidecar/pair_control.py:350-438 | in every history the active pair changes only to a target chosen on one passed flat check and completed on another, generation plus one, projections first |
| PairSwitch.PairController.Publish | services/execution_sidecar/pair_control.py:101-115 | which files are written when a write raises or the process dies, the authoritative state last |
| PairSwitch.PairController.Bootstrap | services/execution_sidecar/pair_control.py:193-219 | complete files are accepted exactly when both projections are the state's; partial files are refused |
| PairSwitch.PairController.BeginSwitch | services/execution_sidecar/pair_control.py:250-348 | the exact files it leaves, wherever it is cut; never touches pair or projections; waits for the swap only after a flat check, and the still active pair makes the files resume-ready as torn as they were |
| PairSwitch.PairController.CompleteSwitch | services/execution_sidecar/pair_control.py:350-438 | the only change of the active pair: to the chosen target, after two flat checks, generation plus one |
| PairSwitch.PairController.MarkPairVerified | services/execution_sidecar/pair_control.py:440-454 | only the pair being verified becomes proven, with its projections in place |
| PairSwitch.PairController.RequireResumeReady | services/execution_sidecar/pair_control.py:456-462 | a resume is allowed only on a bootstrapped or proven state |
| PairSwitch.PairController.MarkActiveAfterResume | services/execution_sidecar/pair_control.py:464-471 | activates only a bootstrapped or proven state; files that are not resume-ready are refused and left alone |
| PairSwitch.PairController.ResumeIsProven | services/execution_sidecar/pair_control.py:456-462 | when a resume is allowed the state was bootstrapped or proven, and its projections are another pair's exactly when the still active pair was chosen on torn files |
| PairSwitch.ResumeOnTornFiles | services/execution_sidecar/pair_control.py:265-276 | a failed publication, then choosing the still active pair: resume allowed while the projections are another pair's |
| TelegramStores.TelegramUpdateStore.NoUpdateTwice | services/telegram_broker/bot.py:178-206 | over all claims of all processes no update was taken twice |
| TelegramStores.KeptIsPart | services/telegram_broker/bot.py:194-201 | pruning keeps the order, invents nothing, and keeps every claimed row |
| TelegramStores.KeptCount | services/telegram_broker/bot.py:194-201 | pruning keeps as many finished rows as the retention allows |
| TelegramStores.KeptAreNewest | services/telegram_broker/bot.py:194-201 | a deleted finished row is older than every finished row kept |
| TelegramStores.TelegramUpdateStore.Initialize | services/telegram_broker/bot.py:118-135 | a restart never lowers the offset and makes open claims uncertain |
| TelegramStores.TelegramUpdateStore.ClaimUpdate | services/telegram_broker/bot.py:178-206 | taken exactly from the offset on, which lies above every claim ever made; the table is the pruned one |
| TelegramStores.TelegramUpdateStore.Prune | services/telegram_broker/bot.py:194-201 | the walk equals the specified table |
| TelegramStores.TelegramUpdateStore.Complete | services/telegram_broker/bot.py:208-223 | only a claimed row is finished, once |
| AuditRotation.RenameKeepsLines | services/common/audit.py:47-50 | a rename into the vacant slot changes nothing, read oldest to newest |
| AuditRotation.UnlinkDropsOldest | services/common/audit.py:45-46 | removing the oldest file drops exactly its lines |
| AuditRotation.AuditLog.Shift | services/common/audit.py:45-52 | cut short after any operation it lost at most the oldest file's lines |
| AuditRotation.AuditLog.Rotate | services/common/audit.py:34-52 | rotates exactly when the line would not fit the size read, 0 if it cannot be read; it loses at most the oldest file |
| AuditRotation.AuditLog.Audit | services/common/audit.py:54-79 | the retained files are always an unbroken run of the newest lines, whatever stops |

## Left out

- Adapters.Adapter.Convert: the prices of a request are not part of the ledger model; the order arithmetic treats them, and a price check that declines is a free choice here.
- Adapters.Adapter.Submit: the order quantity is a free choice; balance, filters and factory are the order arithmetic's. The manual entry of the TestNet route (services/execution_sidecar/main.py:310), which submits a fresh id without a claimed signal and a trade row, is not modelled.
- Adapters.Adapter.ResolveOperationIntents: the second pass may leave a PREPARED plan for ever, as the code does when the newest cancel is not confirmed; recovery is not claimed to drain.
- Adapters.Adapter.PlacePartialProtection: partial fills are protected without asking whether another intent is unresolved, as in the code.
- OrderManagers.OrderManager.ProcessSignal: the gates before the claim are one input; files, archives and audit lines are not part of this model.
- StateStores.StateStore.ActiveTradeForSymbol: which of several nonterminal rows is newest depends on the clock column, which is not modelled.
- QuotaLedgers.ContextManager.Provider: what the cache holds besides its time, and the snapshot returned to callers, are not modelled.
- EventTable.LateBindingAgrees: a binding writes identifiers and a lifecycle here; the protected quantity, mode and note written beside them are the adapter's `Patched`.
- The clock columns, `entry_client_order_id`, `trailing_delta` and the audit trail of trade and intent rows.
- The join of an event key's thirteen fields by colons is taken as injective; a row's last event is kept by its key.
- Interleavings of the order manager with the adapter are steps of the protocol; the class methods interleave with the exchange only.
- `verified_reconcile`, `start`, `set_enabled`, `tick`, stale-entry expiry, automatic protection management and the user-stream callbacks that schedule recovery.
- Hash checks of stored requests, SQLite errors, file modes and fsync, threads and locks beyond the one adapter lock.
- The exchange filters other than tick, step and trailing delta, that a price is positive, and the OCO and OTO permissions; order capacity and position limits.
- Exponent notation and special values in decimal text: the printer never writes them.
- `PairController.switch`, which bypasses the stages; registry hashes and eligibility beyond one yes or no.
- A write of the pair-switch stage file that raises is treated as the process dying there.
- A torn partial line in the audit file: a line is appended whole or not at all. Changing the rotation settings between calls.
- The Telegram menus, the simulation adapter, metrics, analytics and the callback store.
