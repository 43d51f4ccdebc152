# Kairos persistence: a verified model

A Dafny model of the durable protocols of `kairos-persistence`: what its transactions do to its
tables, and what stays true over every interleaving of those transactions with crashes, stalls,
lost connections, redelivery and replay. Check it with `dafny verify dfyconfig.toml`.

Tables are maps and sequences, a transaction is one function from an old state to a new one, and a
repository is a class whose methods update the tables in place and are proved to do exactly what the
function says. Programs that span several transactions (the dispatcher, the two offline tools, the
dispatch guard, the subscription loop, a ledger reservation) are methods that let other processes
take any steps in every gap; each is proved to be a run of its protocol. `Step`/`Op` datatypes and
`Run` functions give the interleavings; ghost traces record what left the database.

| files | what they model |
|---|---|
| `OutboxTable`, `OutboxProtocol`, `OutboxHistory`, `OutboxOrder`, `OutboxResolution`, `OutboxRepository`, `OutboxWorkers` | outbox rows, every claim, acknowledgement, quarantine and resolution; the dispatcher, the drain and the reconciler |
| `InboxProtocol`, `InboxHistory`, `InboxWorkers` | `message_transaction` and the subscription loop |
| `TradeLifecycle`, `TradeReplay`, `TradeFacts`, `TradeRepository` | the trade state machine, its hash-chained journal, its public facts and its replay validator |
| `OperatorState`, `OperatorProtocol`, `OperatorRepository` | the operator latch, admissions, claims and the dispatch guard that holds a lock across venue code |
| `MutationBudget` | the sliding-window mutation budget with its compensation reserve |
| `TapeState`, `TapeIntegrity`, `TapeSelection`, `TapeReachability`, `TapeRepository` | simulator tapes: recorders, sealer, verifier, book selection, bar pages |
| `SimJournal`, `SimHistory`, `SimRepository` | simulator trade events and once-only commands |
| `Percentile`, `ReadonlyEvidence`, `EvidenceRepository` | the read-only evidence recorder and verifier |
| `CanarySession`, `CanaryHistory`, `CanaryRepository` | bounded canary sessions and their attempts |
| `SourceLedger`, `SourceRepository` | paid-source reservations under a monthly budget and a cumulative cap |
| `CampaignClaims`, `CampaignCosts`, `CampaignTotals`, `CampaignAttempts`, `CampaignRepository` | the research campaign: window queue, cost journal, attempts, outcomes, denominator |
| `JsonBound` | the stack walk that bounds source JSON |
| `Common` | `Option` and `Result` |

## Assumptions

- A transaction is atomic and serialised by the locks it takes, except where a lock is held across
  several transactions (dispatch guard, ledger reservation) or is missing on purpose (ledger commit
  and release); those are separate steps.
- Outbox row ids are handed out in commit order. The outbox may start with any legacy rows, including
  `NONE` rows with a lease and attempts.
- SHA-256 over canonical JSON is a free constructor, so equal digests mean equal contents.
- The database clock is monotone. A budget reservation is stamped when it is inserted.
- A closed bar does not close before it opens, as its contract says.
- Money is whole micro-dollars, time whole milliseconds, prices and quantities are reals.

## Where the code and its documents differ

- `README.md:146-155` of the repository describes bounded retry and at-least-once sending. The code
  marks a row `PUBLISHING` when it claims it and never claims it again
  (`kairos_persistence/repository.py:1676-1688`, `1717-1719`); the model follows the code, and
  `OutboxProtocol.AtMostOneSend` proves at-most-once.
- Order per producer can be broken by `fail_outbox`, which revives a dead letter that still holds its
  lease: `OutboxHistory.ReviveBreaksOrder` is a legacy table where it happens. `Ordered` asks that sends
  rise in row id and that whatever a send passed stays settled; it is kept exactly by the runs that
  revive no row its producer has passed (`OutboxHistory.SendsFollowRowOrder`). A passed row that is
  revived and never sent breaks it although the sends still rise
  (`OutboxOrder.RevivalAloneSendsNothing`): of the sends alone, only such a row can come late
  (`OutboxOrder.LateSendsWereRevived`). Revivals are impossible exactly on tables without an unpublished
  leased dead letter (`OutboxHistory.CleanTablesAreReviveFree`); the order does not need that much, since
  a dead letter behind a row left PUBLISHING for ever is never passed
  (`OutboxOrder.BlockedTablesKeepTheOrder`).
- A transition journalled under the event type `CREATED` hides the state its successor's replay is
  checked against: `TradeReplay.MislabelledReplayIsRefused` is the case, `TradeReplay.ReplayIsCompleteIff`
  the exact condition.
- A KILL can commit while venue code runs once the guard's own database connection is lost:
  `OperatorRepository.LostConnectionAdmitsKill`; `OperatorProtocol.CommandsExcludeDispatch` says exactly
  when a command commits.
- `verify_tape` and `_stored_book_frame` read payloads, while book selection filters and sorts by columns
  that nothing compares with them. A verified tape can so answer with an older book
  (`TapeSelection.TwoBooksSelectWrongly`), with a book that was not there yet
  (`TapeSelection.EarlyClocksLookAhead`) or with another symbol's book
  (`TapeSelection.ForeignSymbolIsSelected`). The right answer is a matter of payloads: the symbol's last
  book persisted by the instant. `TapeSelection.SelectsRightlyIff` says exactly when the query gives it at
  every instant.
- `start_attempt` does not look at outcomes, so an arm recorded as BUDGET_BLOCKED can still be started:
  `CampaignAttempts.StartAfterOutcomeIsHidden`; `CampaignAttempts.NothingHiddenIff` says exactly which
  runs hide an attempt.
- The cost summary is keyed by attempt id alone, so operations that share an id can be left out:
  `CampaignTotals.SharedAttemptsAreMiscounted`. It never overstates, and `CampaignTotals.CostsAddUpIff`
  says exactly when it is complete.

## Model

Repository methods whose contract is exactly one specification function applied to the old tables have no
row of their own; the theorems about that function do.

| member | source | states |
|---|---|---|
| OutboxProtocol.AtMostOneSend | kairos_persistence/repository.py:1346-1796 | over every run each row is handed to the transport at most once, with its stored topic and payload, and any sent row is PUBLISHING, ACKNOWLEDGED or PUBLISH_OUTCOME_UNKNOWN |
| OutboxProtocol.SafeStep | kairos_persistence/repository.py:1656-1796 | one invariant of table, holders and trace survives every claim, send, acknowledgement, give-up, crash, quarantine and resolution |
| OutboxProtocol.StepEvolves | kairos_persistence/repository.py:680-1820 | what any single step may do to the table: no row deleted, no immutable column changed, no row back to NONE |
| OutboxHistory.RunEvolves | kairos_persistence/repository.py:891-1820 | the same over whole runs: reconciliation state never returns to NONE and a publication time stays |
| OutboxHistory.SendsFollowRowOrder | kairos_persistence/repository.py:1667-1820 | at every point of a run sends of one producer rise strictly in row id with every earlier row published or dead-lettered, iff the run never revives a dead letter its producer has passed |
| OutboxHistory.OrderedStepIff | kairos_persistence/repository.py:1798-1820 | one step keeps that order iff it is not a `fail_outbox` that revives a row of which a later one was sent or is held ready |
| OutboxHistory.CleanTablesAreReviveFree | kairos_persistence/repository.py:1798-1820 | no run can revive anything iff the table holds no unpublished dead letter with a lease |
| OutboxHistory.CleanTablesKeepTheOrder | kairos_persistence/repository.py:1667-1820 | from such a table every run keeps every producer's order |
| OutboxHistory.SendWaitsForPredecessors | kairos_persistence/repository.py:1390-1408 | the send itself happens only after all predecessors are settled |
| OutboxHistory.ReviveBreaksOrder | kairos_persistence/repository.py:1798-1820 | a legacy leased dead letter revived by `fail_outbox` is sent after its successor |
| OutboxOrder.LateSendsWereRevived | kairos_persistence/repository.py:1667-1820 | in a run from any legacy table, a row sent behind a later row of its producer was revived after it had been passed |
| OutboxOrder.SendsRiseIff | kairos_persistence/repository.py:1667-1820 | so the sends of a run rise per producer iff no row revived that way is sent behind a later one |
| OutboxOrder.RevivalAloneSendsNothing | kairos_persistence/repository.py:1798-1820 | a run that revives a passed row without sending it: the settled prefixes are broken, the sends still rise |
| OutboxOrder.BlockedTablesKeepTheOrder | kairos_persistence/repository.py:1667-1820 | every run keeps every producer's order if each leased dead letter waits behind a row left PUBLISHING by a process that is gone |
| OutboxTable.FailOutboxKeepsSettledIff | kairos_persistence/repository.py:1798-1820 | exactly when `fail_outbox` un-settles a row |
| OutboxTable.CandidateIsUnique | kairos_persistence/repository.py:1667-1716 | at most one row per producer is ever claimable |
| OutboxHistory.AckAlwaysApplies | kairos_persistence/repository.py:1734-1755 | after a returned send the acknowledging UPDATE always finds its claim, so ACK_NOT_APPLIED is never a race |
| OutboxHistory.NoFalseAcknowledgement | kairos_persistence/repository.py:1098-1344 | a row becomes published only by an acknowledged send or a resolution from matching evidence |
| OutboxHistory.QuarantineRepeats | kairos_persistence/repository.py:891-1096 | repeating a quarantine reports it and changes nothing, or is refused exactly if the audit changed |
| OutboxHistory.ResolveRepeats | kairos_persistence/repository.py:1098-1344 | repeating a resolution after any run reports the first resolution time |
| OutboxResolution.ResolvedRowsCarryProof | kairos_persistence/repository.py:1098-1344 | at every point of every run a resolved row carries the single positive match of its own stored payload, and was of unknown outcome before |
| OutboxResolution.ExactClaimIsTheCommittedRow | kairos_persistence/repository.py:756-820 | an exact claim succeeds iff the stored row, its digest, its audit copy, its lease and its place in the queue are those the operator committed to |
| OutboxRepository.AuditRepository.ClaimOutbox | kairos_persistence/repository.py:1656-1732 | claims the head of the producer's queue or nothing |
| OutboxRepository.AuditRepository.ClaimOutboxExact | kairos_persistence/repository.py:1346-1574 | the exact offline claims, with every rejection; the race branch is unreachable |
| OutboxWorkers.Deployment.PublishExact | kairos_persistence/offline_outbox_drain.py:67-139 | drain and reconcile: a rejection sends nothing, otherwise this call sent the row for the first and only time and the answer names the row's state |
| OutboxWorkers.Deployment.DispatchRound | kairos_persistence/runtime.py:334-412 | one dispatcher turn under interference is a run of the protocol and its result says what happened to the row |
| OutboxWorkers.Deployment.DispatchOutbox | kairos_persistence/runtime.py:334-437 | the whole loop is one run; rows reported published were sent and are distinct |
| InboxHistory.CommittedExactlyOnce | kairos_persistence/repository.py:616-678 | over any redeliveries, failures, crashes and lost commits a message has exactly one committed unit of work if its row became COMPLETED and none otherwise |
| InboxHistory.AcksFollowCommits | kairos_persistence/runtime.py:266-317 | every transport ACK is for a row COMPLETED under that very identity |
| InboxHistory.RunGrows | kairos_persistence/repository.py:534-614 | COMPLETED is for ever, identities and attempt counts never go back, committed work stays |
| InboxHistory.FailureCanBeRetried | kairos_persistence/repository.py:534-576 | a recorded failure leaves no write and the next delivery claims at once with a clean sheet |
| InboxHistory.CrashLeavesTheRow | kairos_persistence/repository.py:616-678 | a crash rolls back the claim too, so it blocks no redelivery |
| InboxHistory.DuplicateIsOnlyAcknowledged | kairos_persistence/repository.py:660-670 | a completed message delivered again is acknowledged without running the handler |
| InboxProtocol.SafeStep | kairos_persistence/repository.py:534-678 | the inbox invariant survives every step of every worker |
| InboxWorkers.DurableMessageBus.Deliver | kairos_persistence/runtime.py:266-317 | one delivery under interference: processed means its unit is committed, acknowledged means completed, left pending means this delivery committed nothing |
| InboxWorkers.DurableMessageBus.End | kairos_persistence/repository.py:650-678 | the four endings of a claimed delivery: commit once, record a failure without writes, or leave everything rolled back |
| InboxWorkers.DurableMessageBus.Subscribe | kairos_persistence/runtime.py:255-317 | the loop is one run; every processed or duplicate delivery ends COMPLETED and only the last can have stopped it |
| TradeLifecycle.AcceptedMove | kairos_persistence/trade_lifecycle.py:561-716 | an accepted transition keeps a sound row sound |
| TradeLifecycle.StatesAreOk | kairos_persistence/trade_lifecycle.py:41-84 | every state of a lawful journal is sound: fills within quantity, first fill iff filled, timeout fixed from it, CANCELLED means zero fill |
| TradeLifecycle.HistoryProgresses | kairos_persistence/trade_lifecycle.py:561-716 | along a journal fills only rise and identifiers, first fill and timeout are write-once |
| TradeReplay.ReplayIsSound | kairos_persistence/trade_lifecycle.py:1013-1112 | whatever is accepted as a replay of entry v would, applied to the state rebuilt before it, have produced exactly entry v |
| TradeReplay.ReplayIsCompleteIff | kairos_persistence/trade_lifecycle.py:1013-1112 | the request that produced entry v is accepted as its replay iff the entry before kept its own event type or the request carried everything recorded before it |
| TradeReplay.ReplayIsExact | kairos_persistence/trade_lifecycle.py:1013-1112 | unless CREATED was reused, replay decides exactly "this request produced that entry" |
| TradeReplay.ReplaySurvivesLaterEntries | kairos_persistence/trade_lifecycle.py:1013-1112 | later transitions do not change what a replay answers |
| TradeReplay.MislabelledReplayIsRefused | kairos_persistence/trade_lifecycle.py:1030-1060 | a concrete trade whose true request is refused as a replay |
| TradeReplay.LawfulVerifies | kairos_persistence/trade_lifecycle.py:1212-1234 | every journal the writers produce verifies |
| TradeReplay.HeadCommitsToJournal | kairos_persistence/trade_lifecycle.py:1212-1234 | two verifying journals with one head are the same journal of the same trade |
| TradeReplay.VerifyChain | kairos_persistence/trade_lifecycle.py:1212-1234 | the loop accepts exactly the verifying chains |
| TradeFacts.RetryIsExact | kairos_persistence/trade_lifecycle.py:394-488 | retrying a transition after any later history returns the stored fact and changes nothing, or is refused, with the exact condition |
| TradeFacts.CreationRetryIsExact | kairos_persistence/trade_lifecycle.py:307-339 | retrying a creation after any later history returns the stored fact and changes nothing |
| TradeFacts.EveryReachableTrade | kairos_persistence/trade_lifecycle.py:490-716 | every reachable row is the fold of a verifying journal of length version + 1 and only ever progressed |
| TradeFacts.AppendAgain | kairos_persistence/trade_lifecycle.py:907-1000 | a published fact binds every retry to the stored event |
| TradeRepository.TradeLifecycleRepository.Create | kairos_persistence/trade_lifecycle.py:490-559 | opens a trade once; a different trade under its id is refused |
| TradeRepository.TradeLifecycleRepository.MergeColumns | kairos_persistence/trade_lifecycle.py:1243-1249 | identifiers are write-once, column by column |
| TradeRepository.TradeLifecycleRepository.Verify | kairos_persistence/trade_lifecycle.py:1212-1234 | the chain of every stored trade verifies |
| OperatorProtocol.InvStep | kairos_persistence/operator_control.py:292-590 | lock, log, latch, admissions, claims, guards and trace stay consistent under every step, crash and lost connection |
| OperatorProtocol.DispatchesLinearize | kairos_persistence/operator_control.py:514-590 | commands and dispatches form one order: every dispatch runs under an ARM at exactly its admitted version and no effect or decision is dispatched twice |
| OperatorProtocol.StopEndsOldAuthority | kairos_persistence/operator_control.py:292-380 | after a KILL or DISARM nothing admitted before it dispatches |
| OperatorProtocol.CommandsExcludeDispatch | kairos_persistence/operator_control.py:292-380 | in every reachable state a command commits iff it is acceptable and no guard holds a live connection |
| OperatorProtocol.NobodyInsideAtCommit | kairos_persistence/operator_control.py:514-590 | without lost connections no venue callback is inside the guard when a command commits |
| OperatorProtocol.RepeatedCommandOnlyObserves | kairos_persistence/operator_control.py:313-327 | a command id is applied once; its repetition changes nothing |
| OperatorProtocol.LatchPassesAudit | kairos_persistence/operator_control.py:221-277 | every reachable latch agrees with its newest logged command |
| OperatorRepository.LostConnectionAdmitsKill | kairos_persistence/operator_control.py:514-590 | a concrete run in which a KILL commits while venue code runs after its guard lost its connection |
| OperatorRepository.OperatorControlRepository.Apply | kairos_persistence/operator_control.py:292-380 | the command transaction logs exactly the acceptable commands, and only while nobody is connected to the guard lock |
| OperatorRepository.OperatorControlRepository.FinalDispatchGuard | kairos_persistence/operator_control.py:514-590 | under any interference the guard runs venue code at most once, only with a committed claim, and never for an effect dispatched before |
| MutationBudget.EveryHistoryIsBounded | kairos_persistence/mutation_budget.py:122-210 | after any requests every window at every instant holds at most `capacity` grants, effects are distinct, and replays take no slot |
| MutationBudget.EveryWindowIsBounded | kairos_persistence/mutation_budget.py:148-190 | the bound holds at every instant, not only at grant times |
| MutationBudget.CompensationIsAlwaysGranted | kairos_persistence/mutation_budget.py:148-190 | with fewer than the reserve of compensating grants in the window a new compensating request is granted whatever came before |
| MutationBudget.OrdinaryLeavesReserve | kairos_persistence/mutation_budget.py:148-160 | ordinary grants never eat the reserve |
| MutationBudget.ExecutionMutationBudgetRepository.Reserve | kairos_persistence/mutation_budget.py:41-190 | one reservation decides as specified and keeps every scope within its budget |
| MutationBudget.ExecutionMutationBudgetRepository.Used | kairos_persistence/mutation_budget.py:192-210 | the scan counts the grants of the window |
| TapeIntegrity.WritersTapesVerify | kairos_persistence/simulation_repository.py:125-325 | whatever is recorded, replayed, refused or sealed, the stored tape verifies |
| TapeReachability.ReachableIffRecordable | kairos_persistence/simulation_repository.py:125-461 | the recordable tapes are exactly the verifying ones with honest columns, whole bars, barriers only at the end and a full seal |
| TapeIntegrity.UsableTapesHaveOneStream | kairos_persistence/simulation_repository.py:248-271 | an open or sealed tape holds one stream epoch per symbol with strictly rising update ids and clocks that never run back |
| TapeIntegrity.SelectionIsTapeOrder | kairos_persistence/simulation_repository.py:1031-1067 | selecting by persisted clock equals taking the end of the visible tape prefix |
| TapeIntegrity.SelectionIgnoresTheFuture | kairos_persistence/simulation_repository.py:1031-1067 | frames persisted later cannot change the selection |
| TapeIntegrity.SealCommitsToContents | kairos_persistence/simulation_repository.py:387-461 | two verified sealed tapes with one seal hash hold the same bars and frames |
| TapeIntegrity.FrameReplayIsNoop | kairos_persistence/simulation_repository.py:193-240 | a recorded frame can be delivered again without effect while the tape is open |
| TapeIntegrity.FramesNeverRelocate | kairos_persistence/simulation_repository.py:218-236 | the "replayed at a different sequence" branch is unreachable |
| TapeIntegrity.FinishedTapesAreFrozen | kairos_persistence/simulation_repository.py:1559-1567 | a blocked or sealed tape never changes |
| TapeIntegrity.VerificationIgnoresSortColumns | kairos_persistence/simulation_repository.py:1284-1332 | altering any frame's symbol, continuity or clock columns leaves the verdict of verification unchanged |
| TapeSelection.SelectsRightlyIff | kairos_persistence/simulation_repository.py:1031-1067 | the query returns, at every instant, the symbol's last admitted book by payload that was persisted by then, iff every frame that is ever that answer has honest symbol, continuity and clock columns and every other row its columns put before the query is hidden behind a later such frame of the clock it claims |
| TapeSelection.WritersTapesSelectRightly | kairos_persistence/simulation_repository.py:1031-1067 | on every unblocked writers' tape it is right for every symbol and instant |
| TapeSelection.AlteredClockSelectsWrongly | kairos_persistence/simulation_repository.py:1055-1064 | moving an older frame's clock column past the others keeps the verdict and the seal hash but makes that frame selected |
| TapeSelection.TwoBooksSelectWrongly | kairos_persistence/simulation_repository.py:1055-1064 | a concrete two-book tape that verifies and answers with the older book |
| TapeSelection.EarlyClocksLookAhead | kairos_persistence/simulation_repository.py:1055-1067 | a concrete tape that verifies and, at 15, answers with the book persisted at 20 |
| TapeSelection.ForeignSymbolIsSelected | kairos_persistence/simulation_repository.py:1055-1067 | a concrete tape that verifies and answers a query for one symbol with another's book, and a query for that one with an older book |
| TapeRepository.SimulationRepository.RecordBookFrame | kairos_persistence/simulation_repository.py:193-325 | appends the next global frame, blocks on a barrier, never reports a relocation |
| TapeRepository.SimulationRepository.Seal | kairos_persistence/simulation_repository.py:387-461 | seals once over all five symbols and returns the stored seal afterwards |
| TapeRepository.SimulationRepository.VerifyTape | kairos_persistence/simulation_repository.py:1231-1353 | on any stored rows, accepts exactly the verifying tapes |
| TapeRepository.SimulationRepository.LoadLatestBookFrame | kairos_persistence/simulation_repository.py:1031-1067 | returns the last frame of the symbol visible at the instant, or nothing |
| TapeRepository.SimulationRepository.LoadClosedBarPage | kairos_persistence/simulation_repository.py:1069-1156 | returns exactly the slice after its cursor |
| TapeRepository.PagesCoverTheTape | kairos_persistence/simulation_repository.py:1069-1156 | reading page after page gives every bar once, in order, for any page size |
| SimHistory.BooksStayOk | kairos_persistence/simulation_repository.py:698-871 | every reachable trade verifies and journals, receipts and snapshot writes only grow |
| SimHistory.CommandsTakeEffectOnce | kairos_persistence/simulation_repository.py:750-871 | a command's liquidity snapshot is written exactly once iff it is COMPLETED, and it has a receipt in the same case |
| SimHistory.CompletionRepeats | kairos_persistence/simulation_repository.py:805-825 | completing again after anything else returns the receipt and changes nothing |
| SimHistory.HeadCommitsToEvents | kairos_persistence/simulation_repository.py:1355-1396 | two verifying journals with one head are the same journal and state |
| SimRepository.SimulationRepository.VerifyTradeChain | kairos_persistence/simulation_repository.py:1355-1396 | on any stored rows, accepts exactly the verifying chains |
| ReadonlyEvidence.AcceptedEvidenceIsSound | kairos_persistence/canary_session.py:214-287 | accepted evidence covers 99% to 100% of the run's instants for every symbol and at most one twentieth of each metric's values exceed 25 bps |
| ReadonlyEvidence.CreditIsCoverage | kairos_persistence/canary_session.py:246-262 | credited milliseconds are exactly the number of covered instants: intervals are disjoint and inside the run |
| ReadonlyEvidence.RecordedEvidenceIff | kairos_persistence/canary_session.py:312-358 | evidence the recorder wrote is refused only for what it says: chain, order and clocks are always in order |
| ReadonlyEvidence.RedeliveryIsNoop | kairos_persistence/canary_session.py:325-336 | an observation delivered again changes nothing |
| ReadonlyEvidence.HeadCommitsToSamples | kairos_persistence/canary_session.py:179-189 | one head determines the samples |
| Percentile.P95MeansOneTwentieth | kairos_persistence/canary_session.py:266-271 | the percentile test holds iff at most one twentieth of the values exceed the limit |
| EvidenceRepository.CreditNeedsValues | kairos_persistence/canary_session.py:263-271 | a symbol with credited time has measured values, so the percentile never reads an empty list |
| EvidenceRepository.CanarySessionRepository.VerifyReadonlyEvidence | kairos_persistence/canary_session.py:214-287 | total; accepts exactly the acceptable evidence, reports its true metrics, and justifies each refusal |
| EvidenceRepository.CanarySessionRepository.AppendObservation | kairos_persistence/canary_session.py:312-358 | keeps the chain intact, and a certified run sealed |
| EvidenceRepository.CanarySessionRepository.CertifyReadonly | kairos_persistence/canary_session.py:360-390 | certifies acceptable evidence once; repeating returns the stored receipt whenever it is repeated |
| CanaryHistory.SessionsMoveForward | kairos_persistence/canary_session.py:392-579 | attempts are a prefix of the plan within the cap with at most the newest unfinished, one session per project is active, and every session and attempt only moves forward |
| CanaryHistory.ArmsStayStored | kairos_persistence/canary_session.py:850-999 | arms are never deleted, so every attempt's arm stays stored |
| CanaryHistory.StopIsFinal | kairos_persistence/canary_session.py:554-579 | after a stop no attempt is added or consumed |
| CanaryHistory.ReservationRepeats | kairos_persistence/canary_session.py:850-925 | from any reachable state a repeated reservation reports the stored attempt at any later time |
| CanaryHistory.DrainingEnds | kairos_persistence/canary_session.py:503-539 | a draining session with settled attempts ends at its next refresh, ABORTED iff the operator stopped it |
| SourceLedger.CapHolds | kairos_persistence/source_state.py:248-410 | from adoption on historical, committed and reserved cost never exceeds the larger of the adopted level and the cap, with commits and releases landing between a sum and its insert |
| SourceLedger.InsertFitsItsLimit | kairos_persistence/source_state.py:290-345 | a reservation still fits its limit when it lands |
| SourceLedger.LedgerMovesForward | kairos_persistence/source_state.py:350-410 | a reservation is finalised at most once, at no more than it reserved, and adoptions are never replaced |
| SourceLedger.ReservingRepeats | kairos_persistence/source_state.py:280-303 | reserving again after any run changes nothing: it reports the stored row as it is by then iff units, unit cost and, without an adopted campaign, the month agree |
| SourceLedger.CommittingRepeats | kairos_persistence/source_state.py:350-384 | committing again after any run reports the same row, and a committed row is never released |
| SourceLedger.ReleasingRepeats | kairos_persistence/source_state.py:386-410 | releasing again after any run reports the same row, and a released row is never committed |
| SourceRepository.SourceStateRepository.ReserveUsage | kairos_persistence/source_state.py:248-348 | the two-part reservation under interference and process loss is a run of the ledger |
| SourceRepository.SourceStateRepository.CampaignUsage | kairos_persistence/source_state.py:165-186 | its three parts add up to the provider's level |
| CampaignClaims.ClaimKeepsPrefix | kairos_persistence/research_campaign.py:335-373 | claims stay a prefix of the schedule's sort order |
| CampaignClaims.NoWindowTwice | kairos_persistence/research_campaign.py:335-373 | no window is claimed twice |
| CampaignClaims.ClaimNext | kairos_persistence/research_campaign.py:335-373 | claims the first eligible window in sort order, or nothing if there is none |
| CampaignCosts.RecordKeepsRows | kairos_persistence/research_campaign.py:1067-1137 | every stored cost receipt stays justified by the stages before it, in the order the summary reads |
| CampaignTotals.CostsAddUpIff | kairos_persistence/research_campaign.py:1504-1545 | committed plus outstanding cost never exceeds the sum, over requests not denied, of the committed amount where known, else the requested one; and equals it iff every such operation of some cost is the one its attempt id is counted for |
| CampaignTotals.CostlyOperationsAddUpIff | kairos_persistence/research_campaign.py:1504-1545 | if no operation is free, equality holds iff each attempt id has at most one operation not denied, reserved where another under the id was denied |
| CampaignTotals.CostsAddUp | kairos_persistence/research_campaign.py:1504-1545 | given attempt ids distinct across samples and arms, the sum is exact |
| CampaignTotals.SharedAttemptsAreMiscounted | kairos_persistence/research_campaign.py:1512-1526 | two open operations sharing an attempt id are counted once |
| CampaignAttempts.OneCompletionPerAttempt | kairos_persistence/research_campaign.py:842-1035 | no attempt has both a review and a terminal, and each belongs to its arm's one START |
| CampaignAttempts.OutcomesFollowHistory | kairos_persistence/research_campaign.py:1253-1321 | an outcome names an attempt iff the START was stored before it, and then reports the status derived from the history stored by then |
| CampaignAttempts.SealIsComplete | kairos_persistence/research_campaign.py:1466-1552 | a sealed campaign has exactly one outcome per scheduled window and arm for ever |
| CampaignAttempts.ArmsShareInputs | kairos_persistence/research_campaign.py:1230-1252 | the outcomes of one window that name a bundle or an evaluation name the same one |
| CampaignAttempts.NothingHiddenIff | kairos_persistence/research_campaign.py:793-840 | over a run no outcome hides an admitted attempt iff no arm is started after its outcome |
| CampaignAttempts.StartHidesIff | kairos_persistence/research_campaign.py:820-840 | `start_attempt` hides a START iff it stores one for an arm whose outcome is stored |
| CampaignAttempts.StartAfterOutcomeIsHidden | kairos_persistence/research_campaign.py:793-840 | a concrete arm recorded as BUDGET_BLOCKED and started after that |
| CampaignRepository.ResearchCampaignRepository.ClaimNext | kairos_persistence/research_campaign.py:335-373 | the stored claims grow by the first eligible window |
| CampaignRepository.ResearchCampaignRepository.SealDenominator | kairos_persistence/research_campaign.py:1466-1552 | seals iff every window and arm has its outcome; the report hashes and counts exactly these outcomes, and later calls return it whatever arrived since |
| JsonBound.BoundedJson | kairos_persistence/research_evidence.py:979-1004 | terminates on every value, even a recursive one, and accepts exactly those within the node, depth, text, key and number bounds |
| JsonBound.RecursiveValuesAreRefused | kairos_persistence/research_evidence.py:979-1004 | a value that contains itself at any depth is refused |
| JsonBound.PushChildren | kairos_persistence/research_evidence.py:990-997 | pushing a node's children puts exactly the node's remainder on the stack |

## Left out

- PostgreSQL itself: SQL, MVCC, roles and privileges. Of the schema's constraints and triggers only three are relied on: an attempt's arm and a command's receipt have unique ids, and a sealed campaign denominator rejects new claims, starts, outcomes and budget requests.
- Contract validation of `kairos_core` models: records carry only the fields the code compares.
- Time zones, microseconds and the `isoformat` text that enters hashes: instants are whole milliseconds.
- Floating point: availability and the percentile rank use exact arithmetic, where the code multiplies by 0.95 and divides in floats; prices, fills and basis points are reals.
- UTF-8 encoding errors: text is a sequence of valid characters.
- Outbox: the normalisation of reconciliation ids and reasons is a plain equality; the canonical size of Redis evidence is an input; `append_payload_strict`'s audit comparison covers only the fields the offline tools read.
- Inbox: `claim_message`, `complete_message` and `fail_message` called on their own, outside `message_transaction`.
- Asyncio cancellation: only its outcomes (before the send, after it, during an acknowledgement, process loss).
- Trades: recovery epochs, equity rows and listing queries; a refused identifier merge is one error where the code has a blank and a conflict kind; the first sequence number of the public log is a parameter.
- Operator: role checks; a command that finds the lock taken is a refused step to be tried again rather than a blocked one; scope and remote account are one lock key.
- Canary: the field comparisons of `_entry_binding` and `final_dispatch`, whose lock protocol is the operator guard's; the review and arm contents; whether another arm is active on the account.
- Simulator: sessions, risk decisions, admissions, results and session receipts; audit and outbox artifacts; the recorder's cursor.
- Campaign: capture of sources, bundles and evaluations (they enter as facts), and the causal extension with its pairs.
- Source state: cursors and the monthly report.
- `execution_journal.py`: its chain and its transition table repeat the trade journal's on a smaller state.
- `usage_budget.py`, `runtime_health.py`, `news_processing.py`, `simulator_proposals.py`, `offline_writer.py`, `canary_arm.py` beyond `consume`, metrics, cockpit, configuration and command lines.
