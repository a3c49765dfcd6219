# A verified model of the run-execution core

The SDK runs a coding agent behind a Driver and promises its caller a few things that are enforced by
several mutex-guarded state machines passing messages, events, leases and checkpoints to one another.
This project models those state machines and proves the promises over every interleaving of their
atomic steps:

* **Thread ownership** (`ThreadOwnership.dfy`): any number of runtimes over one fenced store. One step
  is one store call, which may fail before or after it takes effect, a grant included: nobody then holds
  its token. No checkpoint write lands on a record of another writer that its own writer has not read.
* **Event broker** (`EventLog.dfy`, `EventBroker.dfy`, `ForgedReports.dfy`, `StandaloneBroker.dfy`): channel, overflow queue,
  pump, drop aggregate, pruning. It is one append-only log with exact loss accounting, inside executions
  and, with one bounded channel, outside them.
* **Message hub** (`HubModel.dfy`, `HubInvariants.dfy`, `HubSteps.dfy`, `HubTheorems.dfy`,
  `HubClaims.dfy`, `HubBatches.dfy`, `HubPromises.dfy`, and the object in `MessageHub.dfy`): admission, batched claims,
  acknowledgements, durable receipts, turn budget, sealing. The hub's history is a journal of what it
  pushes to the event sink and what it hands out; a small automaton over the journal of one id says
  which histories are lawful, and the main invariant is that the journal of every id is lawful and
  agrees with the item's fields.
* **Execution** (`Execution.dfy`, `ExecutionLoop.dfy`): the hub and the broker together, up to the
  final Done, and the loop that calls Driver.Run.
* **Approvals** (`Approval.dfy`), **verdict precedence** (`Verdict.dfy`), **standby** (`Standby.dfy`),
  the **Claude hook writer** (`HookWriter.dfy`).
* **Algorithmic cores**: the type-graph search behind structured output (`TypeGraph.dfy`), the stream
  protocol checker (`StreamVerify.dfy`), byte-budgeted history (`Utf8.dfy`, `ThreadHistory.dfy`), result
  composition (`Compose.dfy`), usage telescoping (`ClaudeUsage.dfy`).

Where the source updates an object or loops, there is a class or a method with a loop, proved equal to
a specification function; the properties are lemmas about those functions and hold for the objects by
those equations. A mutex section, a channel operation or a context cancellation is one step; runs are
arbitrary sequences of steps.

Assumptions, taken from the contracts of parts that are not modelled: leases are exclusive, tokens are
never reused and Finalize checks them; equal StableHash values mean equal records; a fresh session is
no longer `Reused`; the id of a starting prompt is not yet known to the hub; publishers do not use the
broker's own source name in their loss reports; limits are at least one after defaults are applied.
Time is an ordered number, errors are sets of causes, and the host's formatting function is arbitrary.

Results where the code does not do what one would expect, each with a concrete run and the exact
condition:

* A recovery can reject the runtime's own checkpoint: a write that was applied although the store
  reported an error, superseded by a newer retained checkpoint, looks like another writer's advance
  (`RecoveryRejectsOwnCheckpoint`, `RejectionExplained`).
* A Send can return nil and get no outcome: the id of the wrap-up instruction is known to the hub, so a
  Send under that id is taken for a repeat, and an instruction that is never delivered is not reported.
  docs/api-reference.md:249 says that nil means admission; that every nil is followed by exactly one
  outcome holds if and only if the id is not that of an undelivered instruction (`NilWithoutOutcome`,
  `SendIsSettled`).
* A carried prompt whose receipt is loaded afterwards is delivered a second time, because `load` passes
  over claimed messages other than the starting prompt (`CarriedPromptDeliveredTwice`, `StepReceipts`).
* In callback form an approval that succeeded is not honoured if the handler then fails or panics, or if
  it comes between a fruitless take and the expiry (`FailingHandlerDropsApproval`, `CallbackFormHonours`).
* Composing in groups loses the text if the last group is empty, and misplaces message turns if turn
  counts are negative (`EmptyGroupLosesText`, `NegativeTurnsMisplaceMessages`, `GroupingIsExact`).
* A text that was cut to the history budget is not always the oldest one kept: up to one byte of an older
  one can precede it (`OlderFragmentSurvivesCut`, `CutTextIsOldest`).
* Forged drop reports with the broker's own source break the loss accounts, unless such reports
  together claim just their own number (`ForgedMarkerBreaksCounts`, `CountsBalanceExactly`).
* Outside executions an abort makes the broker forget losses it has not reported yet; without an abort it
  never does (`AbortForgetsLoss`, `StandaloneBroker.Conservation`).

## Model

| member | source | states |
|---|---|---|
| `ThreadOwnership.NoLostUpdate` | thread_runtime.go:67-110 | over every interleaving of any number of runtimes each write replaces the record its writer had last read or the writer's own latest write, and a write after another runtime's write replaces exactly that runtime's record, which its writer had read |
| `ThreadOwnership.RunStaysUpToDate` | thread_runtime.go:181-221 | in every run an owner that has read the key knows the store's record, unless the latest write is its own |
| `ThreadOwnership.OwnershipErrorIsFinal` | thread_runtime.go:165-221 | once a runtime has recorded an ownership error it never writes the key again, whatever happens |
| `ThreadOwnership.RejectionExplained` | thread_runtime.go:201-221 | a recovery records the ownership error exactly if the durable record is neither the confirmed version nor the pending one; then another runtime wrote since, or the record is the runtime's own superseded checkpoint |
| `ThreadOwnership.RecoveryRejectsOwnCheckpoint` | thread_runtime.go:241-287 | a run with a single runtime that rejects its own checkpoint |
| `ThreadOwnership.RunKeepsInv` | thread_runtime.go:112-163 | every run keeps: the owner's token is held or lost, only a reader of the current record holds the key unvalidated, retained checkpoints wait for validation |
| `ThreadOwnership.ActKeeps` | thread_runtime.go:289-383 | every single store call of acquire, validate, renew, flush, release and recovery keeps the runtime's own invariant |
| `ThreadOwnership.ActWrites` | threadstore_engine.go:82-142 | a store call writes at most one record, and only one that the writer may write |
| `EventBroker.Conservation` | event_broker.go:286-322 | at Done: published events are those in the log plus the reported drops, in number and per kind; every dropped number lies in a marker's range; critical events survive in publication order; the log is increasing and ends with the terminal event |
| `EventBroker.RefinesAppendOnlyLog` | event_broker.go:465-475 | with a subscriber, received events, channel, queue and in-flight head are one log that only grows |
| `EventBroker.TerminalIsLast` | event_broker.go:102-149 | after the terminal event the log and the published events never change |
| `EventBroker.TerminateEnds` | event_broker.go:102-149 | publishing the terminal appends exactly it to the flushed log |
| `EventBroker.RunKeepsInv` | event_broker.go:153-227 | every interleaving of publishers, waiters, subscribers, Result-only callers, abort, close, pump and reader keeps shape and accounts |
| `ForgedReports.ForgedMarkerBreaksCounts` | event_broker.go:533-554 | the shortest runs in which a forged drop report breaks the accounts: one report of any number but one |
| `ForgedReports.CountsBalanceExactly` | event_broker.go:303-322 | at Done, with callers free to forge reports, the log balances the published events if and only if the forged reports claim in sum as many events as there are forged reports |
| `ForgedReports.RunTallies` | event_broker.go:533-554 | in every run published events, each report counted as what it claims, equal those in the log plus the pending drops |
| `EventLog.SiftAccounts` | event_broker.go:533-554 | pruning keeps the accounts |
| `EventLog.SiftRetainsFirst` | event_broker.go:533-554 | pruning keeps all critical events and the first ordinary ones up to capacity, in order |
| `EventLog.SettledCounts` | event_broker.go:476-485 | with no pending drops the counts and kinds balance exactly |
| `EventBroker.SpoolingBroker.PublishSection` | event_broker.go:153-227 | the object's publication is the specified one |
| `EventBroker.SpoolingBroker.PruneUnobservedLocked` | event_broker.go:533-554 | the object's pruning loop is the specified one |
| `EventBroker.SpoolingBroker.PublishTerminal` | event_broker.go:102-149 | the object's terminal publication is the specified one |
| `EventBroker.SpoolingBroker.PumpOnce` | event_broker.go:555-589 | a round of the pump hands the head over and leaves the log as it was |
| `StandaloneBroker.Conservation` | event_broker.go:190-227 | outside executions, over every sequence of publications with their waits, terminals, closes, aborts and reads: published events are those in the log, the reported drops and the drops not reported yet, in number and per kind; every missing number is covered; accepted critical events survive in order; the log is increasing and ends with the terminal event; at the end nothing is unreported unless the broker was aborted; in blocking mode the log is what was published |
| `StandaloneBroker.RunKeepsInv` | event_broker.go:190-284 | every such run keeps the reserve, the accounts and the end, and only appends to the log |
| `StandaloneBroker.EndIsFinal` | event_broker.go:85-97 | after the terminal event or close nothing is accepted or appended |
| `StandaloneBroker.ReserveIsFree` | event_broker.go:122-149 | whatever is published, forged reports included, the terminal's slot is free, so the panic is unreachable |
| `StandaloneBroker.PublishLosses` | event_broker.go:190-227 | for any event losses reported and pending grow by one exactly if it is dropped, by what it claims if it is an accepted forged report, and not otherwise; a live broker in drop mode refuses no delta |
| `StandaloneBroker.AbortForgetsLoss` | event_broker.go:124-133 | a run in which a delta is lost and no marker tells, because of an abort |
| `StandaloneBroker.BoundedBroker.PublishTerminal` | event_broker.go:122-149 | the object's terminal publication is the specified one, and its panic branch is unreachable |
| `StandaloneBroker.BoundedBroker.PublishContext` | event_broker.go:190-227 | the object's publication is the specified one, reply and state |
| `StandaloneBroker.BoundedBroker.FlushDroppedLocked` | event_broker.go:324-365 | the object's flush is the specified one: one marker with the next number, or the losses stay |
| `StandaloneBroker.BoundedBroker.SendLocked` | event_broker.go:250-284 | the waiting loop sends as soon as a probe finds room below the reserve, and gives up only on abort or context end |
| `HubTheorems.ExactlyOneOutcome` | messages.go:674-747 | in every run no id has two terminal updates or an unlawful history, and once the hub has finished every id with an Accepted update has exactly one; for replies of Send see `HubPromises.SendIsSettled` |
| `HubPromises.SendIsSettled` | messages.go:391-393 | in every run a message whose Send returned nil is settled, once the hub has finished, by exactly one terminal update if and only if its id is not that of an undelivered instruction, and then by none; an id that was new at the Send always is |
| `HubPromises.KnownIsSettled` | messages.go:725-735 | every id that a finished hub knows has exactly one terminal update, an undelivered instruction's has none |
| `HubPromises.NilWithoutOutcome` | messages.go:621-672 | with a limit of two turns, a run in which a Send under the instruction's id returns nil and gets no terminal update |
| `HubClaims.SettledIsFinal` | messages.go:674-747 | terminal message states are absorbing in every run, and a message's id, text, timing and origin never change |
| `HubTheorems.NoSendAfterFinish` | messages.go:356-377 | after any run in which the hub finished, whatever runs next, the hub stays finished and idle and every Send is rejected and changes nothing |
| `HubTheorems.RunIsSealed` | messages.go:725-747 | in every run a finished hub has no open message |
| `HubTheorems.ClaimOwnership` | messages.go:674-713 | in every run a message handed out twice was returned in between, is offered again only at stop or turn end, and is flagged exactly if a return said it may have been delivered |
| `HubTheorems.HandedAgain` | messages.go:529-619 | the same for any lawful journal |
| `HubTheorems.AdmissionOrder` | messages.go:552-597 | in every run each hand-out of a sent message comes, in the journal, after every earlier admitted message of its timing was handed out or settled |
| `HubTheorems.TurnBudget` | messages.go:852-879 | current turn is completed turns plus one; TurnEnd numbers are 1, 2, 3, ... up to at most MaxTurns; every hand-out is for a turn in 1..MaxTurns; never-handed messages are at most MaxPending |
| `HubTheorems.AtMostOneTurn` | messages.go:861-867 | an id appears in at most one TurnEnd |
| `HubSteps.RunKeepsInv` | messages.go:281-315 | every run keeps index, journal, budget, order and capacity invariants |
| `HubSteps.StepKeepsInv` | messages.go:334-945 | so does every single locked section and context cancellation |
| `HubSteps.ClaimKeepsInv` | messages.go:529-619 | a claim with its failures, hand-outs and policy instruction keeps them |
| `HubSteps.CompleteTurnKeepsInv` | messages.go:852-874 | completing a turn keeps them |
| `HubClaims.StepReceipts` | messages.go:757-782 | no open message has a receipt after any step, except exactly after a load that overlooks a claimed message other than the starting prompt |
| `HubClaims.RunReceipts` | messages.go:757-782 | hence over every run whose loads overlook nothing |
| `HubClaims.LoadReceipts` | messages.go:757-782 | loading keeps receipts out if and only if it overlooks nothing |
| `HubClaims.CarriedPromptDeliveredTwice` | messages.go:901-918 | a carried prompt whose receipt is loaded later stays open and gets a second receipt |
| `HubBatches.ClaimHandsOutLongestPrefix` | messages.go:529-619 | the host part of a claim is the longest prefix of the eligible messages whose two-newline join fits the limit; a claim is empty exactly if closed, nothing is eligible, or it needs a successor turn and none remains; the join of the whole batch with the instruction fits |
| `HubBatches.NoticeJoinsExactly` | messages.go:621-672 | the wrap-up instruction joins exactly if it may be offered at this boundary and the whole batch with it fits |
| `HubBatches.NoticeTakesFirstFreeId` | messages.go:624-643 | the id search ends, and a new instruction takes the first id of its sequence that is neither known nor has a receipt |
| `HubBatches.ThresholdIsDocumented` | messages.go:876-879 | the wrap-up threshold is the documented minimum of four fifths of MaxTurns, rounded up, and MaxTurns - 1 |
| `HubBatches.ReceiptNeverClaimed` | messages.go:552-597 | no host message that a claim offers has a receipt |
| `Utf8.JoinUnits` | messages.go:472-481 | counting parts and separators counts the joined text exactly, in bytes or UTF-16 units, for arbitrary bytes |
| `Messages.MessageHub.Send` | messages.go:356-433 | one pass of admission is the specified one, reply and state |
| `Messages.MessageHub.SetCapability` | messages.go:438-456 | installing a capability reconciles every waiting message as specified |
| `Messages.MessageHub.Claim` | messages.go:529-619 | the selection loop, hand-out and instruction are the specified claim |
| `Messages.MessageHub.PrependWrapUpLocked` | messages.go:621-672 | the instruction is prepended as specified |
| `Messages.MessageHub.Ack` | messages.go:674-713 | acknowledgement is the specified one |
| `Messages.MessageHub.CancelPending` | messages.go:714-724 | cancellation fails exactly the unclaimed messages |
| `Messages.MessageHub.Finish` | messages.go:725-735 | finishing fails exactly the open messages |
| `Messages.MessageHub.CloseIfIdle` | messages.go:736-747 | closes exactly if no message is open |
| `Messages.MessageHub.Load` | messages.go:757-782 | receipts newer than the cutoff are remembered once and deduplicate as specified |
| `Messages.MessageHub.StartMessage` | messages.go:805-827 | the starting prompt is admitted and held, or deduplicated |
| `Messages.MessageHub.CarryPrompt` | messages.go:901-918 | a carried prompt is admitted and held exactly if it is unknown and has no receipt |
| `Messages.MessageHub.AckPrompt` | messages.go:922-945 | every prompt of a Run is settled, start first |
| `Messages.MessageHub.CompleteTurn` | messages.go:852-874 | the TurnEnd lists the messages delivered in that turn, in admission order |
| `Execution.SettledBeforeDone` | invocation.go:122-160 | over every interleaving of hub steps, pushes, other publishers, readers and teardown: Done is the last event of the log; every message ever admitted, and every id the hub knows other than an undelivered instruction's, is reported settled by exactly one event, which is not Done; an undelivered instruction's id by none |
| `Execution.SendReportedBeforeDone` | invocation.go:122-160 | a Send that returned nil during the execution is reported settled exactly once before Done if its id was new or a caller's message, and in general unless it is an undelivered instruction's |
| `Execution.ActKeepsWorld` | invocation.go:122-160 | every step of hub, broker and teardown keeps the joint invariant |
| `Execution.LogReports` | event_broker.go:153-189 | the log reports of each id exactly what the journal held when Done was published |
| `ExecutionLoop.Execute` | invocation.go:291-438 | at most MaxTurns + 1 calls of Driver.Run, whatever the Driver and others do during a Run and between the loop's own hub calls, and at the end every message is settled |
| `ExecutionLoop.RunCompletesTurn` | invocation.go:321-334 | a Run that is not retried afresh completes a turn or the budget is spent |
| `ExecutionLoop.Continue` | invocation.go:378-403 | the loop goes on only with budget left and a non-empty claim |
| `HookWriter.EveryItemAcknowledged` | claude/messages.go:124-258 | for every id and interleaving, with a cancellation possible before each single acknowledgement: written jobs are a prefix of accepted jobs; when the writer is gone every accepted job is completed and each id is acknowledged exactly as often as submitted, but for refused jobs whose enqueue has not returned, and as delivered exactly as often as it stands in a written job |
| `HookWriter.StepKeepsInv` | claude/messages.go:164-218 | every step keeps order and accounts |
| `HookWriter.MessageSession.Enqueue` | claude/messages.go:124-140 | a job is queued, or refused under the lock and acknowledged after it |
| `HookWriter.MessageSession.CompleteItems` | claude/messages.go:147-162 | one acknowledgement for each item, in order, each with the context as it is found for that item |
| `HookWriter.MessageSession.Round` | claude/messages.go:164-218 | one round of the writer is the specified four steps |
| `Verdict.OutcomeIsRanked` | invocation.go:317-323 | with anything happening between the six separate reads of sink and context, three for classification and three for finalization, and the structured output in between: decision failure while live, as the read of the pending failure finds it, then provider failure as the first read finds it, then cancellation, then a decision that failed after a cancellation in the meantime, then the response's own failure or error, then process status, then structured output, then success |
| `Verdict.ConcludedIsRanked` | invocation.go:641-731 | the same for any six successive states of the sink within one Run |
| `Verdict.EarlyDecisionWins` | sink.go:372-380 | a decision that failed while the context was live is the outcome even if reported after classification, up to the read of the pending failure |
| `Verdict.ProviderVerdict` | sink.go:137-148 | which provider failure is reported, and that it is the first complete one or else the first transcript one since the dispatch |
| `Verdict.ProviderIsFirst` | sink.go:232-236 | the sink's memory of provider failures against the history |
| `Verdict.MemoryOfDecisions` | sink.go:372-415 | the sink's memory of decision failures against the history |
| `Verdict.PersistedTurnSucceeded` | invocation.go:619-631 | whenever the checkpoint may be persisted the same turn finalized as success, whenever finalization made its reads |
| `Approval.ExactlyOnce` | approval.go:278-348 | over any race of copies, deadline, abort and run end at most one response succeeds and the ready channel closes once |
| `Approval.EventFormHonours` | sink.go:645-702 | in event form the Driver gets exactly the response whose call returned nil |
| `Approval.CallbackFormHonours` | sink.go:590-643 | in callback form it does too, except exactly in the listed cases |
| `Approval.FailingHandlerDropsApproval` | sink.go:612-616 | a handler that approves and then fails |
| `Approval.Responder.Expire` | approval.go:318-329 | expiring is the specified step and recovers a response that won |
| `Approval.Request.Forward` | approval.go:376-387 | a forwarded request shares the responder |
| `Approval.Request.Answer` | approval.go:260-276 | an answer settles with the offered choice it names, and only questions take answers |
| `Approval.RequestDecision` | sink.go:443-497 | at most MaxRetries + 1 asks, all but the last retryable failures; a failure is recorded exactly if a rejection or timeout ends the run or the aborted ask had recorded one |
| `Approval.CallbackRecordsExactly` | sink.go:604-629 | by callback a failure is recorded exactly on such a rejection or timeout, on a panic, or on a return without a response |
| `Standby.NothingSilentlyLost` | standby_runtime.go:161-303 | in every reachable state each accepted id either waits (queued, carried or owned by the running execution) or has had its last word said, and never both, so dropping a waiting one is excluded |
| `Standby.NoSecondRestart` | standby_runtime.go:383-426 | an automatically restarted execution is not followed by another automatic restart |
| `Standby.DrainedIsReported` | standby_runtime.go:326-334 | after the lifetime every accepted id has had its last word said, by its last execution or by the drain |
| `Standby.LostIsKept` | standby_runtime.go:386-421 | what a failed run did not deliver waits again, unless it was cancelled |
| `Standby.StandbyStream.Send` | standby_runtime.go:161-244 | one pass of Send under the lock is the specified one, reply and state |
| `Standby.StandbyStream.HubAnswers` | standby_runtime.go:194-215 | the running hub's own decision outside the lock: taken, finished, or rejected |
| `Standby.StandbyStream.FailQueuedLocked` | standby_runtime.go:288-303 | every waiting id is reported, each once |
| `Standby.StandbyStream.CompleteExecution` | standby_runtime.go:383-426 | completion is the specified step |
| `TypeGraph.SchemaTypeHasCycle` | structured.go:282-330 | true if and only if a cycle, possibly of pointers only, is reachable over exported, not omitted fields and element edges |
| `TypeGraph.ValidateSchemaType` | structured.go:226-280 | accepts if and only if no unsupported type or map key is reachable |
| `TypeGraph.CycleSearch.HasCycle` | structured.go:282-330 | the search with its active and visited sets decides reachability of a cycle |
| `TypeGraph.StripPointers` | structured.go:286-293 | follows a pointer chain to its end or detects that it has none |
| `TypeGraph.SchemaValidator.Validate` | structured.go:226-280 | the recursive validation with its stack decides reachability of a bad type |
| `StreamVerify.VerifyStreamSequence` | adaptertest/verify.go:185-452 | no violation if and only if the trace obeys the rules EVT-01 to EVT-11 and EVT-13 as stated about the whole trace |
| `StreamVerify.WalkIsSound` | adaptertest/verify.go:213-432 | a clean walk obeys every rule; in particular each text, tool or reasoning id shows nothing or start, contents, end, and the terminal is literally the last payload |
| `StreamVerify.WalkIsComplete` | adaptertest/verify.go:213-432 | a trace that obeys the rules is walked without a violation |
| `StreamVerify.ExamineExact` | adaptertest/verify.go:213-432 | one payload adds no violation exactly if it may follow what was seen before it |
| `StreamVerify.NothingAfterTerminal` | adaptertest/verify.go:205-211 | nothing at all can follow the terminal frame, although end frames are not refused by name |
| `StreamVerify.LifeShapes` | adaptertest/verify.go:313-341 | the open and closed states are exactly the shapes of the per-id projection |
| `ThreadHistory.BoundedThreadTexts` | thread_continuity.go:26-48 | the backward loop and reversal compute the specified bounded history |
| `ThreadHistory.BoundedHistory` | thread_continuity.go:26-48 | for every input: an order-preserving selection of non-empty suffixes whose join fits the budget, valid UTF-8 stays valid, bounding again changes nothing, and everything is returned unchanged if and only if there are at most `count` texts, none is empty and their join fits |
| `ThreadHistory.TailIsLongest` | thread_continuity.go:33-44 | a cut text is the longest suffix within the budget that does not start inside a character |
| `ThreadHistory.PreambleWithin8K` | thread_continuity.go:76-95 | the preamble never exceeds 8192 bytes, for any record |
| `ThreadHistory.PersistedHistoryIsStable` | thread_continuity.go:50-78 | re-bounding changes nothing that a persisted record holds |
| `ThreadHistory.CutTextIsOldest` | thread_continuity.go:33-44 | a cut text is the oldest one returned if and only if the cut skipped fewer than three bytes or no older text has a tail of one byte |
| `ThreadHistory.NewestIsOldest` | thread_continuity.go:33-44 | for any bytes, the newest text is the only one returned if and only if it uses up the budget or no older text has a tail for what is left |
| `ThreadHistory.OlderFragmentSurvivesCut` | thread_continuity.go:33-44 | an input where a cut text is not the oldest |
| `Compose.ComposeResults` | result.go:426-434 | a new object with its own usage equal to the specified composition; no part is changed |
| `Compose.Result.AppendResult` | result.go:436-456 | one part is appended as specified and shares nothing with the total |
| `Compose.AccumulateUsage` | result.go:404-416 | nil stays distinct from zero and the second argument is never touched |
| `Compose.GroupingIsExact` | result.go:426-456 | appending a composed group equals appending its parts if and only if the group has a part (or there is no head to lose) and every assigned message stays assigned |
| `Compose.GroupsCompose` | result.go:426-456 | composing groups that each have a part, with natural turn counts, equals one flat composition |
| `Compose.EmptyGroupLosesText` | result.go:436-439 | a trailing empty group wipes the text |
| `Compose.NegativeTurnsMisplaceMessages` | result.go:448-453 | a negative turn count inside a later group misplaces a message |
| `ClaudeUsage.TurnTotalGains` | claude/usage.go:7-43 | one more observation changes the sum of latest values per message plus anonymous ones by exactly the delta the parser adds |
| `ClaudeUsage.TurnsTelescope` | claude/usage.go:68-86 | for any integers the per-turn usages sum to the terminal aggregate if and only if it dominates completed usage or the observations happen to sum to it |
| `ClaudeUsage.TurnsSumExactly` | claude/usage.go:68-86 | if the last turn's snapshots report no negative counter, they do if and only if it dominates |
| `ClaudeUsage.UsageTracker.ObserveAssistantUsage` | claude/usage.go:7-43 | turn usage is the reference total of the turn's snapshots, nil exactly if nothing was observed |
| `ClaudeUsage.UsageTracker.EmitTurnCompleted` | claude/messages.go:344-363 | a completed turn adds its usage and starts an empty one, once |
| `ClaudeUsage.UsageTracker.HandleTerminal` | claude/parser.go:575-623 | the reported usage has the terminal's own fields and the observed ones elsewhere, and the terminal closes the last turn so that the turns sum to it exactly under the stated condition |

## Left out

- ThreadOwnership.NoLostUpdate: the runtimes are values that step between two store calls, not objects, so aliasing of the runtime's fields is not captured; auxiliary leases are unconstrained, archive and key-absence checks of a write are folded into its possible failure, and that the engine persists only after it resolved the key in this ownership is a guard.
- EventBroker.Conservation: the reason text of a drop marker, run and thread ids on events and the standby broker that discards without subscribers are not modelled.
- ExecutionLoop.Execute: the hub is a value there, and the acknowledgements of one Run's prompts follow one another undisturbed; prompts, replay texts, sessions and result merging are not modelled, and persistence, leases and structured output are only the script's outcome.
- Verdict.OutcomeIsRanked: each read of the sink takes its own moment, but a report and its own look at the context are one step; messages and metadata of synthesized failures are abbreviated; release and teardown errors joined after finalization are not modelled.
- Compose.ComposeResults: counters are unbounded integers, so wrap-around of very large sums is not modelled; message authors and delivery details travel unchanged and are not modelled.
- ClaudeUsage.UsageTracker.HandleTerminal: cost in dollars and the transcript item are not modelled.
- StreamVerify.VerifyStreamSequence: violation texts are not modelled, only clause and position.
- HookWriter.EveryItemAcknowledged: acknowledgements of two jobs completed at the same time by the writer and by a refused caller are not interleaved item by item; the settlement timeout, the abort of a blocked pipe and hook initialization are not modelled; the pipe's answer to a write is arbitrary.
- Standby.NothingSilentlyLost: that an execution reports all it took is taken from Execution.SendReportedBeforeDone, whose exception, the id of an undelivered instruction (HubPromises.SendIsSettled), is not carried over; delays, option copying and event forwarding are not modelled.
- Approval.RequestDecision: notices, request renewal and the wait for a consumer of events are not modelled; the answer of each ask is arbitrary there.
- Messages.MessageHub.Send: the built-in framing texts are not modelled, framed texts are arbitrary; waking of blocked callers and the signal channel have no state.
- Delivered receipts handed to the store (the most recent thousand within seven days), transcripts and outcomes accessors: copies of modelled state.
- JSON Schema generation, frames, process handling, authentication, probes, options and inspection: input and output around the protocols, or easy members.
- Liveness and wall-clock behaviour: timers, back-off, renewal intervals.
