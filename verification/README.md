# Gateway journals, verified

A Dafny model of the journals and coordinators of codex-im-gateway: how it writes an
intent to disk, performs an outside effect at most once, never replays an unknown
outcome and never loses a saved input.

Each component is modelled twice and tied together.  A value-level state with one
function per code segment between two awaits (`Next`, `AfterSave`, `Drain`, ...) is
the specification; a class with the component's own fields performs the same segments
in place, and its methods are proved equal to them.  Safety is then proved over runs:
sequences of such steps, interleaved freely, with crashes, failing writes and an
environment that decides what the outside service did.  Where runs are folds over a
list of events (`After`), an event that is not possible in a state changes nothing.

A durable write is a step that commits, or fails before or after its rename; the
receipt log is modelled byte by byte.  Time, randomness, the configuration and answers
from outside are inputs.  SHA-256, UUIDs and random versions are injective or fresh
values.  JSON and date parsing are parameters, except in the binding ids, where JSON
strings (RFC 8259, section 7), UTF-8 and base64url (RFC 4648, section 5) are modelled.

| file | models |
|---|---|
| `Common.dfy`, `Bytes.dfy` | write outcomes, optional fields, newline-separated bytes |
| `ReceiptLog.dfy`, `InboundReceipts.dfy` | the append-only receipt file and its journal |
| `ForwardingInbox.dfy`, `InboxRows.dfy` | the saved messages and what each operation keeps |
| `InboundProtocol.dfy`, `InboundSafety.dfy`, `InboundEvidence.dfy`, `InboundCourse.dfy` | both together with native calls, over runs |
| `TurnSubmission.dfy` | what a failed native call says about the submission |
| `NativeQueue.dfy`, `SessionControl.dfy` | the native queue, control lanes, control receipts |
| `JsonLines.dfy`, `WriteGate.dfy`, `Handoff.dfy`, `Lifecycle.dfy`, `HandoffWire.dfy`, `LifecycleWire.dfy` | the runtime socket, the handoff and lifecycle journals, and each together with the socket |
| `SessionCatalog.dfy`, `SessionView.dfy`, `SessionItems.dfy` | the session comparator, the regrouped view and its items |
| `RuntimeObservation.dfy`, `UserInput.dfy`, `TurnAudience.dfy`, `InputReceipts.dfy`, `Admission.dfy` | followers, question groups, mentions, receipt scans, admission tickets |
| `BindingIds.dfy`, `MarkdownSource.dfy` | the binding id codec and the CR/LF offset map |

Assumptions about the environment, stated where they are used: a "not submitted"
verdict is honest and no acceptance callback of that attempt follows it; one `handle`
makes another native call only after the earlier one was definitely refused; an adapter
passes the final guard on to each of its write requests and awaits them, and a handoff
makes one; reads are true of the moment they are taken at; a destroyed socket delivers
no data and a timer fires once while armed.

Where the code does less than one might expect, a lemma shows the input and another
the exact condition:

- A group without questions is answered on every request
  (`EmptyGroupIsAnsweredAgain`; exactly then, `OneObjectIff`).
- A follower's read that is recorded after, but taken before, the input's last read
  defeats the guard of `finish` and shows a completion twice
  (`LateRecordWakesFollower`).  On a terminal without numbers another input that was
  recorded late does the same to a follower that was up to date
  (`StaleInputWakesFollower`).  `SecondCardIff` is the exact condition over all later
  runs.  A terminal that numbers every change of state, as the TUI adapter's
  `state_change_seq` does, rules the second case out: there `OneCompletionOneCard` needs
  the follower's own record in time and nothing else.  The app adapter numbers turns.
- A duplicate catalog entry can make display order and numbers disagree
  (`DuplicateCatalogMisleads`), and so can a shown catalog that is not the one sorted
  by; `DisplayOrderIsNumberOrder` is the exact condition.
- A retry whose save fails keeps the new target in memory when the file held the row
  without one, because the copy it is restored from lacks the field (`RetryUndoneIff`).
- A receipt file with blank lines behind it is read at a start, but not again after the
  next append (`TrailingBlankLine`; `ReadsAgainIff`).

Two more facts are part of the contracts: a failing compaction makes `save` throw after
its append is durable, so memory is rolled back behind the file (`AfterTransition`), and
a removal that fails puts its row back at the end (`RemovedComesBack`, `PutBackKeeps`).

Pins are positions in a stored list, so the value that stands for "not pinned" does not
occur; `SentinelPinBreaksTheOrder` shows that the comparator relies on it.

## Model

| member | source | states |
|---|---|---|
| ReceiptLog.ParseTorn | src/bridge/inbound-receipts.ts:46-65 | A file that ends in an unfinished line reads as exactly the facts of its whole lines, and the bytes kept are a whole file again. |
| ReceiptLog.TornAppendRefinesMap | src/bridge/inbound-receipts.ts:36-106 | Whatever prefix of an append survives a crash, the restart reads the old or the new value for that one id, decided by whether the whole line survived; every other id keeps its value. |
| ReceiptLog.ReplayAppend | src/bridge/inbound-receipts.ts:50-59 | Appending a fact changes the replayed map at its own key only. |
| ReceiptLog.ReadsAgainIff | src/bridge/inbound-receipts.ts:46-65 | A file that a start has read can be read again after an append if and only if every line it kept decodes as it stands. |
| ReceiptLog.TrailingBlankLine | src/bridge/inbound-receipts.ts:48-51 | A log with a blank line behind it starts, and the first append makes it unreadable. |
| ReceiptLog.TrimEndMeans | src/bridge/inbound-receipts.ts:48 | Trimming takes away the blanks at the end and nothing else. |
| InboundReceipts.AfterSave | src/bridge/inbound-receipts.ts:81-106 | For every outcome of a save (refused, undone, torn, appended, compacted, compaction failed) memory, claims and processing stay as they are. |
| InboundReceipts.AfterTransition | src/bridge/inbound-receipts.ts:107-114 | A transition whose save throws leaves memory, claims and processing as before, although the file may already hold the new fact. |
| InboundReceipts.PatchedWellFormed | src/bridge/inbound-receipts.ts:50-57 | Every permitted change keeps the shape that a restart accepts: terminal input never acquires native evidence. |
| InboundReceipts.ChangeRecords | src/bridge/inbound-receipts.ts:149-255 | For each kind of change, which argument goes into which field, and that every other field stays: thread and turn of a native acceptance, thread, queue id and perhaps turn of a queued one, the ids of a recovery proof. |
| InboundReceipts.PermittedIff | src/bridge/inbound-receipts.ts:149-255 | Exactly which changes go ahead: terminal input and native evidence never mix, and a recovery needs an idle doubtful receipt whose identity, and whose ids if it has any, agree with the proof. |
| InboundReceipts.SaveMeans | src/bridge/inbound-receipts.ts:81-106 | What each end of a save leaves of the file: nothing new, a line in doubt, the fact of this key, or the whole of memory. |
| InboundReceipts.ClaimMeans | src/bridge/inbound-receipts.ts:115-125 | A message can be claimed if and only if it has an id, is idle and unclaimed, and its receipt is new or `received` and names its sender and conversation; a new receipt names these two and nothing else; the claim holds only once it is saved. |
| InboundReceipts.EnterMeans | src/bridge/inbound-receipts.ts:126-134 | An action starts if and only if the message is idle, claimed or claimable and saved, and its receipt is its own; then it moves from claimed to processing. |
| InboundReceipts.HandleMeans | src/bridge/inbound-receipts.ts:135-146 | Success handles a receipt, except unconfirmed terminal input; after a failure one that was `submitting` is `received` if and only if the error is a definite refusal, spelled out by kind, and else unconfirmed; nothing but the phase changes. |
| InboundReceipts.GiveUpMeans | src/bridge/inbound-receipts.ts:177-195 | Abandoning and releasing need an idle `received` receipt and touch no other claim. |
| InboundReceipts.InboundReceiptJournal.WriteLine | src/bridge/inbound-receipts.ts:91-96 | The write loop leaves the old file plus a prefix of the line, the whole line when it does not fail. |
| InboundReceipts.InboundReceiptJournal.Repair | src/bridge/inbound-receipts.ts:98-103 | A failed append is truncated away, or every later append is refused until a restart. |
| InboundReceipts.InboundReceiptJournal.Append | src/bridge/inbound-receipts.ts:86-104 | After any failure the file is a whole log, or a whole log with one torn line and no further append allowed, so no broken middle line can exist. |
| InboundReceipts.InboundReceiptJournal.Compact | src/bridge/inbound-receipts.ts:76-80 | Compaction rewrites the file to the map in memory, or not at all. |
| InboundReceipts.InboundReceiptJournal.Save | src/bridge/inbound-receipts.ts:81-106 | The whole of `save`, compaction after 1024 writes included, against the value-level outcome. |
| InboundReceipts.InboundReceiptJournal.Transition | src/bridge/inbound-receipts.ts:107-114 | Rolls memory back field by field when the save throws. |
| InboundReceipts.InboundReceiptJournal.Apply | src/bridge/inbound-receipts.ts:149-176 | Callbacks of a captured receipt and the recovery calls are refused, or save the change that `ChangeRecords` spells out. |
| InboundReceipts.InboundReceiptJournal.Claim | src/bridge/inbound-receipts.ts:115-125 | A claim succeeds only for a fresh or `received` receipt of the same sender, and is durable first. |
| InboundReceipts.InboundReceiptJournal.BeginHandle | src/bridge/inbound-receipts.ts:126-134 | `handle` up to its action: skipped, refused, or entered with the key moved from claimed to processing. |
| InboundReceipts.InboundReceiptJournal.EndHandle | src/bridge/inbound-receipts.ts:135-146 | `handle` after its action: handled on success; after a failure a `submitting` receipt becomes `received` only for a definite refusal, else `unconfirmed`. |
| InboundReceipts.InboundReceiptJournal.Abandon | src/bridge/inbound-receipts.ts:190-195 | Only an idle `received` message is abandoned, durably. |
| InboundReceipts.InboundReceiptJournal.ReleasePreparation | src/bridge/inbound-receipts.ts:177-180 | Gives a claim back only while the receipt is `received` and idle. |
| InboundReceipts.InboundReceiptJournal.Reopen | src/bridge/inbound-receipts.ts:46-65 | A start on any file it can read replays its kept lines and cuts off the unfinished one; the journal is valid from there on when those lines decode as they stand. |
| InboundReceipts.InboundReceiptJournal.CrashReads | src/bridge/inbound-receipts.ts:60-65 | Every file a crash can leave reads back as one of the two restarts of the state. |
| ForwardingInbox.ForwardingInbox.Claim | src/bridge/forwarding-inbox.ts:77-82 | Receipt first, then the row; if staging throws the claim is given back. |
| ForwardingInbox.ForwardingInbox.Stage | src/bridge/forwarding-inbox.ts:83-94 | An equal saved message is kept, a different one under the same id refused, a new row removed again if its save fails. |
| ForwardingInbox.ForwardingInbox.Remove | src/bridge/forwarding-inbox.ts:215-220 | A row whose removal cannot be saved comes back, as the last one. |
| ForwardingInbox.RemovedComesBack | src/bridge/forwarding-inbox.ts:215-220 | After a failed removal the same row is still in memory. |
| ForwardingInbox.ForwardingInbox.Choose | src/bridge/forwarding-inbox.ts:233-266 | The ladder of checks before a dispatch, in its order; `WhichTurn` says what each answer means. |
| ForwardingInbox.WhichTurn | src/bridge/forwarding-inbox.ts:233-266 | Exactly when a delivery removes, doubts, leaves, holds, makes wait or dispatches a row, in terms of its fields and receipt: an ordered row waits if and only if an earlier ordered, unfinished row of the same conversation and target is in delivery, or pending with a receipt still `received`. |
| ForwardingInbox.ForwardingInbox.Blocked | src/bridge/forwarding-inbox.ts:251-258 | Scans the earlier rows for one of the same conversation and target that is in delivery, or pending with an untouched receipt; `WhichTurn` says what follows. |
| ForwardingInbox.ForwardingInbox.Deliver | src/bridge/forwarding-inbox.ts:229-268 | `deliver` up to its first await, from guard to dispatch. |
| ForwardingInbox.ForwardingInbox.Land | src/bridge/forwarding-inbox.ts:268-282 | `deliver` after `dispatch` settled: removal, postponement with backoff, or a parked row. |
| ForwardingInbox.ForwardingInbox.Fail | src/bridge/forwarding-inbox.ts:269-280 | The catch clause: only a definite refusal of an automatic `received` message is postponed. |
| ForwardingInbox.ForwardingInbox.Inform | src/bridge/forwarding-inbox.ts:221-228 | The mark that a notice was tried is saved before the notice. |
| ForwardingInbox.ForwardingInbox.Retry | src/bridge/forwarding-inbox.ts:171-180 | A manual retry aims at the target shown to the caller; a failed save gives back the fields the row had. |
| ForwardingInbox.RetryUndoneIff | src/bridge/forwarding-inbox.ts:176-178 | A retry that could not be saved is undone in memory if and only if the row was not one that the file held without a target; no other row changes. |
| ForwardingInbox.ForwardingInbox.Cancel | src/bridge/forwarding-inbox.ts:181-185 | A row is cancelled only after its receipt was abandoned. |
| ForwardingInbox.ForwardingInbox.OnAccepted | src/bridge/forwarding-inbox.ts:285-296 | Pending rows follow a first thread only when it was exactly accepted; then the row is removed. |
| InboxRows.StagedPreserves | src/bridge/forwarding-inbox.ts:83-94 | Staging touches no other row, in memory or on disk. |
| InboxRows.PutBackKeeps | src/bridge/forwarding-inbox.ts:215-220 | A row put back at the end keeps every other row and its order. |
| InboxRows.StageMeans | src/bridge/forwarding-inbox.ts:83-94 | A message under a known id is kept if it is the same and refused otherwise; a new one is the last row, untried and pending, in memory and on disk, or not there. |
| InboxRows.LoadMeans | src/bridge/forwarding-inbox.ts:62-67 | A new process has the rows of the file, and none in delivery. |
| InboxRows.IntakeMeans | src/bridge/forwarding-inbox.ts:77-82 | A message is taken in if and only if it can be claimed and its receipt and then its row are saved; one whose row could not be staged is not claimed any more. |
| InboxRows.CancelMeans | src/bridge/forwarding-inbox.ts:181-185 | A message is cancelled by its receipt first, and its row goes only once that is saved. |
| InboxRows.RemoveMeans | src/bridge/forwarding-inbox.ts:215-220 | A removed row is gone from memory and file, the others in their order; if that cannot be saved it comes back as the last row. |
| InboxRows.InformMeans | src/bridge/forwarding-inbox.ts:221-228 | The sender is told once for a state, and only after the mark was saved. |
| InboxRows.DeliverMeans | src/bridge/forwarding-inbox.ts:229-234 | A delivery does nothing for a message that is in delivery or has no row, removes a finished one, and launches one whose turn it is. |
| InboxRows.WaitMeans | src/bridge/forwarding-inbox.ts:235-266 | A delivery that does not dispatch leaves a doubtful row `unconfirmed`, holds a replay or a changed target, and otherwise makes the row due again later; it changes no other field and no other row. |
| InboxRows.FailPostpones | src/bridge/forwarding-inbox.ts:272-277 | An automatic message that was surely not submitted is due again later, and its sender is told once. |
| InboxRows.FailMeans | src/bridge/forwarding-inbox.ts:269-280 | Any other failed dispatch removes a message that is finished after all, holds one whose receipt is untouched, and leaves the rest `unconfirmed`. |
| InboxRows.LaunchMeans | src/bridge/forwarding-inbox.ts:267-268 | The attempt is counted on file before the message is handed over, and only then can it be under way. |
| InboxRows.HandMeans | src/bridge/forwarding-inbox.ts:268-280 | A switching channel defers the message, an action that starts is under way, a refusal is a failure, and one with nothing to do counts as dispatched. |
| InboxRows.LandMeans | src/bridge/forwarding-inbox.ts:268-282 | A dispatch that returned removes the row; one that threw, or a removal that cannot be saved, is a failure. |
| InboxRows.ControlIff | src/bridge/forwarding-inbox.ts:160-175 | A message can be controlled if and only if it is idle, its receipt is `received`, and the caller is its sender or a controller in its conversation; it can be retried only if it is automatic and the target shown is the current one. |
| InboxRows.RetryMeans | src/bridge/forwarding-inbox.ts:171-180 | A saved retry aims its row at the approved target, pending and due now, with its notices cleared, and touches no other row. |
| InboxRows.FirstThreadIff | src/bridge/forwarding-inbox.ts:288-291 | Exactly when an acceptance created the first thread of a target. |
| InboxRows.AcceptanceMeans | src/bridge/forwarding-inbox.ts:285-296 | Pending rows with the very target of the accepted one follow it to its first thread, on file, and then the accepted row is removed; an inexact acceptance does nothing. |
| InboxRows.DeliveredPreserves | src/bridge/forwarding-inbox.ts:229-282 | A delivery segment keeps every other row, its place and its target. |
| InboxRows.AcceptedTargets | src/bridge/forwarding-inbox.ts:285-296 | An acceptance replaces a stored target only by one that differs in thread and generation. |
| InboxRows.AcceptedMoves | src/bridge/forwarding-inbox.ts:285-296 | A stored target moves by an acceptance only from the very target of the accepted message, for a pending row, to its first thread. |
| InboundProtocol.StepKeeps | src/bridge/inbound-receipts.ts:115-146 | No step of the system undoes durable evidence about any message, except a definite refusal of that message. |
| InboundProtocol.PatchKeeps | src/bridge/inbound-receipts.ts:149-176 | No permitted change of a receipt weakens evidence that it was submitted. |
| InboundProtocol.AtMostOneNativeEffect | src/bridge/turn-submission.ts:70-95 | In every run with crashes, redelivery, ticks, retries, cancellation and recovery, a message is submitted again only after its earlier submission was definitely refused. |
| InboundProtocol.SubmissionIsDurable | src/bridge/turn-submission.ts:74-77 | Whatever a crash right after a native call leaves of the log, the restarted receipt is not `received`. |
| InboundProtocol.OnlyRefusalReopens | src/bridge/inbound-receipts.ts:138-144 | A receipt returns to `received` only from `submitting` by a definite refusal, or by a restart when no call of it can be in effect. |
| InboundProtocol.ThrownMeans | src/bridge/inbound-receipts.ts:135-146 | `handle` returns if and only if its action did and the receipt was settled or is unconfirmed terminal input; else it throws the action's error, unless settling it failed as well. |
| InboundProtocol.EnterRunning | src/bridge/inbound-receipts.ts:126-134 | An action starts only for a `received` receipt of the row's own sender. |
| InboundProtocol.KeepsClaimFresh | src/bridge/inbound-receipts.ts:115-125 | A claimed key always has a `received` receipt. |
| InboundProtocol.ProcessingStays | src/bridge/forwarding-inbox.ts:230-231 | A key in processing stays there until its own delivery ends or the process dies. |
| InboundEvidence.AcceptedNamesItsOwn | src/bridge/inbound-receipts.ts:149-255 | Over all runs, in memory, on disk and in a torn line: the thread of an accepted receipt was reported by a call for this very message that took effect, by a recovery proof for it, or as the thread its call created; its turn and its queued submission were reported by such an acceptance or proof. |
| InboundEvidence.ChangeTells | src/bridge/inbound-receipts.ts:149-255 | Whatever a permitted change adds to the identities of a receipt was reported in that very step. |
| InboundEvidence.MarkedBeforeAcceptance | src/bridge/inbound-receipts.ts:149-162 | No native call is marked for a receipt that is accepted already. |
| InboundCourse.MessageGoesThrough | src/bridge/forwarding-inbox.ts:77-296 | There is a run of the protocol that takes any message in, submits it once, learns that it was accepted, and ends with a handled receipt that names what was reported, in memory and on disk, and with no row left. |
| InboundSafety.ClaimedIsRetained | src/bridge/forwarding-inbox.ts:77-82 | A claim that returns true has put the message on disk for its sender. |
| InboundSafety.GoneIsSettled | src/bridge/forwarding-inbox.ts:171-185 | A row is given up only for a message that is finished or belongs to another sender. |
| InboundSafety.StagedRowDurable | src/bridge/forwarding-inbox.ts:83-101 | Staging leaves a row that is both in memory and on disk. |
| InboundSafety.NoSavedMessageIsLost | src/bridge/forwarding-inbox.ts:77-101 | At every moment of every run after a successful claim, the message is finished in every copy of its receipt, or still on disk for the sender its receipt names, and a crash brings it back. |
| InboundSafety.LaunchAtCurrent | src/bridge/forwarding-inbox.ts:244-268 | Every dispatch starts while the row's stored target equals the current one. |
| InboundSafety.NeverRedirected | src/bridge/forwarding-inbox.ts:77-296 | Over every run each dispatch went to a target that was captured when a row for that message was first staged or that an explicit retry of it named, with a new thread only where none existed and exactly accepted input created it. A redelivery authorises nothing. |
| InboundSafety.TargetChanges | src/bridge/forwarding-inbox.ts:77-296 | A stored target changes in one step only by a retry of its own message, by the first thread of an exact acceptance, or when a crash brings back the file; a row is new only by staging or from the file. |
| InboundSafety.AcceptedAuthorized | src/bridge/forwarding-inbox.ts:283-296 | An acceptance leaves only targets captured for a new row or named by a retry, in memory and on disk, or their first thread. |
| InboundSafety.HistoryMeans | src/bridge/forwarding-inbox.ts:77-296 | A target is approved for a message only by its new row or by a retry that names it, and a first thread only by the accepted receipt that carries it. |
| InboundSafety.LaneOrder | src/bridge/forwarding-inbox.ts:248-262 | Whenever an ordered message is dispatched, every earlier ordered message of the same conversation and target whose receipt is not finished is neither in delivery nor pending with a receipt still `received`. |
| InboundSafety.PlaceStays | src/bridge/forwarding-inbox.ts:215-220 | An acknowledged message that is not finished keeps its place over every step. |
| InboundSafety.SourceOrderKept | src/bridge/forwarding-inbox.ts:248-262 | Over whole runs, when a later message of the same conversation and target is dispatched, the earlier one is finished, or it is not in delivery and not pending with a `received` receipt, crashes and failed saves included. |
| InboundSafety.LaneHasHead | src/bridge/forwarding-inbox.ts:252-258 | If a message has to wait for its lane, some earlier unfinished message of the same conversation and target has its turn and need not wait for the lane itself. |
| TurnSubmission.ReopensIff | src/bridge/turn-submission.ts:96-103 | A failure lets a message be submitted again if and only if nothing is known to have run and it is a definite refusal, or a transport failure from before the native call. |
| TurnSubmission.AmbiguityStays | src/bridge/turn-submission.ts:96-103 | After entry an ambiguous failure is never turned into "not submitted"; the receipt becomes unconfirmed. |
| TurnSubmission.OnlyRefusalReopensAfterEntry | src/bridge/turn-submission.ts:70-104 | Over every course of a call, only an error that is itself a definite refusal reopens the message, and never once a turn is known. |
| TurnSubmission.ErrorMeans | src/bridge/turn-submission.ts:96-103 | Which error a failure becomes, by what is known: after the result, with a known turn, after the native call was entered, and before it. |
| TurnSubmission.StepMeans | src/bridge/turn-submission.ts:70-95 | What each step notes of thread, turn and completion; nothing before the native call was entered. |
| TurnSubmission.EnteredIff | src/bridge/turn-submission.ts:70-93 | Over every course of a call: it was entered if and only if some step entered it with a current source and a saved mark, completed only by a result after that, and its turn was reported by a start or a result. |
| TurnSubmission.TurnSubmission.Enter | src/bridge/turn-submission.ts:70-76 | The native call is made exactly when the source is current and the `submitting` record was saved. |
| TurnSubmission.TurnSubmission.Error | src/bridge/turn-submission.ts:96-103 | The error handed on never reopens a message with a known turn or a completed call. |
| NativeQueue.ReloadedMirrors | src/bridge/native-queue.ts:54-67 | After a failed save and a reload, memory says exactly what the file says, and every object that stands for a saved id keeps its identity. |
| NativeQueue.SavedMoves | src/bridge/native-queue.ts:51-70 | A save, failing on either side of the rename, moves nothing but the edited receipt. |
| NativeQueue.UpdatedMoves | src/bridge/native-queue.ts:71-76 | An update changes one object and one id at most, to the new or the saved value. |
| NativeQueue.AddedAtMostOnce | src/bridge/native-queue.ts:93-137 | Over all runs at most one native add for an id is not known to have been refused; saves may fail before or after the rename and reloads may fail. No use of the lanes is needed. |
| NativeQueue.StandingBlocks | src/bridge/native-queue.ts:104-113 | While an attempt stands, no enqueue for that id is admitted, in this process or the next. |
| NativeQueue.LosingStepIsNoOp | src/bridge/native-queue.ts:183-187 | A reconciliation step about a receipt that somebody else changed changes nothing at all. |
| NativeQueue.PassNeverReopens | src/bridge/native-queue.ts:171-235 | In every reachable state a pass touches only the receipt it looks at and only as it knew it; it never moves a completed, cancelled or rejected status, in memory or on disk, and absence yields uncertain at most. |
| NativeQueue.PassesAreCautious | src/bridge/native-queue.ts:174-187 | A receipt that a pass has yet to decide was unsettled when it last looked. |
| NativeQueue.RefusedMayRetry | src/bridge/native-queue.ts:109-133 | A submission that was definitely refused or never submitted may be tried again under the same id. |
| NativeQueue.CompletedIsBacked | src/bridge/native-queue.ts:93-305 | In every reachable state, in memory and on disk: a receipt is completed only if an execution of it ended or a pass saw the very turn it names finished; its turn and queue item were reported for its own id; it is delivered, cancelled or rejected only if that happened; running and queued receipts name a turn and an item. |
| NativeQueue.SeenIsRecorded | src/bridge/native-queue.ts:183-229 | A saved observation of a receipt nobody else changed makes it running if and only if its turn is in progress, completed if and only if it is finished, queued with the item found, and uncertain when it is nowhere or unconfirmed, with the turn that was found. |
| NativeQueue.PassFinds | src/bridge/native-queue.ts:171-227 | A pass over an unsettled receipt that nobody else touches finds it in the queue or, when it is not there, in the history or nowhere, and that is what memory and file say. |
| NativeQueue.PassOrder | src/bridge/native-queue.ts:194-230 | A receipt is looked up in the queue once, in the history only when it was not there, and decided then; a pass that broke off may only note that it failed. |
| NativeQueue.PassProceeds | src/bridge/native-queue.ts:183-187 | What a look wrote is what the pass knows from then on. |
| NativeQueue.PassEnds | src/bridge/native-queue.ts:195-234 | A pass passes over what a dispatch is running, and changes no receipt by that or by breaking off. |
| NativeQueue.UpdateMeans | src/bridge/native-queue.ts:71-76 | An update throws if and only if the journal is locked, the object was replaced or the save did not return; what it puts into the file, and when the journal locks. |
| NativeQueue.DispatchWrites | src/bridge/native-queue.ts:262-303 | While a dispatch of its lane is under way each step on a receipt that stands is possible and, once saved, recorded. |
| NativeQueue.LaneMeans | src/bridge/native-queue.ts:245-247 | A dispatch enters a lane unless the journal is locked, and leaves no other. |
| NativeQueue.RewriteIsRecorded | src/bridge/native-queue.ts:262-303 | What starting, running, an execution that ended, a busy thread, a failed dispatch and a cancellation leave of a receipt, in memory and on disk; a replaced object is left alone. |
| NativeQueue.AttemptIff | src/bridge/native-queue.ts:103-121 | An attempt is made if and only if the journal is in order, the source current, nothing but a rejected receipt of the same lane stands for the id, and the intent was saved. |
| NativeQueue.EndIsRecorded | src/bridge/native-queue.ts:118-136 | What an item, an error that nothing was submitted, a refusal and any other error leave on file; a turn accepted meanwhile outranks every error. |
| NativeQueue.AcceptanceIsRecorded | src/bridge/native-queue.ts:121 | An accepted turn runs under its id, in memory and on disk. |
| NativeQueue.RestartMeans | src/bridge/native-queue.ts:54-66 | A new process holds exactly what the file says. |
| NativeQueue.NativeQueueCoordinator.Recover | src/bridge/native-queue.ts:58-66 | The reload loop assigns the saved receipts to the objects that callers still hold. |
| NativeQueue.NativeQueueCoordinator.Save | src/bridge/native-queue.ts:51-70 | `save` with its recovery, and the lock-out when the file cannot be read. |
| NativeQueue.NativeQueueCoordinator.Update | src/bridge/native-queue.ts:71-76 | Refuses an object that no longer stands for its id; skips a change that changes nothing. |
| NativeQueue.NativeQueueCoordinator.Enqueue | src/bridge/native-queue.ts:93-117 | Calls for a native add exactly when admitted, current and durably recorded. |
| NativeQueue.NativeQueueCoordinator.OnAccepted | src/bridge/native-queue.ts:121 | The acceptance callback records the running turn. |
| NativeQueue.NativeQueueCoordinator.EnqueueEnds | src/bridge/native-queue.ts:118-136 | The end of an attempt, a failing update of an acknowledged item included. |
| NativeQueue.NativeQueueCoordinator.Catch | src/bridge/native-queue.ts:123-133 | An accepted turn outranks the error; otherwise drop, reject or leave uncertain. |
| NativeQueue.NativeQueueCoordinator.Observe | src/bridge/native-queue.ts:184-229 | A pass writes only what nobody else has changed, and remembers what it wrote; `SeenIsRecorded` says what that is. |
| NativeQueue.NativeQueueCoordinator.Starting | src/bridge/native-queue.ts:262-265 | A dispatch marks a queued receipt as starting on disk before it starts, and refuses any other. |
| NativeQueue.NativeQueueCoordinator.Executed | src/bridge/native-queue.ts:267-270 | A finished execution completes the receipt; without a delivery it stays a verified, undelivered completion. |
| NativeQueue.NativeQueueCoordinator.Abandon | src/bridge/native-queue.ts:280-283 | The catch of a dispatch: an undelivered start or run becomes uncertain, and its delivery unconfirmed once a turn is known. |
| SessionControl.ControlsNeverOverlap | src/bridge/session-control.ts:12-21 | When an action has started, every earlier call of its key has settled, so actions of one key run first in, first out and never overlap, though the map forgets idle keys. |
| SessionControl.SessionControlQueue.Enter | src/bridge/session-control.ts:14-17 | A call waits for the promise that was the tail of its key. |
| SessionControl.SessionControlQueue.Leave | src/bridge/session-control.ts:18-19 | The tail is forgotten only by the call that is still the tail. |
| SessionControl.ActedAtMostOnce | src/bridge/session-control.ts:84-114 | Over all runs a control whose outcome is not known to be "not submitted" is performed once at most, and no later submit can act. |
| SessionControl.AcceptedForGood | src/bridge/session-control.ts:103-111 | An accepted result on disk is never replaced, by a failing save or a restart either. |
| SessionControl.TurnMoves | src/bridge/session-control.ts:12-21 | A call waits for the tail it found and becomes the tail; its `finally` forgets the key if and only if no later call of it has come. |
| SessionControl.NeverStuck | src/bridge/session-control.ts:12-21 | As long as a call has not settled, it or an earlier call of its key can start or settle. |
| SessionControl.SaveMeans | src/bridge/session-control.ts:60-71 | After a failed save memory says what the file says, or the journal locks exactly when the file cannot be read. |
| SessionControl.SubmitMeans | src/bridge/session-control.ts:84-92 | An action starts if and only if nothing is recorded about the message and its `sending` record was saved. |
| SessionControl.EndIsRecorded | src/bridge/session-control.ts:93-112 | What a result, a definite non-submission and any other error leave on file, by what the writes did; an acceptance that reached the file stays. |
| SessionControl.RestartMeans | src/bridge/session-control.ts:45-56 | A new process knows exactly what the file says, and runs nothing. |
| SessionControl.AcceptedIsTheResult | src/bridge/session-control.ts:84-112 | Over all runs a result that is told, now or after a restart, is the one the action of this very message brought. |
| SessionControl.SessionControlJournal.Save | src/bridge/session-control.ts:60-71 | After a failed write memory is what the file says, or the journal locks. |
| SessionControl.SessionControlJournal.Submit | src/bridge/session-control.ts:84-92 | Tells an accepted result, refuses an unknown one, and permits an action only after a durable record. |
| SessionControl.SessionControlJournal.Conclude | src/bridge/session-control.ts:93-112 | Records acceptance, drops a definite non-submission, or leaves uncertain. |
| JsonLines.ChunkingIsInvisible | src/agents/json-line-client.ts:95-120 | For every split of a byte stream the receiver delivers the same frames, settles the same requests with the same outcomes and rejects at the same frame. |
| JsonLines.DrainIsSplit | src/agents/json-line-client.ts:98-120 | The incremental loop computes what cutting the whole stream at every newline, piece by piece up to the first bad one, means. |
| JsonLines.DrainStops | src/agents/json-line-client.ts:99-102 | After a round no complete frame is left and the rest is within the limit. |
| JsonLines.SettledExactlyOnce | src/agents/json-line-client.ts:55-128 | Over every run each request is settled at most once, an unsettled one is still pending, and one that failed is unknown if and only if it was a write. |
| JsonLines.SettledForGood | src/agents/json-line-client.ts:109-127 | No later event touches a settled request. |
| JsonLines.StreamDecides | src/agents/json-line-client.ts:95-120 | Over a whole stream a pending request resolves with `v` if and only if the first object that names it has no error, has the result `v` and is versioned when the peer speaks JSON-RPC; any other such object, or a bad piece before it, fails it, a write as unknown and anything else as not sent. |
| JsonLines.AnswerMeans | src/agents/json-line-client.ts:112-118 | An answer resolves with its result if and only if it has no error, has one, and names the protocol version when the peer speaks JSON-RPC; any other fails with the evidence of its request. |
| JsonLines.StreamIsRead | src/agents/json-line-client.ts:95-121 | However a stream is cut, the socket is destroyed if and only if a piece is over the limit or a whole line is not one object, and every notification before that is passed on, in order. |
| JsonLines.EventMeans | src/agents/json-line-client.ts:28-128 | What an offer, a timer, a write error, a close, a retirement, a connection and `close` do to requests, buffer and sockets; whatever was pending fails with the evidence of its own state. |
| JsonLines.JsonLineClient.Offer | src/agents/json-line-client.ts:77-92 | After the last guard a request is registered and then handed over, or refused with nothing changed. |
| JsonLines.JsonLineClient.Receive | src/agents/json-line-client.ts:95-120 | The framing loop over the buffer. |
| JsonLines.JsonLineClient.TakeLine | src/agents/json-line-client.ts:99-107 | One round: one frame fewer in the buffer, with the rest of the work unchanged. |
| JsonLines.JsonLineClient.Dispatch | src/agents/json-line-client.ts:108-118 | One object: a notification, an answer to a pending request, or nobody's; `StreamDecides` says how the request ends. |
| JsonLines.JsonLineClient.Reject | src/agents/json-line-client.ts:121 | Invalid data fails everything pending and destroys the socket. |
| JsonLines.JsonLineClient.RejectAll | src/agents/json-line-client.ts:122-126 | Every pending promise is rejected once, with the evidence of its own state. |
| JsonLines.JsonLineClient.Expire | src/agents/json-line-client.ts:80-83 | A timer settles its own request, which is still pending. |
| JsonLines.JsonLineClient.WriteFailed | src/agents/json-line-client.ts:88-91 | A write error settles a request only if it is pending, and a write as unknown. |
| JsonLines.JsonLineClient.Gone | src/agents/json-line-client.ts:45-50 | Closing the current socket clears its partial frame and fails its requests. |
| JsonLines.JsonLineClient.Retire | src/agents/json-line-client.ts:30-34 | A destroyed socket is retired before a new one owns the buffer. |
| JsonLines.JsonLineClient.Connected | src/agents/json-line-client.ts:40-42 | A socket that connects after `close` is destroyed. |
| JsonLines.JsonLineClient.Close | src/agents/json-line-client.ts:127-128 | Closing leaves nothing pending. |
| WriteGate.AcquireExclusive | src/agents/write-gate.ts:7-11 | A target has one open lease at most. |
| WriteGate.ReleaseExclusive | src/agents/write-gate.ts:11-12 | A release, also a repeated one, frees its own lease and no other holder's. |
| WriteGate.RuntimeWriteGate.Acquire | src/agents/write-gate.ts:7-10 | Busy exactly when the target is active. |
| WriteGate.RuntimeWriteGate.Release | src/agents/write-gate.ts:11-12 | The one-shot release closure. |
| Handoff.Read | src/agents/handoff.ts:29-35 | A saved `writing` reads back as unknown. |
| Handoff.SentAtMostOnce | src/agents/handoff.ts:71-112 | Over all runs one `adapter.send` at most for each source, with crashes and writes that fail on either side of the rename. |
| Handoff.JournalIsHonest | src/agents/handoff.ts:92-110 | What a reader is told: absent means never sent; `not-sent` means the final guard was never passed; `confirmed` carries a receipt of the same resource, and of the same incarnation for a terminal. What this says about bytes is shown for the socket client in `HandoffWire`. |
| Handoff.OutcomeIff | src/agents/handoff.ts:92-110 | Confirmed if and only if the adapter returned a receipt of the same resource, and the same incarnation for a terminal; `not-sent` if and only if it said so and the final guard was never passed. |
| Handoff.SentIff | src/agents/handoff.ts:71-93 | A source is sent if and only if it is current, never heard of before, its resource has no other writer and its `writing` record was saved; otherwise memory stays, and only a failed write may have left the record in the file. |
| Handoff.RestartMeans | src/agents/handoff.ts:25-28 | A new process knows exactly what the file says. |
| Handoff.AnswerIsStable | src/agents/handoff.ts:71-82 | A finished answer never changes, over a crash either, and a source is never bound to another input. |
| Handoff.RuntimeHandoffCoordinator.Save | src/agents/handoff.ts:36-40 | Memory follows the file only if the durable write returned. |
| Handoff.RuntimeHandoffCoordinator.Lookup | src/agents/handoff.ts:64-70 | Authorised first; tells only a record of the same resource and input. |
| Handoff.RuntimeHandoffCoordinator.Begin | src/agents/handoff.ts:71-93 | The adapter is called exactly when the source is current, unknown, not busy and durably recorded. |
| Handoff.RuntimeHandoffCoordinator.AssertCurrent | src/agents/handoff.ts:92-94 | Passing the final guard is remembered. |
| Handoff.RuntimeHandoffCoordinator.Conclude | src/agents/handoff.ts:94-112 | Records the outcome, releases the resource, and answers unknown if the record could not be saved. |
| Handoff.RuntimeHandoffCoordinator.Settle | src/agents/handoff.ts:92-107 | A receipt is believed only for the same target; a failure is `not-sent` only before the final guard. |
| HandoffWire.OfferFollowsGuard | src/agents/json-line-client.ts:66-92 | A write request runs its guard and hands over its bytes in one segment, so bytes are on the wire only after the final guard of their own source. |
| HandoffWire.RecordsTellTheWire | src/agents/handoff.ts:71-112 | Over all runs of coordinator and socket client together, with crashes, broken connections and failing saves: a source that is absent or recorded as `not-sent`, in memory or on disk, never had bytes handed to a socket, and one recorded as confirmed had. |
| HandoffWire.WireDecides | src/agents/json-line-client.ts:77-126 | Once bytes of a call are on the wire the client alone rules out `not-sent`: its rejection is recorded as unknown, and confirmed needs the request to have been answered. |
| HandoffWire.RefusedIff | src/agents/handoff.ts:92-101 | A call without bytes on the wire is recorded as `not-sent` if and only if its error says so and the final guard was not passed. |
| Lifecycle.OperatedAtMostOnce | src/agents/lifecycle.ts:54-107 | Over all runs one adapter operation at most for each source, which is known ever after. |
| Lifecycle.RecordIsHonest | src/agents/lifecycle.ts:25-34 | Every record read back: `not-sent` without passing the guard or creating, `partial` with a reported resource, `confirmed` with the result of its request on the requested target. |
| Lifecycle.OutcomeIff | src/agents/lifecycle.ts:81-103 | Partial, `not-sent` and confirmed if and only if what happened says so: the failure's evidence, a reported resource, the guard, and a returned resource that is the requested target or the reported one; the result says which. |
| Lifecycle.RecordOnlyGrows | src/agents/lifecycle.ts:83-105 | A saved topology and a finished record outlive every later step and restart, and a source stays bound to its first request. |
| Lifecycle.StartedIff | src/agents/lifecycle.ts:61-79 | An operation is started if and only if its source was never heard of before, its target is free and its record was saved. |
| Lifecycle.CreationIsRecorded | src/agents/lifecycle.ts:83-85 | A reported resource is remembered at once, and on record when the save returned. |
| Lifecycle.ExcludesIff | src/agents/lifecycle.ts:66 | Two operations exclude each other if and only if they change one resource, or create in one project or, without one, in one directory. |
| Lifecycle.RestartMeans | src/agents/lifecycle.ts:45-48 | A new process knows exactly what the file says. |
| Lifecycle.RuntimeLifecycleCoordinator.Recall | src/agents/lifecycle.ts:61-65 | A repeated source is told its record, or refused for another request. |
| Lifecycle.RuntimeLifecycleCoordinator.Begin | src/agents/lifecycle.ts:59-79 | The adapter runs exactly when the source is unknown, the target free and the intent saved. |
| Lifecycle.RuntimeLifecycleCoordinator.AssertCurrent | src/agents/lifecycle.ts:69-76 | Passing the final guard is remembered. |
| Lifecycle.RuntimeLifecycleCoordinator.OnCreated | src/agents/lifecycle.ts:83-85 | A reported resource is on file before the adapter goes on. |
| Lifecycle.RuntimeLifecycleCoordinator.Conclude | src/agents/lifecycle.ts:98-107 | Records the outcome and releases the target. |
| Lifecycle.RuntimeLifecycleCoordinator.Settle | src/agents/lifecycle.ts:81-103 | Confirmed only for the requested target and the reported resource; otherwise partial, not-sent or unknown. |
| LifecycleWire.RecordsTellTheWire | src/agents/lifecycle.ts:54-107 | Over all runs of coordinator and socket client together: an operation that is absent or recorded as `not-sent`, in memory or on disk, never had bytes handed to a socket, however many requests it makes and whatever the adapter reports. |
| LifecycleWire.NotSentIff | src/agents/lifecycle.ts:98-103 | An operation that ends is recorded as `not-sent` if and only if its error says so, nothing was created and the final guard was not passed; with bytes on the wire it never is. |
| SessionCatalog.CompareIsLexicographic | src/bridge/session-catalog-order.ts:57-77 | The branching comparator is the lexicographic order on nine keys. |
| SessionCatalog.CompareIsStrictTotalOrder | src/bridge/session-catalog-order.ts:57-77 | Antisymmetric, transitive, and zero only for the same host and thread, for finite recency and every pin but the sentinel itself. |
| SessionCatalog.CompareIdMeans | src/bridge/session-catalog-order.ts:12 | Texts compare at their first difference, a prefix before its extension. |
| SessionCatalog.PositionMeans | src/bridge/session-catalog-order.ts:56 | A folder stands where the catalog names it last, a missing host being the local one, and behind all others if nowhere. |
| SessionCatalog.PinnedFirst | src/bridge/session-catalog-order.ts:57-60 | Pinned rows come first, by their pins, and equal pins by host and thread. |
| SessionCatalog.FoldersFirst | src/bridge/session-catalog-order.ts:61-67 | Rows in a folder come before the others, folders as the catalog lists them and then by the text of their ids. |
| SessionCatalog.WithinFolder | src/bridge/session-catalog-order.ts:68-77 | Within a folder: by the manual order, rows without a place last; then the more recent first, by the reported recency and only without one by the last update; then by its text, host and thread. |
| SessionCatalog.SentinelPinBreaksTheOrder | src/bridge/session-catalog-order.ts:58-60 | Every pin equal to the sentinel, in a row with an id, is caught in a circle with two rows that are not pinned. |
| SessionView.OrderIsCanonical | src/bridge/session-catalog-order.ts:57-77 | The sorted result is one sequence whatever order the rows arrive in. |
| SessionView.ViewKeepsEverySession | src/bridge/session-catalog-view.ts:41-58 | For all rows and catalogs the view shows every session exactly once with its snapshot number. |
| SessionView.DisplayOrderIsNumberOrder | src/bridge/session-catalog-view.ts:18-58 | For sorted rows and any two catalogs, one sorted by and one shown: the numbers on display run 1 to n if and only if pins are below the sentinel, and no empty folders are asked for or the shown catalog lists the folders with unpinned sessions as the sort placed them. |
| SessionView.NoDuplicatesAgree | src/bridge/session-catalog-view.ts:18-58 | One catalog without duplicates, used for both, always meets that condition. |
| SessionView.OneProjectAgrees | src/bridge/session-catalog-view.ts:18-23 | A shown catalog filtered to one project meets it if and only if no other folder with unpinned sessions is sorted before that project. |
| SessionView.DuplicateCatalogMisleads | src/bridge/session-catalog-view.ts:19-23 | With a duplicate catalog entry the sort and the view disagree and the numbers run backwards. |
| SessionView.FoldersFollowRows | src/bridge/session-catalog-view.ts:18-29 | When the catalogs agree, folders are listed in the order in which their unpinned sessions are sorted. |
| SessionView.UnlistedFollows | src/bridge/session-catalog-view.ts:18-29 | When they do not, the folder that is sorted first is listed later. |
| SessionItems.NumberMeans | src/bridge/session-catalog-view.ts:41-45 | A session is shown with its place in the ordered snapshot, as pinned, in its folder, or among the others. |
| SessionItems.EmptyFolderIff | src/bridge/session-catalog-view.ts:46-56 | A folder stands as empty if and only if that is asked for, the catalog or a session names it, and all its sessions are pinned. |
| SessionItems.NoticeMeans | src/bridge/session-catalog-view.ts:50-55 | What an empty folder says: host incomplete, first catalog entry unavailable, sessions shown as pinned, or none. |
| SessionItems.FolderOrder | src/bridge/session-catalog-view.ts:18-29 | Of two folders the earlier one is first in the catalog, else has the first unpinned session, else the first pinned one. |
| SessionItems.ItemsInOrder | src/bridge/session-catalog-view.ts:46-58 | Pinned sessions, then the folders in their order, each with its sessions together, then the others; within each part numbers rise. |
| SessionView.SessionCatalogItems | src/bridge/session-catalog-view.ts:13-59 | The loops build the specified view. |
| SessionView.Collect | src/bridge/session-catalog-view.ts:18-29 | Filling the map keeps insertion order and first occurrences. |
| SessionView.Number | src/bridge/session-catalog-view.ts:41-45 | Numbers are places in the ordered snapshot. |
| SessionView.Regroup | src/bridge/session-catalog-view.ts:46-56 | Each folder's sessions, or the empty folder with its notice. |
| RuntimeObservation.SecondCardIff | src/bridge/runtime-observation.ts:354-370 | The terminal reports numbers always or never and rests since before the finishing input read it: the dormant follower that is settled stays dormant over every later run if and only if the guards adopt the input's read or the follower's last record does not differ from the terminal in a way that wakes it, and no input that may still settle it was recorded at rest with a state that does and that the guards let pass. |
| RuntimeObservation.SleepsForGoodIff | src/bridge/runtime-observation.ts:201-262 | While the terminal rests, a dormant follower recorded at rest stays dormant over every run if and only if the reading does not wake what it recorded and no such input may still settle it. |
| RuntimeObservation.WakesForNewRuns | src/bridge/runtime-observation.ts:248-255 | A follower at rest sleeps through the terminal it knows, and wakes for a later run or for a change into work, waiting, failure or exit. |
| RuntimeObservation.WakesIff | src/bridge/runtime-observation.ts:248-252 | Exactly which reading wakes a dormant follower, state by state. |
| RuntimeObservation.ReadMeans | src/bridge/runtime-observation.ts:232-262 | What a read leaves of its follower: at rest while an input owns the terminal, going on if it was active, active if the reading wakes it, and else learning the reading; no other row is touched. |
| RuntimeObservation.SettleMeans | src/bridge/runtime-observation.ts:354-370 | A finished input settles a follower if and only if it was read and is current, and the follower is dormant without a card and knows nothing recorded later and no greater number. |
| RuntimeObservation.FinishMeans | src/bridge/runtime-observation.ts:354-380 | A finishing input settles every follower and is removed only after the last; a failed save breaks this off and leaves it to finish again. |
| RuntimeObservation.CardMeans | src/bridge/runtime-observation.ts:379-388 | A card belongs to an active follower, and its end puts the follower to rest with what it knows. |
| RuntimeObservation.OneCompletionOneCard | src/bridge/runtime-observation.ts:201-388 | On a terminal that counts its changes, after any history of honest reads recorded in any order: the settled follower stays dormant on every later tick, however late other inputs and followers record what they read before, provided its own last record is not younger than the input's, or was read after the terminal had come to rest. |
| RuntimeObservation.InOrderOneCard | src/bridge/runtime-observation.ts:201-388 | The same on any terminal, with or without numbers, if no input recorded at rest what it read before. |
| RuntimeObservation.LateRecordWakesFollower | src/bridge/runtime-observation.ts:366-368 | A follower's read taken before the end but recorded after the input's read of it: the guard skips the follower and some later run wakes it for the same end, on a terminal with numbers. |
| RuntimeObservation.StaleInputWakesFollower | src/bridge/runtime-observation.ts:357-370 | Without numbers, an input that recorded at rest what it read before overwrites a follower that the finishing input had brought up to date, and some later run wakes it for the same end. |
| RuntimeObservation.MisleadingRun | src/bridge/runtime-observation.ts:354-370 | Every input that the exact condition excludes has a run in which it settles the follower and a tick wakes it. |
| RuntimeObservation.WakingRun | src/bridge/runtime-observation.ts:201-262 | From any state, a dormant follower that the reading wakes has a run that wakes it: the inputs retire and one tick reads the terminal. |
| RuntimeObservation.RuntimeObservationController.Observe | src/bridge/runtime-observation.ts:206-214 | One observation of a row at a time, from the row as it was. |
| RuntimeObservation.RuntimeObservationController.Follow | src/bridge/runtime-observation.ts:232-262 | What a follower makes of its read. |
| RuntimeObservation.RuntimeObservationController.Finish | src/bridge/runtime-observation.ts:354-380 | The loop over the followers, then the input's row is removed. |
| UserInput.AnsweredAtMostOnce | src/bridge/user-input-controller.ts:81-124 | Over all runs, restarts and lost bindings, a group of at least one question yields one answer object at most while the record of its last question is retained. |
| UserInput.EmptyGroupIsAnsweredAgain | src/bridge/user-input-controller.ts:94-123 | A group without questions is answered on every request, however many came before. |
| UserInput.OneObjectIff | src/bridge/user-input-controller.ts:81-124 | Over every run that retains its records a group yields one answer object at most if and only if it has a question. |
| UserInput.EveryQuestionFirst | src/bridge/user-input-controller.ts:94-120 | Every returned object holds an answer for every question of its group, except those whose skip reached the file or whose expiry was saved. |
| UserInput.AnswersAreGiven | src/bridge/user-input-controller.ts:118-123 | Every answer in a returned object is one that a user gave to that very question and that reached the file. |
| UserInput.HistoryMeans | src/bridge/user-input-controller.ts:178-196 | An answer counts as given, and a question as left without one, only by that user's own answer or skip that reached the file, or by an expiry that was saved. |
| UserInput.ConfirmedForGood | src/bridge/user-input-controller.ts:247-254 | A confirmed answer is never left, and once the file says so not over a restart either. |
| UserInput.ConfirmedWasAccepted | src/bridge/user-input-controller.ts:60-416 | Over all runs, in memory and on disk: a record is confirmed only if its answer was reported accepted, expired only after its deadline, unconfirmed only after a reported failure or a restart, and withdrawn only if cancelled, timed out, reported gone or detached. |
| UserInput.ReportSettles | src/bridge/user-input-controller.ts:247-263 | A verdict on a record that is not confirmed: accepted confirms, failed leaves unconfirmed, gone withdraws for good, suspended changes nothing; the waiter is released and no other record touched. |
| UserInput.QuestionMeans | src/bridge/user-input-controller.ts:95-120 | What a request meets at a question it does not ask: an answer on record is taken over, and in every other case the request ends. |
| UserInput.QuestionAsked | src/bridge/user-input-controller.ts:97-116 | A question that can be asked (pending, new with room, or detached with its binding back, and saved as such) is announced once, on file first, and waited for; if that cannot be saved the request ends and it counts as not announced. |
| UserInput.AnsweredGroupReturns | src/bridge/user-input-controller.ts:94-123 | A request whose remaining questions are all answered returns one object, with exactly the answers on record, once they are marked `submitting` on file. |
| UserInput.ResumeMeans | src/bridge/user-input-controller.ts:115-118 | A wait that is over goes on behind its question with the answer if the record is decided, and otherwise ends the request. |
| UserInput.RequestMeans | src/bridge/user-input-controller.ts:71-80 | A request that is under way is shared; any other starts at its first question without answers. |
| UserInput.SettleMeans | src/bridge/user-input-controller.ts:178-196 | An answer or a skip is on file before its waiter hears of it; if that save fails nothing has changed in memory. |
| UserInput.ExpireMeans | src/bridge/user-input-controller.ts:406-416 | A deadline expires a question on file, or withdraws it if that cannot be saved; its waiter hears that there is no answer. |
| UserInput.SuspendMeans | src/bridge/user-input-controller.ts:379-394 | A lost binding withdraws what is open, marks what may be on its way and leaves the rest. |
| UserInput.CancelMeans | src/bridge/user-input-controller.ts:358-364 | A cancelled question is withdrawn and its waiter hears that there is no answer. |
| UserInput.ReloadIsUnconfirmed | src/bridge/user-input-controller.ts:60-61 | A reload turns submitting into unconfirmed. |
| UserInput.RestartMeans | src/bridge/user-input-controller.ts:57-61 | A new process knows what the file says, with submissions in doubt, and neither runs nor waits; only settled records are dropped. |
| UserInput.ChannelUserInputController.RunRequest | src/bridge/user-input-controller.ts:94-123 | The loop over the questions up to its next wait; the mark is saved before the answers are returned. |
| UserInput.ChannelUserInputController.Question | src/bridge/user-input-controller.ts:95-119 | One question: record, revive, check, ask or take over its answer. |
| UserInput.ChannelUserInputController.Ask | src/bridge/user-input-controller.ts:198-217 | The card is announced on disk before one waits. |
| UserInput.ChannelUserInputController.Settle | src/bridge/user-input-controller.ts:178-196 | An answer is saved before anybody hears of it, and taken back if that fails. |
| UserInput.ChannelUserInputController.Expire | src/bridge/user-input-controller.ts:406-416 | Without a durable transition an expired question is withdrawn and nothing submitted. |
| UserInput.ChannelUserInputController.Report | src/bridge/user-input-controller.ts:247-263 | A verdict on one record; a confirmed one is left alone. |
| TurnAudience.UniqueKeepsUsers | src/bridge/turn-audience.ts:96-99 | The roster names every directed user once. |
| TurnAudience.BatchesPartition | src/bridge/turn-audience.ts:122-127 | Concatenating the batches gives the roster; no batch is empty or over the limit. |
| TurnAudience.NotifiedAtMostOnce | src/bridge/turn-audience.ts:101-156 | Over all runs with crashes, holds and overlapping notify calls nobody is sent two notifications for a turn. |
| TurnAudience.PlanIsFrozen | src/bridge/turn-audience.ts:77-78 | A saved plan is final: late events add nobody and no batch becomes pending again. |
| TurnAudience.HeldTurnStartsNothing | src/bridge/turn-audience.ts:58-70 | Over any stretch in which a receipt is being observed no call starts to notify, nothing is planned and a call is deferred; whatever is still sent is sent by calls that had begun before. |
| TurnAudience.EverybodyIsNotified | src/bridge/turn-audience.ts:101-156 | With a capable channel, saves that return and sends that are acknowledged, each reachable participant is sent one notification, nobody else any, and every notice is delivered on file. |
| TurnAudience.RecordMeans | src/bridge/turn-audience.ts:72-88 | A new actor is entered behind everybody accepted by then; one heard again keeps the earlier time and the first mention and moves to the place of that time; all others keep their order. |
| TurnAudience.RecordSaves | src/bridge/turn-audience.ts:72-88 | A record that changes the roster is saved, kept in memory even if that fails, and refused once there is a plan or none will be. |
| TurnAudience.RosterIsHonest | src/bridge/turn-audience.ts:72-88 | Over all runs the roster, in memory and on disk, is in the order of acceptance, with one entry for an actor whose time and mention were reported for that actor. |
| TurnAudience.DirectedIff | src/bridge/turn-audience.ts:96-98 | Which ids can be addressed: 1 to 256 letters, digits and signs, and never everybody in any case. |
| TurnAudience.FreezeMeans | src/bridge/turn-audience.ts:112-129 | The end of a turn plans nothing for good when nobody can be addressed or the channel has no mentions, nothing yet under an invalid limit, and else pending batches within the limit that name every reachable participant once. |
| TurnAudience.NotifyMeans | src/bridge/turn-audience.ts:101-129 | A current call is put off while a receipt is observed, starts at the first notice of a plan, or gives the turn its plan and goes on once that is saved. |
| TurnAudience.StepMeans | src/bridge/turn-audience.ts:130-143 | A pending notice at hand is marked on file and only then sent to exactly its batch; others are passed over. |
| TurnAudience.AnswerMeans | src/bridge/turn-audience.ts:144-149 | An acknowledged send is delivered once saved, any other unconfirmed. |
| TurnAudience.HoldMeans | src/bridge/turn-audience.ts:58-70 | The last release lets a call that was put off run, once; a new process holds nothing. |
| TurnAudience.TurnAudienceJournal.Slice | src/bridge/turn-audience.ts:122-127 | The slicing loop builds the batches. |
| TurnAudience.TurnAudienceJournal.Notify | src/bridge/turn-audience.ts:101-129 | `notify` before its loop: return, defer, give up, or freeze the plan. |
| TurnAudience.TurnAudienceJournal.Attempt | src/bridge/turn-audience.ts:130-143 | A batch is sent only after its mark is saved. |
| TurnAudience.TurnAudienceJournal.Settle | src/bridge/turn-audience.ts:144-149 | Delivered if acknowledged and saved, else unconfirmed. |
| TurnAudience.TurnAudienceJournal.Record | src/bridge/turn-audience.ts:72-88 | The earliest acceptance and the first mention of each participant, until a plan exists. |
| TurnAudience.TurnAudienceJournal.Release | src/bridge/turn-audience.ts:58-70 | A release works once, and the last one runs the deferred call. |
| InputReceipts.FindNativeInputReceipts | src/bridge/native-input-recovery.ts:5-40 | The paged scan ends within its budget, returns receipts if and only if the pages are complete within it, and then those of a single pass: ids with exactly one distinct valid turn. |
| InputReceipts.PagingIsInvisible | src/bridge/native-input-recovery.ts:11-38 | How a history was cut into pages does not change the receipts. |
| InputReceipts.ConflictIsNoReceipt | src/bridge/native-input-recovery.ts:29-34 | Two turns for one id are no evidence. |
| InputReceipts.ReceiptIff | src/bridge/native-input-recovery.ts:25-34 | An input has a receipt if and only if some user message of the history bears its id and every one that does names this one turn, which is not blank. |
| InputReceipts.CompleteIff | src/bridge/native-input-recovery.ts:31-37 | The history is complete if and only if all reads brought pages, the last without a cursor and each one before with a cursor of its own. |
| InputReceipts.CountPage | src/bridge/native-input-recovery.ts:26-31 | Folding a page keeps the tally of turns and invalid ids exact. |
| InputReceipts.Select | src/bridge/native-input-recovery.ts:33-34 | Selects exactly the ids with one turn and no invalid entry. |
| Admission.AllowedAtMostOnce | src/bridge/admission.ts:103-124 | In every reachable state, in memory and on disk: at most 500 requests and eight open ones for each principal, and no ticket was allowed twice, a crash or failure between its two saves included. |
| Admission.OpenTicketsStay | src/bridge/admission.ts:61-78 | A new request never evicts an open one that is unexpired. |
| Admission.ObservedIff | src/bridge/admission.ts:61-78 | An observation opens a request if and only if the account is configured, the sender is a person, nothing of the same sender, conversation and kind is open, and fewer than 500 are open in all and eight of the sender; once saved it is pending on file and open for exactly 24 hours. |
| Admission.NewestTicketsStay | src/bridge/admission.ts:70-77 | All open requests stay, and of the finished tickets the newest as far as 499 rows allow. |
| Admission.DecisionMeans | src/bridge/admission.ts:103-124 | A denial dismisses and grants nothing; an approval marks the ticket on file before its one grant, dismisses it when that went through and leaves it marked otherwise; every other ticket stays. |
| Admission.NoDecision | src/bridge/admission.ts:79-83 | A decision that names no pending, unexpired request of its version, or one already admitted, changes nothing. |
| Admission.ForgottenIff | src/bridge/admission.ts:89-92 | A forgotten account loses its requests and nobody else does. |
| Admission.GrantedOnlyOnApproval | src/bridge/admission.ts:103-124 | A ticket is granted only by a choice that approves it, while it is pending and unexpired. |
| Admission.AddedIsBounded | src/bridge/admission.ts:70-77 | The capacity arithmetic keeps both bounds and every open request. |
| Admission.AdmissionService.Observe | src/bridge/admission.ts:61-78 | An existing open request is returned; otherwise a new one is saved or refused. |
| Admission.AdmissionService.ApplyChoice | src/bridge/admission.ts:103-124 | The access list is called only for a ticket that was never granted, after `applying` was saved, and with the sender for an actor and the conversation for a group. |
| Admission.AdmissionService.FindPending | src/bridge/admission.ts:79-83 | Finds exactly a pending request under its own id and version. |
| BindingIds.OctetsOfSextets | src/agents/resource-catalog.ts:11 | base64url decoding undoes encoding, for every byte sequence. |
| BindingIds.FromUtf8OfUtf8 | src/agents/resource-catalog.ts:11 | UTF-8 decoding undoes encoding, for every text without lone surrogates. |
| BindingIds.CharactersOfEscape | src/agents/resource-catalog.ts:11-18 | Reading a JSON string gives back the text that was written, control characters, quotes and lone surrogates included. |
| BindingIds.ParseOfPairText | src/agents/resource-catalog.ts:11-18 | Parsing the encoded pair gives the pair. |
| BindingIds.BindingRoundTrip | src/agents/resource-catalog.ts:10-23 | Every issued id has the shape the reader demands, so the limits 512 and 503 agree, and decodes to its resource. |
| BindingIds.AcceptedIsCanonical | src/agents/resource-catalog.ts:15-23 | An id is accepted for a resource if and only if it is the encoding of that resource within its endpoint. |
| BindingIds.BindingIsInjective | src/agents/resource-catalog.ts:10-14 | No two resources share an id. |
| BindingIds.IssuedIff | src/agents/resource-catalog.ts:10-14 | A resource gets an id if and only if its names have their length and take at most 370 bytes together inside the JSON pair, escapes and multi-byte characters counted. |
| BindingIds.KnownCodes | src/agents/resource-catalog.ts:11 | The alphabet of base64url, the escapes of JSON and UTF-8 at each length, in characters. |
| BindingIds.FromUtf8Iff | src/agents/resource-catalog.ts:11 | Bytes are decoded if and only if they encode a text without lone surrogates, and then to that text. |
| BindingIds.KnownReads | src/agents/resource-catalog.ts:11-18 | What may follow a backslash when JSON is read, and what a hexadecimal digit is, capitals included. |
| MarkdownSource.WholeIsSource | src/channels/assistant-presentation.ts:67-79 | The whole map gives the source back. |
| MarkdownSource.SlicesConcatenate | src/channels/assistant-presentation.ts:67-79 | Adjacent slices concatenate. |
| MarkdownSource.OriginalIsExact | src/channels/assistant-presentation.ts:67-79 | Normalising a literal slice gives the slice of the normalised text, and no slice splits a CRLF pair. |
| MarkdownSource.SplicesToSource | src/channels/assistant-presentation.ts:64-79 | A source cut at token positions and put together again is itself. |
| MarkdownSource.FillOffsets | src/channels/assistant-presentation.ts:69-75 | The loop fills the offset map. |
| MarkdownSource.Build | src/channels/assistant-presentation.ts:69-79 | The map is exact for every source, with or without carriage returns. |

## Left out

- Legacy ids imported by the receipt journal's constructor, prepared attachments, item lists, summaries and notices' texts: they add no state that a proof here depends on.
- `ForwardingInbox.tick`: its order of visits, the limit of four preparations and the reconcile timers; any row may be delivered or tidied at any time instead, so the proofs cover every schedule.
- Generations, workspaces and roots of a forwarding target are one opaque `place`.
- Pagination of the native queue list and of history inside `reconcile` and `dispatch`: a pass receives what it finds; the paged scan is modelled in `InputReceipts.dfy`.
- The selection of items in `NativeQueueCoordinator.dispatch` is left out, and `cancel`'s write is a step of the system, not a method; the JSON text of a receipt is its value, so key order after a reload plays no part.
- `SessionControlJournal` choices, and stored presentations of accepted inputs.
- Per-request child clients of `JsonLineClient`, connection timeouts, and the order in which `failAll` visits requests.
- JsonLines.SettledExactlyOnce: an outcome of a read request is not tied to whether its bytes were sent, because the source gives reads no such evidence.
- Group names, labels, their disambiguation and the current group of the session catalog: presentation.
- InboundReceipts.InboundReceiptJournal.Reopen: for a file that cannot be read again after an append only the start is described, not what later operations make of it; `ReadsAgainIff` says which they are.
- Runtime observation of an active follower, its cards, stages and notifications, and saves of its journal that fail after their rename.
- Question cards, acknowledgement retries, audience holds and `close` of the question controller; pruning is a step that may drop any finished record.
- Card context of a mention batch is an input; other turns appear only as saves that write this turn too.
- `NativeInputReceiptObserver`: sharing and expiry of running scans; deadlines and aborts appear as failed reads.
- Administrators, account settings and command texts of the admission service.
- BindingIds.BindingRoundTrip: bytes that are not UTF-8 are refused at once, where the source decodes them to replacement characters and refuses them when it encodes again.
- Markdown parsing; `original` is modelled for positions within the text, in order.
- MarkdownSource.OriginalIsExact: positions past the end of the text, for which the source would read an undefined offset, are not modelled.
- Access roles, provider adapters, the service's command routing, peer connections, prompt buffer and taskboard: further instances of the same write-ahead pattern or plumbing.
