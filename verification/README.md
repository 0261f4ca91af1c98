# Hermes payments: lifecycle, recovery and delivery

A Dafny model of the Hermes payment process: the policy engine that takes an
intent from submission to settlement, the process that snapshots and restarts it,
the Wavelength adapter that talks to the wallet daemon, and the transports that
carry peer messages. The theorems are about whole runs: any sequence of commands
on any number of intents, with every adapter outcome, with restarts between
commands, and (where said) with the process killed between any two durable effects.

Check everything with `dafny verify dfyconfig.toml`.

## How it is built

| module | what it holds |
|---|---|
| `StateMachine` | states, transition table, the generic reachability worklist |
| `Wrappers`, `Model` | messages, adapter results, JSON trees, the functions supplied from outside (`Env`) |
| `Store` | approval key, `IdempotencyStore` and `AuditLog` classes |
| `Lifecycle` | what each engine call does to one record (`Change`), to all records (`Perform`), and what recovery does (`RecoverRecords`) |
| `System` | the process over its life: memory, disk, log of effects, steps `Run` and `Kill`, runs `Exec` |
| `Committed`, `Safety` | what every command and every step keeps, kills included |
| `Dispatch`, `Audit`, `Settlement`, `Recovery` | the theorems about runs |
| `Tracking` | when store and records agree on an intent |
| `Gates` | what lets each engine call through, and all it leaves behind |
| `Parsing`, `Replies` | the parsers of daemon replies, and what a reply says, read off its JSON tree |
| `Wavelength`, `Money`, `Payments` | the adapter, and runs whose answers come from it, without and with kills |
| `Causes` | what stands behind each audit line, each settlement and the evidence of each recovery round |
| `Orchestrator`, `Process` | the imperative engine, peer and process, proved against the above |
| `Buzz`, `Delivery`, `Hub` | the receive loop and its cursor, its union with the inbox, the in-memory hub |
| `Boundaries` | where the guarantees end: refused calls that leave a trace, runs with one kill |

Two layers meet in `Orchestrator` and `Process`. `Lifecycle` and `System` say on
plain values what a call does: the new records, the new store, the exact sequence
of durable effects (a store save, an audit line, an adapter call with its daemon
calls, a snapshot) and the error. The classes hold the fields the program updates,
with the program's loops and early returns, and each method ensures that it did
exactly what the value function says; a ghost trace is tied to the audit file and to
the daemon calls really made. `HermesRegtestProcess.Valid` says that its memory and
files are where its list of steps leads, so `Process.ProcessGuarantees` gives the
run theorems for every process.

The value functions are in turn tied down by statements that do not use them. `Gates`
says of every engine call when it is accepted, with which error it is refused, and what
record, store and effects it leaves, in terms of fields, states and constants. `Replies`
says what a JSON tree means as a number, a status word, a payment hash or a list, by
relations that share nothing with the parsers, and `Wavelength` gives the outcome of
each adapter call as an if-and-only-if over such a reply. `Buzz.OfferedIsAuthentic` does
it for relay events. `Causes` lifts these to runs: every audit line has its cause
(`EveryLineHasItsCause`), and SETTLED means that the daemon reported the payment COMPLETE
for the intent's amount, or that the operator said so (`SettledMeansPaid`).

A `Kill(act, n)` step stops an action after its first `n` effects and drops the
memory. Saves and snapshots are atomic, so these are all the places where the process
can die. "Restarts between commands" means runs without `Kill` (`NoKills`).

`Env` supplies SHA-256 over the payload, the inside of what Python prints for a list or
an object, and the two allowlist hooks. Adapter answers are arbitrary in `Dispatch`, `Audit`, `Settlement` and
`Recovery`; in `Money`, `Payments` and the adapter part of `Causes` they are the Wavelength adapter's answers to arbitrary daemon
replies (`WaveRun`). Time is a parameter of each command.

`hide` statements only keep definitions out of single proofs.

## Where the code and its documentation differ

The model follows the code. Each item names the lemma or contract that says exactly
when the documented promise holds, and one with an input for which it fails.

- `_find_by_state` (src/hermes_payments/policy.py:334-352) is documented to raise when
  several intents match; it returns the first, and the lookup fails exactly when none
  matches (`Orchestrator.PaymentOrchestrator.FindByState`,
  `Boundaries.TwoMatchesAreNotRefused`). `Perform` takes an arbitrary match.
- `receive_quote` (src/hermes_payments/policy.py:417-424) stores the quote before the
  transition check, so a refused quote can replace the old one (`Boundaries.RefusedQuote`,
  `Boundaries.RefusedQuoteReplaces`).
- `_load_cursor` (src/hermes_payments/transport.py:441-457) promises to survive a corrupt
  cursor. A JSON document that is not an object makes it raise, and so does a file that is
  not text (`Buzz.BuzzTransport.Open`).
- `validate_received_event` (src/hermes_payments/transport.py:326-398) promises to raise
  only its own error. An envelope whose type is a list makes the codec raise TypeError, and
  the receive that meets it loses what it had collected although it marked it as seen
  (`Buzz.LimitedPollingIsOneFilter`, `Buzz.PoisonedPoll`; for the inbox
  `Delivery.NothingDropped`).
- `confirm_settled` (src/hermes_payments/policy.py:718-743) claims that its stored binding
  prevents a second one. It does not look (`Boundaries.ConfirmKeepsExactly`). Over runs,
  settlement and stored receipt agree exactly as long as no kill falls between saving a
  receipt and the snapshot (`Settlement.SettlementExactly`); such kills exist in execute,
  receive_receipt and confirm_settled, and one can end in a paid intent that is REJECTED
  (`Boundaries.PaidButRejected`, `Boundaries.OneKillBreaksBinding`).
- The comment in `handle_line` (examples/two_hermes_regtest/process.py:303-305) says the
  safe state survives an ambiguous execute. It survives an exception, and a kill exactly if
  that does not fall between dispatch and snapshot (`Dispatch.DispatchExactly`,
  `Dispatch.KillAllowsResend`).
- `submit` (src/hermes_payments/policy.py:379-387) records an intent only once it is in
  memory. On disk the two agree exactly as long as no kill falls between that record and
  the snapshot; after one the intent is known and never tracked again
  (`Tracking.TrackingExactly`, `Tracking.StrandedForever`).

## Model

| member | source | states |
|---|---|---|
| `StateMachine.EdgesClimb` | src/hermes_payments/state_machine.py:36-80 | a rank strictly rises on every edge of the table, so the automaton has no cycle |
| `StateMachine.TerminalMeansStuck` | src/hermes_payments/state_machine.py:83-121 | terminal states are exactly those without outgoing edge, and a transition succeeds exactly along an edge |
| `StateMachine.DispatchedIsClosed` | src/hermes_payments/state_machine.py:36-80 | no edge leaves EXECUTING, RECONCILIATION_REQUIRED, SETTLED for any other state |
| `StateMachine.ReachableStates` | src/hermes_payments/state_machine.py:129-141 | for any finite table the worklist ends and returns exactly the states on some path from the start |
| `Store.ApprovalKeyInjective` | src/hermes_payments/policy.py:151-153 | two triples with colon-free intent id and hash and the same key are equal, whatever the quote ids |
| `Store.ApprovalKeyCollides` | src/hermes_payments/policy.py:151-153 | without that condition two different triples can share a key |
| `Store.KeySetRefinesTriples` | src/hermes_payments/policy.py:151-163 | under that condition membership and recording on keys are membership and recording on triples |
| `Store.ReopenResumes` | src/hermes_payments/policy.py:195-202 | reopening a file numbered 0..n-1 continues at n |
| `Store.AuditLog.constructor` | src/hermes_payments/policy.py:190-202 | the next number is one past the largest in the file, whatever the file |
| `Store.AuditLog.Append` | src/hermes_payments/policy.py:204-215 | one more line with the next number, which is its position in a file that was opened gapless |
| `Store.IdempotencyStore.constructor` | src/hermes_payments/policy.py:95-110 | memory is what the file held |
| `Store.IdempotencyStore.RecordIntent` | src/hermes_payments/policy.py:145-147 | exactly that id is added and the file agrees with memory |
| `Store.IdempotencyStore.RecordApproval` | src/hermes_payments/policy.py:159-163 | exactly that key is added and the file agrees |
| `Store.IdempotencyStore.RecordReceipt` | src/hermes_payments/policy.py:170-172 | exactly that binding is set and the file agrees |
| `Committed.PerformOk` | src/hermes_payments/policy.py:358-856 | every call, returning or raising, keeps records well-formed; an authorised intent keeps payload and approval and stays authorised unless rejected before dispatch; dispatch only from APPROVED with the record's own payload, as the second effect; an approval is saved before it is audited and was new |
| `Committed.SweepMovesOverdue` | src/hermes_payments/policy.py:821-856 | the sweep moves exactly the overdue EXECUTING intents it was asked about, and raises exactly when there is one |
| `Committed.RecoverOne` | examples/two_hermes_regtest/process.py:592-747 | a saved record decodes to itself; recovering it never raises and changes only an interrupted or unresolved execution |
| `Committed.RecoverAll` | examples/two_hermes_regtest/process.py:670-747 | over any base memory and file order, every saved record comes back as that says, nothing else moves, nothing is saved, approved or dispatched |
| `Safety.AbsorbKeeps` | examples/two_hermes_regtest/process.py:333-343 | receiving keeps one message per id, drops nothing, and ends with every offered id held |
| `Safety.AbsorbTakes` | examples/two_hermes_regtest/process.py:333-343 | the first message with a new id goes to the inbox as it is, in the order offered; one with a known or repeated id does not |
| `Safety.RecoverySound` | examples/two_hermes_regtest/process.py:670-773 | in every invariant state recovery succeeds and rebuilds memory from disk |
| `Safety.CutShort` | examples/two_hermes_regtest/process.py:298-313 | an action killed before its snapshot leaves the snapshot as it was, the store old or new, and the invariant |
| `Safety.RunThrough` | examples/two_hermes_regtest/process.py:298-318 | an action run to its end leaves disk holding exactly its outcome, and the invariant |
| `Safety.AlwaysInv` | examples/two_hermes_regtest/process.py:298-318 | the invariant holds after any steps with kills anywhere |
| `Dispatch.DispatchCount` | src/hermes_payments/policy.py:536-623 | with kills anywhere, dispatches of an intent equal the kills between its dispatch and snapshot, plus one if the durable record is dispatched |
| `Dispatch.DispatchExactly` | examples/two_hermes_regtest/process.py:298-318 | the durable state shows every dispatch at every moment of a run, if and only if no kill falls between it and its snapshot |
| `Dispatch.AtMostOnce` | src/hermes_payments/policy.py:536-623 | without kills at most one dispatch, and one exactly when the state is EXECUTING, RECONCILIATION_REQUIRED or SETTLED |
| `Dispatch.DispatchedForever` | src/hermes_payments/policy.py:536-623 | once dispatched, those states for ever |
| `Dispatch.OnePayload` | src/hermes_payments/policy.py:562-567 | all dispatches of an intent carry one payload, kills included |
| `Dispatch.ApprovalProvenance` | src/hermes_payments/policy.py:481-567 | every dispatch follows an audited approval of that intent and that payload hash, whose triple is in the store |
| `Dispatch.NoApprovalReplay` | src/hermes_payments/policy.py:507-518 | no triple is accepted twice, across restarts and kills |
| `Dispatch.KillAllowsResend` | examples/two_hermes_regtest/process.py:306-313 | from every state ready to execute, a kill between dispatch and snapshot and a restart lead to exactly two dispatches |
| `Audit.EngineAudited` | src/hermes_payments/policy.py:358-856 | after each call the last audited state of every intent is its state |
| `Audit.RecoveryAudited` | examples/two_hermes_regtest/process.py:734-747 | so it is after recovery, which audits exactly the interrupted executions |
| `Audit.EngineFollowsEdges` | src/hermes_payments/policy.py:358-856 | calls move states only along edges, direct assignments included, and outside the sweep only of their own intent |
| `Audit.RecoveryFollowsEdges` | examples/two_hermes_regtest/process.py:734-743 | recovery's direct assignment follows an edge |
| `Settlement.AuditReconstructs` | src/hermes_payments/policy.py:183-226 | over whole runs without kills the audit file gives every current state, and each entry repeats its intent's last state or takes one edge |
| `Settlement.AtMostSevenChanges` | src/hermes_payments/state_machine.py:36-80 | an intent's audited state changes at most seven times, never more than the rank of its state |
| `Settlement.EngineSettles` | src/hermes_payments/policy.py:358-856 | every call keeps state, receipt and stored reference of an intent in agreement, whatever the others look like, and changes no bound one |
| `Settlement.StepSettles` | src/hermes_payments/policy.py:593-743 | a step keeps the agreement if and only if it is not killed between saving a receipt of that intent and the snapshot |
| `Settlement.SettlementExactly` | src/hermes_payments/policy.py:593-743 | the same over whole runs with kills anywhere |
| `Settlement.SettlementBinding` | src/hermes_payments/policy.py:593-743 | unless such a kill lost a receipt: SETTLED exactly when the store holds one; the reference is a held receipt's with the intent's amount, or the manual marker |
| `Settlement.BindingForever` | src/hermes_payments/policy.py:593-743 | from then on no operation, restart or kill changes the reference or the receipt |
| `Recovery.MemoryIsDurable` | examples/two_hermes_regtest/process.py:592-668 | a running process always holds what a restart would load |
| `Recovery.RestartIsIdentity` | examples/two_hermes_regtest/process.py:670-773 | after any run with kills a restart succeeds and changes nothing, except EXECUTING becoming RECONCILIATION_REQUIRED and refreshed evidence |
| `Recovery.RestartIsIdempotent` | examples/two_hermes_regtest/process.py:670-773 | a second restart changes no state |
| `Recovery.UnusedStates` | src/hermes_payments/policy.py:358-856 | no run ever has a tracked intent in DRAFT, FAILED or EXPIRED |
| `Recovery.InboxHasOnePerId` | examples/two_hermes_regtest/process.py:333-343 | one message per id and an exact id set, in every run |
| `Recovery.InboxNeverDrops` | examples/two_hermes_regtest/process.py:749-770 | the durable inbox only grows, through restarts and kills |
| `Tracking.EngineTracks` | src/hermes_payments/policy.py:358-395 | only submit adds an intent, to store and records alike |
| `Tracking.TrackingExactly` | src/hermes_payments/policy.py:379-387 | store and records agree on an intent at every moment of a run, if and only if no kill falls between its save and the snapshot |
| `Tracking.StrandedForever` | src/hermes_payments/policy.py:365-367 | an intent the store knows and the records do not is never tracked again |
| `Tracking.KilledSubmitStrands` | examples/two_hermes_regtest/process.py:306-313 | every acceptable submit strands its intent when killed after its save |
| `Gates.SubmitGate` | src/hermes_payments/policy.py:358-395 | a new intent is accepted iff unexpired and its recipient allowed, and then is SUBMITTED, stored and audited; a known one changes nothing |
| `Gates.QuoteGate` | src/hermes_payments/policy.py:397-432 | a quote is accepted iff the intent is SUBMITTED, the fee within its limit and the quote unexpired; the exact new record and audit line |
| `Gates.PrepareGate` | src/hermes_payments/policy.py:434-479 | the adapter is asked iff the intent is QUOTED, its quote current and the rail allowed; its result is taken iff fee and rail pass; the errors apart |
| `Gates.ApproveGate` | src/hermes_payments/policy.py:481-534 | an approval is accepted iff the intent is PREPARED, holds that quote and that hash, and the triple is unused; ApprovalRejected iff another quote, another hash or a used triple |
| `Gates.ExecuteGate` | src/hermes_payments/policy.py:536-623 | dispatched iff APPROVED with a payload, after EXECUTING is audited; settled iff the adapter succeeds with a fee that is not negative, with that receipt; each other outcome by state and error |
| `Gates.ReceiptGate` | src/hermes_payments/policy.py:625-716 | a receipt settles iff the intent is executing or unresolved, has no stored receipt, amount and quote agree and the verdict is verified; the adapter is asked iff the gates pass; what a refusal audits |
| `Gates.ConfirmGate` | src/hermes_payments/policy.py:718-743 | accepted iff in reconciliation; stores the manual marker and settles |
| `Gates.ReconcileGate` | src/hermes_payments/policy.py:745-785 | the record then holds exactly what the query returned, UNKNOWN and unverified when it raised; no state moves |
| `Gates.CancelGate` | src/hermes_payments/policy.py:787-800 | accepted iff in DRAFT, SUBMITTED, QUOTED or PREPARED |
| `Gates.RejectGate` | src/hermes_payments/policy.py:802-815 | accepted iff in SUBMITTED, QUOTED, PREPARED or APPROVED |
| `Gates.SweepGate` | src/hermes_payments/policy.py:821-856 | exactly the EXECUTING intents asked about whose deadline has passed move, each is audited once, and it raises iff there is one |
| `Gates.RoundHolds` | examples/two_hermes_regtest/process.py:670-747 | after any run with any kills, a start or recovery round leaves each interrupted or unresolved intent in reconciliation with the result of its own query, UNKNOWN when that raised, and every other record as it was |
| `Replies.NumeralRead` | src/hermes_payments/adapter.py:461-473 | a text reads as the number n iff it is an optional sign and digits whose place values sum to n |
| `Replies.DecimalRoundtrip` | src/hermes_payments/adapter.py:461-473 | the decimal text of a number reads back as that number |
| `Replies.StatusRead` | src/hermes_payments/adapter.py:597-600 | a text normalises to a status word iff it is that word in any letter case with the enum prefix put in anywhere, any number of times |
| `Replies.SendStatusRead` | src/hermes_payments/adapter.py:593-602 | the status of a Send entry is PENDING, COMPLETE or FAILED iff it says that word or is code 1, 2 or 3 |
| `Replies.HashRead` | src/hermes_payments/adapter.py:652-679 | the hash found is the first value that is not blank at the top, under progress, or under the invoice of the request |
| `Replies.SendRead` | src/hermes_payments/adapter.py:558-610 | the Send parser refuses iff there is no entry with an id, raises iff a number cannot be read, and else finds id, amount, fee, status and hash |
| `Replies.PreviewRead` | src/hermes_payments/adapter.py:476-555 | a preview parses iff token, hash, known fee, known outflow and the four numbers are there |
| `Replies.ListRead` | src/hermes_payments/adapter.py:682-708 | the entries are the objects of exactly the list the envelope offers, in order |
| `Replies.EntryRead` | src/hermes_payments/adapter.py:613-649 | an activity entry is malformed iff a number cannot be read; else its amount, fee, status and hash |
| `Wavelength.PrepareSound` | src/hermes_payments/adapter.py:785-886 | at most one PrepareSend, no Send; a result binds amount, fee within the limit, outflow = amount + fee, token, hash and digest |
| `Wavelength.PrepareExactly` | src/hermes_payments/adapter.py:785-886 | succeeds iff the reply is an unexpired preview for the amount with fee within the limit and outflow of amount plus fee, anything else is an AdapterError; the payload seals that preview and the invoice |
| `Wavelength.ExecuteSound` | src/hermes_payments/adapter.py:888-1009 | at most one Send, of the prepared token, none iff expired; success iff the entry has the prepared hash as id and no other hash, says COMPLETE or code 2, and moved the prepared amount with a readable fee; AdapterError iff no entry, or FAILED or code 3; the uncaught errors exactly; all else ambiguous |
| `Wavelength.CodesDecide` | src/hermes_payments/adapter.py:593-596 | of the status codes, 2 settles, 3 is an AdapterError and every other is ambiguous |
| `Wavelength.SendsExactly` | src/hermes_payments/adapter.py:902-931 | for any payload: the Send goes out iff it hashes to the approved hash and decodes to an object with a token and an expiry ahead, and carries that token |
| `Wavelength.TamperedIsNeverSent` | src/hermes_payments/adapter.py:902-908 | a payload with another digest is never sent |
| `Wavelength.EnvelopesAgree` | src/hermes_payments/adapter.py:682-708 | the reply envelopes give the same entries as the bare list under the stated condition |
| `Wavelength.FirstEntryDecides` | src/hermes_payments/adapter.py:1087-1140 | both scans are decided by the first malformed or matching entry, whatever follows |
| `Wavelength.NoEntryDecides` | src/hermes_payments/adapter.py:1132-1140 | without one, neither finds a settlement |
| `Wavelength.ScansAgree` | src/hermes_payments/adapter.py:1087-1260 | reconciliation says COMPLETE iff sender verification says verified, with equal amount and fee, iff the deciding entry is COMPLETE for the expected amount |
| `Wavelength.AdapterScansAgree` | src/hermes_payments/adapter.py:1011-1260 | the same for the two adapter calls on a prepared payment |
| `Wavelength.VerifyExactly` | src/hermes_payments/adapter.py:1142-1260 | verified iff the deciding entry of the reply is COMPLETE for the expected amount, of either sign for a payment sent; raises iff that entry cannot be read; amount and fee are those observed |
| `Wavelength.ReconcileExactly` | src/hermes_payments/adapter.py:1011-1140 | queries iff the payload is the approved one for the amount; COMPLETE or PENDING iff the deciding entry for the prepared hash has that status for that amount; verified iff COMPLETE; UNKNOWN otherwise |
| `Wavelength.WavecliExecutor.Run` | src/hermes_payments/adapter.py:437-442 | hands out the next scripted reply and records the call |
| `Wavelength.WavelengthAdapter.Prepare` | src/hermes_payments/adapter.py:785-886 | does what `PrepareAnswer` says with the next reply, daemon calls included |
| `Wavelength.WavelengthAdapter.Execute` | src/hermes_payments/adapter.py:888-1009 | does what `ExecuteAnswer` says, daemon calls included |
| `Wavelength.WavelengthAdapter.ReconcileSettlement` | src/hermes_payments/adapter.py:1011-1140 | the early-return loop does what `ReconcileAnswer` says |
| `Wavelength.WavelengthAdapter.VerifyActivity` | src/hermes_payments/adapter.py:1166-1260 | the early-return loop does what `VerifyAnswer` says |
| `Money.EachSendIsBound` | src/hermes_payments/adapter.py:843-950 | every Send of a run, kills included, is the one Send of a dispatch with the approved token; outflow is the intent's amount plus a fee within its limit |
| `Money.OneTokenPerIntent` | src/hermes_payments/adapter.py:918-950 | all Sends of an intent carry one send_intent_id, kills included |
| `Money.MoneyBound` | src/hermes_payments/adapter.py:843-886 | without kills all outflows together are at most the budgets of the distinct approved intents |
| `Payments.MoneyBoundWithKills` | src/hermes_payments/adapter.py:843-950 | with kills, at most the budgets, each once if dispatched and once more per dispatch lost to a kill |
| `Payments.PaidOnce` | src/hermes_payments/adapter.py:26-33 | with kills, a daemon that honours each token once pays at most the budgets of the distinct intents with a Send |
| `Payments.SettlementsArePrepared` | src/hermes_payments/policy.py:591-622 | over every run, kills included, each settlement in the audit file by execute refers to the payment hash its intent was approved with |
| `Money.RestartOnlyQueries` | examples/two_hermes_regtest/process.py:745-747 | a restart asks the daemon for activity only, after any run |
| `Money.ExecuteDecides` | src/hermes_payments/policy.py:562-623 | execute settles iff the adapter returns with a valid fee; else nothing is settled or recorded and the intent is out of APPROVED |
| `Money.ExecuteSettlesPrepared` | src/hermes_payments/policy.py:591-623 | an intent settled by execute has the prepared payment hash as its reference |
| `Causes.EveryLineHasItsCause` | src/hermes_payments/policy.py:358-856 | over every run, kills included, each audit line reports an action whose gate held in the durable state in which it was taken |
| `Causes.ApprovalsNameTheQuote` | src/hermes_payments/policy.py:481-534 | each audited approval names the quote and the hash its PREPARED intent held when it was accepted |
| `Causes.PayloadsArePreviewed` | src/hermes_payments/adapter.py:785-886 | each audited payload seals an unexpired daemon preview for the amount of its intent, within its fee limit |
| `Causes.SettlementsAreConfirmed` | src/hermes_payments/adapter.py:888-1009 | each settlement audited by execute was confirmed COMPLETE, under its reference and for the amount, by the reply to the Send |
| `Causes.ReceiptsAreShown` | src/hermes_payments/policy.py:687-716 | each audited receipt comes from a sender activity reply whose deciding entry for its reference is COMPLETE for the amount |
| `Causes.SettledMeansPaid` | src/hermes_payments/policy.py:536-743 | an intent shown SETTLED after any run, kills included, was confirmed by a Send reply, shown COMPLETE in activity, or confirmed by the operator |
| `Causes.RoundShows` | examples/two_hermes_regtest/process.py:670-747 | a round leaves COMPLETE or PENDING evidence for an intent iff the deciding entry of the reply to its query has that status for its amount |
| `Causes.PollingStops` | examples/two_hermes_regtest/process.py:547-560 | polling goes on after a round iff a reply of that round showed the payment of some unresolved intent PENDING for its amount |
| `Orchestrator.PaymentOrchestrator.constructor` | src/hermes_payments/policy.py:266-285 | starts with no intents on the given files |
| `Orchestrator.PaymentOrchestrator.FindByState` | src/hermes_payments/policy.py:334-352 | the first tracked intent in that state, None iff there is none |
| `Orchestrator.PaymentOrchestrator.Submit` | src/hermes_payments/policy.py:358-395 | did exactly what `Perform` says: records, store, effects in order, error |
| `Orchestrator.PaymentOrchestrator.ReceiveQuote` | src/hermes_payments/policy.py:397-432 | likewise |
| `Orchestrator.PaymentOrchestrator.Prepare` | src/hermes_payments/policy.py:434-479 | likewise for some QUOTED intent with the adapter's answer, or refused as there is none |
| `Orchestrator.PaymentOrchestrator.Approve` | src/hermes_payments/policy.py:481-534 | likewise |
| `Orchestrator.PaymentOrchestrator.Execute` | src/hermes_payments/policy.py:536-623 | likewise for some APPROVED intent: EXECUTING is audited before the one adapter call |
| `Orchestrator.PaymentOrchestrator.ReceiveReceipt` | src/hermes_payments/policy.py:625-716 | likewise: the gates in order, the binding saved before the record moves |
| `Orchestrator.PaymentOrchestrator.ConfirmSettled` | src/hermes_payments/policy.py:718-743 | likewise |
| `Orchestrator.PaymentOrchestrator.Reconcile` | src/hermes_payments/policy.py:745-785 | likewise: any adapter failure reads as UNKNOWN |
| `Orchestrator.PaymentOrchestrator.Cancel` | src/hermes_payments/policy.py:787-800 | likewise |
| `Orchestrator.PaymentOrchestrator.Reject` | src/hermes_payments/policy.py:802-815 | likewise |
| `Orchestrator.PaymentOrchestrator.CheckExpired` | src/hermes_payments/policy.py:821-856 | likewise: every overdue intent moves and is audited before it raises |
| `Process.SameDisplay` | examples/two_hermes_regtest/process.py:85-88 | two identifiers are shown alike iff equal, or both longer than 8 and alike in the first 8 |
| `Process.MessageForExactly` | examples/two_hermes_regtest/process.py:586-590 | the lookup gives the first message shown by the prefix, none iff there is none |
| `Process.ApprovesByDisplay` | examples/two_hermes_regtest/process.py:418-447 | the approve handler gets through iff given the hash the intent holds, in full or as shown, its quote id, in PREPARED, the first time |
| `Process.HermesPeer.SubmitIntent` | src/hermes_payments/peer.py:64-68 | only the sender's own intent reaches the engine; published iff nothing was raised |
| `Process.HermesPeer.AcceptIntent` | src/hermes_payments/peer.py:70-73 | only an intent addressed to this peer reaches the engine |
| `Process.HermesPeer.AcceptQuote` | src/hermes_payments/peer.py:79-84 | a quote from another recipient than the known intent's leaves the engine alone |
| `Process.HermesPeer.AcceptReceipt` | src/hermes_payments/peer.py:90-95 | likewise for a receipt |
| `Process.ProcessGuarantees` | examples/two_hermes_regtest/process.py:298-318 | for every process whose lives ended between commands: one dispatch per intent, the money bound, the audit file shows each state |
| `Process.HermesRegtestProcess.constructor` | examples/two_hermes_regtest/process.py:265-292 | starting on the files of any earlier life is one Boot step of its run |
| `Process.HermesRegtestProcess.SnapshotState` | examples/two_hermes_regtest/process.py:592-668 | the file is the encoded memory, logged after the engine's effects |
| `Process.HermesRegtestProcess.AbsorbMessages` | examples/two_hermes_regtest/process.py:333-343 | inbox and ids become what `Absorb` says |
| `Process.HermesRegtestProcess.RecoverRecord` | examples/two_hermes_regtest/process.py:681-747 | one saved record becomes what `RecoverChange` says, with its effects |
| `Process.HermesRegtestProcess.MaybeRecover` | examples/two_hermes_regtest/process.py:670-773 | is one Boot or Recover step; it never raises on a snapshot the process wrote |
| `Process.HermesRegtestProcess.HandleStatus` | examples/two_hermes_regtest/process.py:324-331 | one step without engine effects, then the snapshot |
| `Process.HermesRegtestProcess.HandleReceive` | examples/two_hermes_regtest/process.py:333-354 | one Receive step; only the snapshot when the transport raises |
| `Process.HermesRegtestProcess.HandleSubmitIntent` | examples/two_hermes_regtest/process.py:356-363 | one step: submit if the intent is ours; reports the engine's error, or UnknownIntent when the store knows the intent and memory does not |
| `Process.HermesRegtestProcess.FindInboxMessage` | examples/two_hermes_regtest/process.py:586-590 | the first message with that display prefix |
| `Process.HermesRegtestProcess.HandleAcceptIntent` | examples/two_hermes_regtest/process.py:365-374 | one step for the first matching intent message, else none; the same errors |
| `Process.HermesRegtestProcess.HandleAcceptQuote` | examples/two_hermes_regtest/process.py:385-394 | one step for the first matching quote message, else none |
| `Process.HermesRegtestProcess.HandleSubmitQuoteLocal` | examples/two_hermes_regtest/process.py:396-408 | one receive_quote step, without the peer's guard |
| `Process.HermesRegtestProcess.HandleAcceptReceipt` | examples/two_hermes_regtest/process.py:518-527 | one step for the first matching receipt message, else none |
| `Process.HermesRegtestProcess.HandlePrepare` | examples/two_hermes_regtest/process.py:410-416 | one prepare step whose answer is the adapter's |
| `Process.HermesRegtestProcess.HandleApprove` | examples/two_hermes_regtest/process.py:418-447 | one approve step with the full hash of the named intent if its prefix was given |
| `Process.HermesRegtestProcess.HandleExecute` | examples/two_hermes_regtest/process.py:449-456 | one execute step whose answer is the adapter's |
| `Process.RoundBound` | examples/two_hermes_regtest/process.py:542-560 | within the allowed ranges at most 72000 naps fit |
| `Process.HermesRegtestProcess.Poll` | examples/two_hermes_regtest/process.py:547-560 | see HandleRecover |
| `Process.HermesRegtestProcess.HandleRecover` | examples/two_hermes_regtest/process.py:529-584 | a sequence of Recover steps: rounds - 2 full intervals fit in the wait (so at most ceil(wait / poll) + 1, 72001 at the extremes), naps total at most the wait, PENDING before every further round, and early only when nothing is PENDING |
| `Buzz.OfferedIsAuthentic` | src/hermes_payments/transport.py:326-398 | an event is offered iff another key published it with kind 9, its first h-tag names the channel, its content decodes, the key is the sender of the intent or the recipient of the quote or receipt, and its deadline is 0 or not passed; it raises iff it gets to the codec and escapes it |
| `Buzz.OfferedInPlace` | src/hermes_payments/transport.py:526-552 | each new authentic event has its own place among the offers, in view order, and nothing else is there |
| `Buzz.ReceivedExactly` | src/hermes_payments/transport.py:502-555 | an unlimited receive returns exactly the new authentic events and marks the whole view; it raises iff a new relevant event escapes the codec |
| `Buzz.TakesTheFirst` | src/hermes_payments/transport.py:502-555 | a limited receive returns the first offers, as many as the limit allows; a negative limit is refused, zero touches nothing |
| `Buzz.ScanIsFilter` | src/hermes_payments/transport.py:526-552 | a limited scan collects the filter of the events it looked at, marks exactly their ids, and stops early only when the limit is met or a new event raises |
| `Buzz.RaisesExactly` | src/hermes_payments/transport.py:526-552 | a receive raises iff a new event that escapes the codec comes before the limit is met; it then marked all up to it and loses the offers before it |
| `Buzz.LimitedPollingIsOneFilter` | src/hermes_payments/transport.py:502-555 | any sequence of receives on an append-only view marks a prefix, returns and loses together its filter, of all once a call returned with room left; it returns that filter in order iff no call raised after collecting something |
| `Buzz.PoisonedPoll` | src/hermes_payments/transport.py:535-551 | a valid event followed by one that escapes the codec: two receives return nothing, the second with room left |
| `Buzz.NeverTwice` | src/hermes_payments/transport.py:530-533 | no id is returned twice, nor one the cursor held, whatever the relay shows |
| `Buzz.LoadsExactly` | src/hermes_payments/transport.py:441-457 | loading raises iff the file is no text or its document no object; else it gives exactly the texts listed under event_ids |
| `Buzz.ReloadedCursor` | src/hermes_payments/transport.py:441-481 | a reloaded cursor is a subset of the seen ids, and all of them iff they are at most 10000 |
| `Buzz.BuzzTransport.Open` | src/hermes_payments/transport.py:422-457 | opening fails iff the configured file is no text or a JSON document that is no object; else the loaded ids are the strings it lists |
| `Buzz.BuzzTransport.SaveCursor` | src/hermes_payments/transport.py:459-481 | distinct seen ids, as many as fit in 10000 |
| `Buzz.BuzzTransport.ReceivePeerMessages` | src/hermes_payments/transport.py:502-555 | does what `Poll` says, raising included; the cursor is rewritten iff the call returns and an id was added |
| `Delivery.DeliversExactly` | src/hermes_payments/transport.py:502-555 | from any endpoint, a receive that returns with room left puts a due message in the inbox iff it was there or was not marked |
| `Delivery.TurnKeeps` | examples/two_hermes_regtest/process.py:306-343 | a receive, restart or kill keeps every marked due message in the inbox iff it does not raise, or die after the cursor write, holding one the inbox lacks |
| `Delivery.NothingDropped` | src/hermes_payments/transport.py:452-456 | the same over whole lives, however much of the cursor is lost |
| `Delivery.AllDelivered` | src/hermes_payments/transport.py:502-555 | after such a life and a receive that returns with room left every due message is in the inbox, once |
| `Delivery.LostForGood` | src/hermes_payments/transport.py:553-555 | an id marked but not in the inbox is never delivered while the cursor keeps it |
| `Delivery.KillForgets` | examples/two_hermes_regtest/process.py:306-313 | a receive killed after its cursor write forgets a due message that it would have delivered |
| `Hub.OthersAt` | src/hermes_payments/peer_transport.py:110-112 | each message of another peer has its own place in send order, and there is nothing else |
| `Hub.InMemoryTransportHub.Connect` | src/hermes_payments/peer_transport.py:84-91 | refused iff the id is empty or taken; else an empty inbox from now on |
| `Hub.InMemoryTransportHub.Send` | src/hermes_payments/peer_transport.py:93-113 | accepted iff the local identity authored a transportable message; then at the end of every other inbox, and conservation is kept |
| `Hub.InMemoryTransportHub.Receive` | src/hermes_payments/peer_transport.py:115-123 | the oldest messages up to the limit; received followed by waiting stays exactly what others sent since connect |
| `Boundaries.RefusalIsNeutral` | src/hermes_payments/policy.py:358-815 | a raising call leaves records and store as they were and writes at most audit lines and adapter calls, except receive_quote and a dispatched execute |
| `Boundaries.RefusedQuote` | src/hermes_payments/policy.py:397-426 | a refused quote leaves the record alone iff fee or expiry was refused or the quote was held already |
| `Boundaries.RefusedQuoteReplaces` | src/hermes_payments/policy.py:417-424 | a refused quote that replaces the one the intent was quoted with |
| `Boundaries.TwoMatchesAreNotRefused` | src/hermes_payments/policy.py:334-352 | with two QUOTED intents prepare goes ahead with either |
| `Boundaries.ReachApproved` | src/hermes_payments/policy.py:358-534 | a run against the Wavelength adapter that takes an intent from nothing to APPROVED, so the theorems about such runs are not empty |
| `Boundaries.BudgetIsSpent` | src/hermes_payments/adapter.py:843-950 | the money bound is attained: a run without kills whose Send asks for exactly the one budget |
| `Boundaries.ConfirmKeepsExactly` | src/hermes_payments/policy.py:718-743 | confirm_settled leaves a stored reference alone iff the intent is not in reconciliation or the marker is stored already |
| `Boundaries.KilledExecuteSplits` | src/hermes_payments/policy.py:604-622 | a kill between receipt save and snapshot of a successful execute leaves the receipt stored and the intent APPROVED |
| `Boundaries.PaidButRejected` | src/hermes_payments/policy.py:604-622 | after that and a restart, reject makes a paid intent REJECTED |
| `Boundaries.KilledConfirmSplits` | src/hermes_payments/policy.py:737-743 | the same kill in confirm_settled leaves the marker stored and the intent unresolved |
| `Boundaries.KilledReceiptSplits` | src/hermes_payments/policy.py:703-709 | the same kill in receive_receipt leaves the reference stored and the intent unsettled |
| `Boundaries.ManualOverwrites` | src/hermes_payments/policy.py:718-743 | after a restart confirm_settled replaces whatever reference is stored |
| `Boundaries.OneKillBreaksBinding` | src/hermes_payments/policy.py:703-743 | a whole run with one kill in which the binding is stored without settlement and then overwritten |
| `Boundaries.OneKillSendsTwice` | examples/two_hermes_regtest/process.py:306-313 | a whole run with one kill and two dispatches after it began |

## Left out

- SHA-256, base64, JSON text, pydantic validation and the envelope codec: functions or parsed values here, with no property beyond being functions.
- Purposes, idempotency keys, relay addresses, created and settled times, message signatures and NIP-29 relay rules.
- Optional file paths: the store and audit files always exist and every save succeeds or the process dies; torn audit lines and failing writes are not modelled.
- Audit timestamps and the extra fields of audit lines other than those of `Store.Event`.
- Error texts, redaction of texts and the JSON bodies of replies; `redacted_identifier` itself is modelled where it selects a message or a hash.
- Numeric reply fields that are floats, or strings with blanks or underscores, and letters outside ASCII in numerals and status words.
- The removal of a `SEND_RAIL_` prefix and other display names of rails; Lightning is the only rail.
- Sorted order of snapshot keys and of cursor ids: any order of them is allowed, so the claims hold for sorted ones.
- `publish_quote`, `publish_receipt` and `verify_publish_receipt`: they leave the engine alone; the sends they make belong to the transports.
- Sending through Buzz, the compatibility `send_*` and `receive_messages` wrappers, and the `since` argument of the receive call.
- The endpoint wrapper of the in-memory hub, which passes its peer id on.
- JSONL parsing of command lines; refused lines reach no handler.
- Subprocess executors, command-line building, the supervisor, health probes and the other examples.
- Hub.InMemoryTransportHub.Receive: asks for a connected peer, since an endpoint exists only after connect.
- Process.HermesRegtestProcess.constructor: files that no earlier life of this process wrote are outside its contract, because the recovery of arbitrary files may raise.
- Delivery.NothingDropped: time stands still while one view is polled, because an event that expires between two polls is rightly not offered any more.
- Relay events whose JSON fields have other types than the Nostr protocol (NIP-01) gives them.
- Process.HermesRegtestProcess.HandleSubmitIntent: an exception of the transport after an accepted submit; `publish` tells that the transport was asked.
