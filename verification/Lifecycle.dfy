/** The policy engine on values: what each PaymentOrchestrator call does to the
    intent records, and which externally visible effects it has, in order.
    Orchestrator.dfy proves the imperative engine against these functions;
    System.dfy runs them. */
module Lifecycle {
  import opened Wrappers
  import opened StateMachine
  import opened Model
  import opened Store

  /** The in-memory record of one intent. */
  datatype Record = Record(
    intent: Intent, state: State,
    quote: Option<Quote>, prepared: Option<PrepareResult>, approval: Option<Approval>,
    receipt: Option<Receipt>, reconciliation: Option<ReconcileResult>,
    quoteExpiresAt: int, expiresAt: int)

  type Records = map<string, Record>

  /** A record as the process snapshot stores it: the two expiry fields are not
      written, they are rebuilt from the intent and the quote. */
  datatype SavedRecord = SavedRecord(
    intent: Intent, state: State,
    quote: Option<Quote>, prepared: Option<PrepareResult>, approval: Option<Approval>,
    receipt: Option<Receipt>, reconciliation: Option<ReconcileResult>)

  datatype Snapshot = Snapshot(records: map<string, SavedRecord>, inbox: seq<PeerMessage>)

  datatype AdapterCall =
    | CallPrepare(intentId: string)
    | CallExecute(intentId: string, prepared: PrepareResult)
    | CallVerify(settlementRef: string)
    | CallReconcile(intentId: string)

  /** Something the process did that outlives it: a store save, an audit line,
      an adapter call with its daemon calls, or a snapshot. */
  datatype Effect =
    | Saved(store: StoreView)
    | Logged(entry: Entry)
    | Called(call: AdapterCall, rpcs: seq<Rpc>)
    | Snapshotted(snapshot: Snapshot)

  datatype Error =
    | SubmissionRejected | RecipientRejected | ApprovalRejected | StateError
    | UnknownIntent | AdapterRaised | ValidationError

  datatype Outcome = Outcome(
    recs: Records, store: StoreView, effects: seq<Effect>, error: Option<Error>)

  function Refused(recs: Records, store: StoreView, e: Error): Outcome {
    Outcome(recs, store, [], Some(e))
  }

  function Log(event: Event, rec: Record): Effect {
    Logged(Entry(event, rec.intent.id, rec.state))
  }

  // ------------------------------------------------------------------
  // Lifecycle calls
  // ------------------------------------------------------------------

  function FreshRecord(intent: Intent): Record {
    Record(intent, Draft, None, None, None, None, None, 0, intent.expiresAt)
  }

  predicate PastDeadline(deadline: int, now: int) { deadline != 0 && now > deadline }

  /** What a call does to the one record it works on. */
  datatype Change = Change(rec: Record, store: StoreView, effects: seq<Effect>, error: Option<Error>)

  function Unchanged(rec: Record, store: StoreView, e: Error): Change {
    Change(rec, store, [], Some(e))
  }

  /** The change put back among the records. */
  function With(recs: Records, id: string, c: Change): Outcome {
    Outcome(recs[id := c.rec], c.store, c.effects, c.error)
  }

  /** A new record, past the expiry and allowlist checks. */
  function Admit(store: StoreView, intent: Intent): Change {
    var rec := FreshRecord(intent);
    var tr := Transition(rec.state, OnSubmit);
    if !tr.ok then Unchanged(rec, store, StateError)
    else
      var rec' := rec.(state := tr.state);
      var store' := store.(intents := store.intents + {intent.id});
      Change(rec', store', [Saved(store'), Log(EvSubmit, rec')], None)
  }

  function Submit(env: Env, recs: Records, store: StoreView, intent: Intent, now: int): Outcome {
    if intent.id in store.intents then Outcome(recs, store, [], None)
    else if PastDeadline(intent.expiresAt, now) then Refused(recs, store, SubmissionRejected)
    else if !env.recipientOk(intent.recipient) then Refused(recs, store, RecipientRejected)
    else With(recs, intent.id, Admit(store, intent))
  }

  function QuoteChange(rec: Record, store: StoreView, quote: Quote, now: int): Change {
    if quote.feeSat > rec.intent.maxFeeSat then Unchanged(rec, store, SubmissionRejected)
    else if now > quote.expiresAt then Unchanged(rec, store, SubmissionRejected)
    else
      // The quote is stored before the transition is checked.
      var quoted := rec.(quote := Some(quote), quoteExpiresAt := quote.expiresAt);
      var tr := Transition(rec.state, OnQuoteReceived);
      if !tr.ok then Change(quoted, store, [], Some(SubmissionRejected))
      else
        var rec' := quoted.(state := tr.state);
        Change(rec', store, [Log(EvQuoteReceived(quote.quoteId), rec')], None)
  }

  function PrepareChange(env: Env, rec: Record, store: StoreView, answer: Answer<PrepareOutcome>, now: int): Change {
    var tr := Transition(rec.state, OnPrepared);
    if rec.state != Quoted || PastDeadline(rec.quoteExpiresAt, now) || !env.railOk(Lightning) || !tr.ok || rec.quote.None?
    then Unchanged(rec, store, StateError)
    else
      var call := Called(CallPrepare(rec.intent.id), answer.rpcs);
      match answer.outcome
      case PrepareAdapterError => Change(rec, store, [call], Some(StateError))
      case PrepareOtherError => Change(rec, store, [call], Some(AdapterRaised))
      case PrepareOk(p) =>
        if p.feeSat > rec.intent.maxFeeSat || !env.railOk(p.rail)
        then Change(rec, store, [call], Some(StateError))
        else
          var rec' := rec.(prepared := Some(p), state := tr.state);
          Change(rec', store, [call, Log(EvPrepared(p.preparedHash), rec')], None)
  }

  function TripleOf(a: Approval): Triple {
    Triple(a.intentId, a.quoteId, a.preparedHash)
  }

  function ApproveChange(rec: Record, store: StoreView, a: Approval): Change {
    if rec.quote.None? then Unchanged(rec, store, StateError)
    else if rec.quote.value.quoteId != a.quoteId then Unchanged(rec, store, ApprovalRejected)
    else if rec.prepared.None? then Unchanged(rec, store, StateError)
    else if rec.prepared.value.preparedHash != a.preparedHash then Unchanged(rec, store, ApprovalRejected)
    else if ApprovalKey(TripleOf(a)) in store.approvals then Unchanged(rec, store, ApprovalRejected)
    else if rec.state != State.Prepared then Unchanged(rec, store, StateError)
    else
      var store' := store.(approvals := store.approvals + {ApprovalKey(TripleOf(a))});
      var tr := Transition(rec.state, OnApproved);
      if !tr.ok then Change(rec.(approval := Some(a)), store', [Saved(store')], Some(StateError))
      else
        var rec' := rec.(approval := Some(a), state := tr.state);
        Change(rec', store', [Saved(store'), Log(EvApproved(a.quoteId, a.preparedHash), rec')], None)
  }

  /** The receipt execute() builds from the adapter's result. */
  function LocalReceipt(rec: Record, settlementRef: string, feeSat: nat, rail: Rail): Receipt {
    Receipt(rec.intent.id, if rec.quote.Some? then rec.quote.value.quoteId else "",
            rec.intent.recipient, settlementRef, rec.intent.amountSat, feeSat, rail)
  }

  function ExecuteChange(rec: Record, store: StoreView, answer: Answer<ExecuteOutcome>): Change {
    var tr := Transition(rec.state, OnExecuting);
    if rec.state != Approved || rec.prepared.None? || !tr.ok then Unchanged(rec, store, StateError)
    else
      var going := rec.(state := tr.state);
      var begun := Log(EvExecuting, going);
      var call := Called(CallExecute(rec.intent.id, rec.prepared.value), answer.rpcs);
      match answer.outcome
      case ExecuteAmbiguous =>
        var rec' := going.(state := ReconciliationRequired);
        Change(rec', store, [begun, call, Log(EvAdapterAmbiguous, rec')], Some(StateError))
      case ExecuteAdapterError =>
        var rec' := going.(state := ReconciliationRequired);
        Change(rec', store, [begun, call, Log(EvAdapterError, rec')], Some(StateError))
      case ExecuteOtherError =>
        Change(going, store, [begun, call], Some(AdapterRaised))
      case ExecuteOk(settlementRef, amountSat, feeSat, rail) =>
        // A negative fee fails PaymentReceipt validation before anything is recorded.
        if feeSat < 0 then Change(going, store, [begun, call], Some(ValidationError))
        else
          var receipt := LocalReceipt(rec, settlementRef, feeSat, rail);
          var store' := store.(receipts := store.receipts[rec.intent.id := settlementRef]);
          var held := going.(receipt := Some(receipt));
          var final := Transition(held.state, OnSettled);
          if !final.ok then Change(held, store', [begun, call, Saved(store')], Some(StateError))
          else
            var rec' := held.(state := final.state);
            Change(rec', store', [begun, call, Saved(store'), Log(EvSettled(settlementRef), rec')], None)
  }

  function ReceiptChange(rec: Record, store: StoreView, receipt: Receipt, answer: Answer<VerifyOutcome>): Change {
    if rec.state != Executing && rec.state != ReconciliationRequired then Unchanged(rec, store, StateError)
    else if receipt.intentId in store.receipts then Unchanged(rec, store, StateError)
    else if receipt.amountSat != rec.intent.amountSat then
      Change(rec, store, [Log(EvReceiptMismatch, rec)], Some(StateError))
    else if rec.quote.None? || rec.quote.value.quoteId != receipt.quoteId then Unchanged(rec, store, StateError)
    else
      var call := Called(CallVerify(receipt.settlementRef), answer.rpcs);
      match answer.outcome
      case VerifyRaised => Change(rec, store, [call], Some(AdapterRaised))
      case VerifyOk(v) =>
        var tr := Transition(rec.state, OnReceiptReceived);
        if !v.verified then Change(rec, store, [call, Log(EvVerificationFailed, rec)], Some(StateError))
        else if !tr.ok then Change(rec, store, [call], Some(StateError))
        else
          var store' := store.(receipts := store.receipts[receipt.intentId := receipt.settlementRef]);
          var rec' := rec.(receipt := Some(receipt), state := tr.state);
          Change(rec', store', [call, Saved(store'), Log(EvReceiptConfirmed(receipt.settlementRef), rec')], None)
  }

  function ManualMarker(id: string): string { "manual:" + id }

  function ConfirmChange(rec: Record, store: StoreView, id: string): Change {
    var tr := Transition(rec.state, OnConfirmSettled);
    if !tr.ok then Unchanged(rec, store, StateError)
    else
      var store' := store.(receipts := store.receipts[id := ManualMarker(id)]);
      var rec' := rec.(state := tr.state);
      Change(rec', store', [Saved(store'), Log(EvConfirmSettled, rec')], None)
  }

  /** An adapter failure during reconciliation reads as UNKNOWN. */
  function Evidence(o: ReconcileOutcome): ReconcileResult {
    match o
    case ReconcileOk(r) => r
    case ReconcileRaised => ReconcileResult(UNKNOWN, "", 0, 0, None, false)
  }

  function ReconcileChange(rec: Record, store: StoreView, answer: Answer<ReconcileOutcome>): Change {
    if rec.state != ReconciliationRequired then Unchanged(rec, store, StateError)
    else if rec.prepared.None? then Unchanged(rec, store, StateError)
    else
      var rec' := rec.(reconciliation := Some(Evidence(answer.outcome)));
      Change(rec', store,
             [Called(CallReconcile(rec.intent.id), answer.rpcs),
              Log(EvReconciled(Evidence(answer.outcome).status), rec')], None)
  }

  /** cancel and reject: one trigger, one audit event. */
  function MoveChange(rec: Record, store: StoreView, trigger: Trigger, event: Event): Change {
    var tr := Transition(rec.state, trigger);
    if !tr.ok then Unchanged(rec, store, StateError)
    else
      var rec' := rec.(state := tr.state);
      Change(rec', store, [Log(event, rec')], None)
  }

  // ------------------------------------------------------------------
  // The expiry sweep
  // ------------------------------------------------------------------

  predicate Overdue(recs: Records, id: string, only: Option<set<string>>, now: int) {
    && id in recs
    && (only.Some? ==> id in only.value)
    && recs[id].state == Executing
    && PastDeadline(recs[id].expiresAt, now)
  }

  /** The overdue intents, in the order the records are walked. */
  function OverdueIn(recs: Records, order: seq<string>, only: Option<set<string>>, now: int): seq<string> {
    if order == [] then []
    else
      var rest := OverdueIn(recs, order[..|order| - 1], only, now);
      var id := order[|order| - 1];
      if Overdue(recs, id, only, now) then rest + [id] else rest
  }

  /** Move one intent out of EXECUTING, auditing the move. */
  function ExpireOne(recs: Records, id: string): (Records, seq<Effect>) {
    if id !in recs || !Transition(recs[id].state, OnExpired).ok then (recs, [])
    else
      var rec' := recs[id].(state := Transition(recs[id].state, OnExpired).state);
      (recs[id := rec'], [Logged(Entry(EvExpiredDuringExecution, id, rec'.state))])
  }

  function ExpireAll(recs: Records, ids: seq<string>): (Records, seq<Effect>) {
    if ids == [] then (recs, [])
    else
      var (recs1, effects1) := ExpireAll(recs, ids[..|ids| - 1]);
      var (recs2, effects2) := ExpireOne(recs1, ids[|ids| - 1]);
      (recs2, effects1 + effects2)
  }

  function CheckExpired(recs: Records, store: StoreView, order: seq<string>,
                        only: Option<set<string>>, now: int): Outcome
  {
    var overdue := OverdueIn(recs, order, only, now);
    if overdue == [] then Outcome(recs, store, [], None)
    else
      var (recs', effects) := ExpireAll(recs, overdue);
      Outcome(recs', store, effects, Some(StateError))
  }

  // ------------------------------------------------------------------
  // One command
  // ------------------------------------------------------------------

  datatype Command =
    | CmdSubmit(intent: Intent, now: int)
    | CmdReceiveQuote(quote: Quote, now: int)
    | CmdPrepare(pick: string, prepareAnswer: Answer<PrepareOutcome>, now: int)
    | CmdApprove(approval: Approval)
    | CmdExecute(pick: string, executeAnswer: Answer<ExecuteOutcome>)
    | CmdReceiveReceipt(receipt: Receipt, verifyAnswer: Answer<VerifyOutcome>)
    | CmdConfirmSettled(id: string)
    | CmdReconcile(id: string, reconcileAnswer: Answer<ReconcileOutcome>)
    | CmdCancel(id: string)
    | CmdReject(id: string)
    | CmdCheckExpired(order: seq<string>, only: Option<set<string>>, now: int)
    | CmdStatus   // any handler that leaves the engine alone

  /** `pick` is the record _find_by_state returned; a pick in another state
      stands for finding none. */
  function Perform(env: Env, recs: Records, store: StoreView, cmd: Command): Outcome {
    match cmd
    case CmdSubmit(i, now) => Submit(env, recs, store, i, now)
    case CmdReceiveQuote(q, now) =>
      if q.intentId !in recs then Refused(recs, store, UnknownIntent)
      else With(recs, q.intentId, QuoteChange(recs[q.intentId], store, q, now))
    case CmdPrepare(pick, a, now) =>
      if pick !in recs then Refused(recs, store, StateError)
      else With(recs, pick, PrepareChange(env, recs[pick], store, a, now))
    case CmdApprove(a) =>
      if a.intentId !in recs then Refused(recs, store, UnknownIntent)
      else With(recs, a.intentId, ApproveChange(recs[a.intentId], store, a))
    case CmdExecute(pick, a) =>
      if pick !in recs then Refused(recs, store, StateError)
      else With(recs, pick, ExecuteChange(recs[pick], store, a))
    case CmdReceiveReceipt(receipt, a) =>
      if receipt.intentId !in recs then Refused(recs, store, UnknownIntent)
      else With(recs, receipt.intentId, ReceiptChange(recs[receipt.intentId], store, receipt, a))
    case CmdConfirmSettled(id) =>
      if id !in recs then Refused(recs, store, UnknownIntent)
      else With(recs, id, ConfirmChange(recs[id], store, id))
    case CmdReconcile(id, a) =>
      if id !in recs then Refused(recs, store, UnknownIntent)
      else With(recs, id, ReconcileChange(recs[id], store, a))
    case CmdCancel(id) =>
      if id !in recs then Refused(recs, store, UnknownIntent)
      else With(recs, id, MoveChange(recs[id], store, OnCancel, EvCancelled))
    case CmdReject(id) =>
      if id !in recs then Refused(recs, store, UnknownIntent)
      else With(recs, id, MoveChange(recs[id], store, OnRejected, EvRejected))
    case CmdCheckExpired(order, only, now) => CheckExpired(recs, store, order, only, now)
    case CmdStatus => Outcome(recs, store, [], None)
  }

  // ------------------------------------------------------------------
  // Snapshot and restart recovery
  // ------------------------------------------------------------------

  function Encode(r: Record): SavedRecord {
    SavedRecord(r.intent, r.state, r.quote, r.prepared, r.approval, r.receipt, r.reconciliation)
  }

  function Decode(s: SavedRecord): Record {
    Record(s.intent, s.state, s.quote, s.prepared, s.approval, s.receipt, s.reconciliation,
           if s.quote.Some? then s.quote.value.expiresAt else 0, s.intent.expiresAt)
  }

  function EncodeAll(recs: Records): map<string, SavedRecord> {
    map id | id in recs :: Encode(recs[id])
  }

  function DecodeAll(saved: map<string, SavedRecord>): Records {
    map id | id in saved :: Decode(saved[id])
  }

  type Answers = map<string, Answer<ReconcileOutcome>>

  function AnswerFor(answers: Answers, id: string): Answer<ReconcileOutcome> {
    if id in answers then answers[id] else Answer([], ReconcileRaised)
  }

  /** _maybe_recover over the saved records in file order: each record replaces
      the live one; EXECUTING becomes RECONCILIATION_REQUIRED; each record that
      needs reconciliation is queried. Stops at the first exception. */
  function RecoverRecords(recs: Records, store: StoreView, saved: map<string, SavedRecord>,
                          order: seq<string>, answers: Answers): Outcome
    requires forall id :: id in order ==> id in saved
  {
    if order == [] then Outcome(recs, store, [], None)
    else
      var before := RecoverRecords(recs, store, saved, order[..|order| - 1], answers);
      if before.error.Some? then before
      else
        var id := order[|order| - 1];
        var c := RecoverChange(id, saved[id], store, AnswerFor(answers, id));
        Outcome(before.recs[id := c.rec], store, before.effects + c.effects, c.error)
  }

  /** One saved record back in memory. */
  function RecoverChange(id: string, saved: SavedRecord, store: StoreView, answer: Answer<ReconcileOutcome>): Change {
    var rec := Decode(saved);
    if rec.state == Executing then
      var rec' := rec.(state := ReconciliationRequired);
      var q := ReconcileChange(rec', store, answer);
      q.(effects := [Logged(Entry(EvRecoveredExecuting, id, rec'.state))] + q.effects)
    else if rec.state == ReconciliationRequired then ReconcileChange(rec, store, answer)
    else Change(rec, store, [], None)
  }
}
