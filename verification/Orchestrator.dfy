/** PaymentOrchestrator: the imperative policy engine, call by call proved to do
    what Lifecycle.Perform says, with its durable effects in that order. */
module Orchestrator {
  import opened Wrappers
  import opened StateMachine
  import opened Model
  import opened Store
  import opened Lifecycle
  import opened Wavelength

  /** What is left of a change once its first `n` effects have happened. */
  ghost function Rest(c: Change, n: nat): Change
    requires n <= |c.effects|
  {
    c.(effects := c.effects[n..])
  }

  /** Past the gates of prepare, the adapter call comes first. */
  lemma PrepareBegins(env: Env, r: Record, store: StoreView, answer: Answer<PrepareOutcome>, now: int)
    requires r.state == Quoted && r.quote.Some? && !PastDeadline(r.quoteExpiresAt, now) && env.railOk(Lightning)
    ensures var c := PrepareChange(env, r, store, answer, now);
            c.effects != [] && c.effects == [Called(CallPrepare(r.intent.id), answer.rpcs)] + c.effects[1..]
  {
  }

  /** Past the gates of execute, the move to EXECUTING is audited, then the adapter
      is called. */
  lemma ExecuteBegins(r: Record, store: StoreView, answer: Answer<ExecuteOutcome>)
    requires r.state == Approved && r.prepared.Some?
    ensures var c := ExecuteChange(r, store, answer);
            && |c.effects| >= 2
            && c.effects == [Log(EvExecuting, r.(state := Executing)), Called(CallExecute(r.intent.id, r.prepared.value), answer.rpcs)]
                            + c.effects[2..]
  {
  }

  lemma PerformsReconcile(env: Env, recs: Records, store: StoreView, id: string)
    ensures forall a :: Perform(env, recs, store, CmdReconcile(id, a)) ==
              if id in recs then With(recs, id, ReconcileChange(recs[id], store, a)) else Refused(recs, store, UnknownIntent)
  {
  }

  lemma PerformsPrepare(env: Env, recs: Records, store: StoreView, now: int)
    ensures forall id, a :: id in recs ==>
              Perform(env, recs, store, CmdPrepare(id, a, now)) == With(recs, id, PrepareChange(env, recs[id], store, a, now))
  {
  }

  lemma PerformsExecute(env: Env, recs: Records, store: StoreView)
    ensures forall id, a :: id in recs ==>
              Perform(env, recs, store, CmdExecute(id, a)) == With(recs, id, ExecuteChange(recs[id], store, a))
  {
  }

  /** The audit entries among the effects, in order. */
  function LoggedIn(es: seq<Effect>): seq<Entry> {
    if es == [] then []
    else LoggedIn(es[..|es| - 1]) + if es[|es| - 1].Logged? then [es[|es| - 1].entry] else []
  }

  lemma {:induction false} LoggedConcat(a: seq<Effect>, b: seq<Effect>)
    ensures LoggedIn(a + b) == LoggedIn(a) + LoggedIn(b)
    decreases |b|
  {
    if b == [] {
      assert a + b == a;
    } else {
      assert (a + b)[..|a + b| - 1] == a + b[..|b| - 1];
      LoggedConcat(a, b[..|b| - 1]);
    }
  }

  /** The daemon calls among the effects, in order. */
  function RpcsIn(es: seq<Effect>): seq<Rpc> {
    if es == [] then []
    else RpcsIn(es[..|es| - 1]) + if es[|es| - 1].Called? then es[|es| - 1].rpcs else []
  }

  class IntentRecord {
    const intent: Intent
    var state: State
    var quote: Option<Quote>
    var prepared: Option<PrepareResult>
    var approval: Option<Approval>
    var receipt: Option<Receipt>
    var reconciliation: Option<ReconcileResult>
    var quoteExpiresAt: int
    var expiresAt: int

    function Value(): Record
      reads this
    {
      Record(intent, state, quote, prepared, approval, receipt, reconciliation, quoteExpiresAt, expiresAt)
    }

    constructor (value: Record)
      ensures Value() == value
    {
      intent, state, quote, prepared := value.intent, value.state, value.quote, value.prepared;
      approval, receipt, reconciliation := value.approval, value.receipt, value.reconciliation;
      quoteExpiresAt, expiresAt := value.quoteExpiresAt, value.expiresAt;
    }
  }

  class PaymentOrchestrator {
    const env: Env
    const adapter: WavelengthAdapter
    const store: IdempotencyStore
    const audit: AuditLog
    var intents: map<string, IntentRecord>
    var order: seq<string>            // insertion order of the keys
    ghost const opening: seq<Entry>   // the audit entries at construction
    ghost const spent: seq<Rpc>       // the daemon calls made before construction
    ghost var trace: seq<Effect>      // durable effects since, in the order they happen

    ghost predicate Tracked()
      reads this
    {
      && (forall id :: id in intents <==> id in order)
      && (forall i, j :: 0 <= i < j < |order| ==> order[i] != order[j])
      && (forall x, y :: x in intents && y in intents && x != y ==> intents[x] != intents[y])
    }

    /** The trace is what really happened: the store file is current, the audit
        file is the opening entries followed by those of the trace, and the
        daemon was called exactly as the trace says. */
    ghost predicate Journalled()
      reads this, store, audit, adapter.executor
    {
      && store.Valid() && audit.Valid() && audit.entries == opening + LoggedIn(trace)
      && adapter.executor.calls == spent + RpcsIn(trace)
    }

    ghost predicate Valid()
      reads this, store, audit, adapter.executor
    {
      Tracked() && Journalled()
    }

    ghost function Recs(): Records
      reads this, intents.Values
    {
      map id | id in intents :: intents[id].Value()
    }

    /** The call had exactly the outcome `o`. */
    twostate predicate Did(new o: Outcome, new err: Option<Error>)
      reads this, store, audit, intents.Values, adapter.executor
    {
      && Valid()
      && Recs() == o.recs && store.View() == o.store && err == o.error
      && trace == old(trace) + o.effects
      && fresh(intents.Values - old(intents.Values))
    }

    constructor (env: Env, adapter: WavelengthAdapter, existing: StoreView, lines: seq<AuditLine>)
      ensures Valid() && Recs() == map[] && intents == map[] && trace == []
      ensures this.env == env && this.adapter == adapter
      ensures store.View() == existing && audit.file == lines
      ensures fresh(store) && fresh(audit)
    {
      this.env, this.adapter := env, adapter;
      intents, order, trace := map[], [], [];
      store := new IdempotencyStore(existing);
      var log := new AuditLog(lines);
      audit := log;
      opening, spent := log.entries, adapter.executor.calls;
    }

    // ----------------------------------------------------------------
    // Helpers
    // ----------------------------------------------------------------

    /** Nothing but the record of `id` changed. */
    twostate lemma OnlyChanged(id: string)
      requires intents == old(intents) && id in intents
      requires forall x :: x in intents && x != id ==> intents[x].Value() == old(intents[x].Value())
      ensures Recs() == old(Recs())[id := intents[id].Value()]
    {
    }

    /** A call that made the change `c` on the record of `id` did exactly that. */
    twostate lemma ChangedOne(id: string, new c: Change, new err: Option<Error>)
      requires intents == old(intents) && id in intents && Tracked()
      requires forall x :: x in intents && x != id ==> intents[x].Value() == old(intents[x].Value())
      requires Made(intents[id], c, err)
      ensures Did(With(old(Recs()), id, c), err)
    {
      OnlyChanged(id);
    }

    twostate lemma OnlyAdded(id: string, new rec: IntentRecord)
      requires intents == old(intents)[id := rec]
      requires forall x :: x in intents && x != id ==> intents[x].Value() == old(intents[x].Value())
      ensures Recs() == old(Recs())[id := rec.Value()]
    {
    }

    /** Append to the audit file. */
    method NoteEntry(e: Entry)
      requires Journalled()
      modifies audit, this`trace
      ensures Journalled() && trace == old(trace) + [Logged(e)]
    {
      audit.Append(e);
      trace := trace + [Logged(e)];
    }

    method Note(event: Event, rec: IntentRecord)
      requires Journalled()
      modifies audit, this`trace
      ensures Journalled() && trace == old(trace) + [Log(event, rec.Value())]
    {
      NoteEntry(Entry(event, rec.intent.id, rec.state));
    }

    /** Record an effect on something other than the audit file. */
    ghost method Keep(e: Effect)
      requires store.Valid() && audit.Valid() && audit.entries == opening + LoggedIn(trace) && !e.Logged?
      requires adapter.executor.calls == spent + RpcsIn(trace) + if e.Called? then e.rpcs else []
      modifies this`trace
      ensures Journalled() && trace == old(trace) + [e]
    {
      trace := trace + [e];
    }

    // The four adapter calls, each recorded with the daemon calls it made.

    method CallAdapterPrepare(id: string, instruction: Instruction, amountSat: int, maxFeeSat: nat, wall: int)
      returns (o: PrepareOutcome)
      requires Journalled()
      modifies this`trace, adapter.executor
      ensures var a := PrepareAnswer(adapter.env, instruction, amountSat, maxFeeSat, wall, old(adapter.executor.Upcoming()));
              o == a.outcome && trace == old(trace) + [Called(CallPrepare(id), a.rpcs)] && Journalled()
    {
      ghost var reply := adapter.executor.Upcoming();
      o := adapter.Prepare(instruction, amountSat, maxFeeSat, wall);
      Keep(Called(CallPrepare(id), PrepareAnswer(adapter.env, instruction, amountSat, maxFeeSat, wall, reply).rpcs));
    }

    method CallAdapterExecute(id: string, prepared: PrepareResult, wall: int) returns (o: ExecuteOutcome)
      requires Journalled()
      modifies this`trace, adapter.executor
      ensures var a := ExecuteAnswer(adapter.env, prepared.payload, prepared.preparedHash, wall, old(adapter.executor.Upcoming()));
              o == a.outcome && trace == old(trace) + [Called(CallExecute(id, prepared), a.rpcs)] && Journalled()
    {
      ghost var reply := adapter.executor.Upcoming();
      o := adapter.Execute(prepared.payload, prepared.preparedHash, wall);
      Keep(Called(CallExecute(id, prepared), ExecuteAnswer(adapter.env, prepared.payload, prepared.preparedHash, wall, reply).rpcs));
    }

    method CallAdapterReconcile(id: string, prepared: PrepareResult, expected: int) returns (o: ReconcileOutcome)
      requires Journalled()
      modifies this`trace, adapter.executor
      ensures var a := ReconcileAnswer(adapter.env, prepared.payload, prepared.preparedHash, expected, old(adapter.executor.Upcoming()));
              o == a.outcome && trace == old(trace) + [Called(CallReconcile(id), a.rpcs)] && Journalled()
    {
      ghost var reply := adapter.executor.Upcoming();
      o := adapter.ReconcileSettlement(prepared.payload, prepared.preparedHash, expected);
      Keep(Called(CallReconcile(id), ReconcileAnswer(adapter.env, prepared.payload, prepared.preparedHash, expected, reply).rpcs));
    }

    method CallAdapterVerify(settlementRef: string, expected: int) returns (o: VerifyOutcome)
      requires Journalled()
      modifies this`trace, adapter.executor
      ensures var a := VerifyAnswer(adapter.env, settlementRef, expected, SendKind, old(adapter.executor.Upcoming()));
              o == a.outcome && trace == old(trace) + [Called(CallVerify(settlementRef), a.rpcs)] && Journalled()
    {
      ghost var reply := adapter.executor.Upcoming();
      o := adapter.VerifyActivity(settlementRef, expected, SendKind);
      Keep(Called(CallVerify(settlementRef), VerifyAnswer(adapter.env, settlementRef, expected, SendKind, reply).rpcs));
    }

    /** `id` is the first tracked intent in state `s`. */
    ghost predicate FirstIn(s: State, id: string)
      reads this, intents.Values
    {
      exists k :: 0 <= k < |order| && order[k] == id && id in intents && intents[id].state == s
        && forall j :: 0 <= j < k ==> order[j] in intents && intents[order[j]].state != s
    }

    /** _find_by_state: the first tracked intent in that state. */
    method FindByState(s: State) returns (found: Option<string>)
      requires Valid()
      ensures found.Some? ==> found.value in intents && intents[found.value].state == s
      ensures found.None? ==> forall id :: id in intents ==> intents[id].state != s
      ensures found.Some? ==> FirstIn(s, found.value)
    {
      for i := 0 to |order|
        invariant forall j :: 0 <= j < i ==> intents[order[j]].state != s
      {
        if intents[order[i]].state == s { return Some(order[i]); }
      }
      found := None;
    }

    // ----------------------------------------------------------------
    // What each call does to its record
    // ----------------------------------------------------------------

    /** The call on `rec` made the change `c`. */
    twostate predicate Made(rec: IntentRecord, new c: Change, new err: Option<Error>)
      reads this, rec, store, audit, adapter.executor
    {
      && rec.Value() == c.rec && store.View() == c.store && err == c.error
      && trace == old(trace) + c.effects && Journalled()
    }

    method QuoteOn(rec: IntentRecord, quote: Quote, now: int) returns (err: Option<Error>)
      requires Journalled()
      modifies rec, audit, this`trace
      ensures Made(rec, QuoteChange(old(rec.Value()), old(store.View()), quote, now), err)
    {
      if quote.feeSat > rec.intent.maxFeeSat { return Some(SubmissionRejected); }
      if now > quote.expiresAt { return Some(SubmissionRejected); }
      rec.quote, rec.quoteExpiresAt := Some(quote), quote.expiresAt;
      var tr := Transition(rec.state, OnQuoteReceived);
      if !tr.ok { return Some(SubmissionRejected); }
      rec.state := tr.state;
      Note(EvQuoteReceived(quote.quoteId), rec);
      err := None;
    }

    method PrepareOn(rec: IntentRecord, now: int, wall: int) returns (ghost answer: Answer<PrepareOutcome>, err: Option<Error>)
      requires Journalled() && rec.state == Quoted
      modifies rec, audit, this`trace, adapter.executor
      ensures old(rec.quote).Some? ==> answer == PrepareAnswer(adapter.env, old(rec.quote).value.instruction,
                rec.intent.amountSat, rec.intent.maxFeeSat, wall, old(adapter.executor.Upcoming()))
      ensures Made(rec, PrepareChange(env, old(rec.Value()), old(store.View()), answer, now), err)
    {
      answer := Answer([], PrepareAdapterError);
      if rec.quote.Some? {
        answer := PrepareAnswer(adapter.env, rec.quote.value.instruction,
                                rec.intent.amountSat, rec.intent.maxFeeSat, wall, adapter.executor.Upcoming());
      }
      if PastDeadline(rec.quoteExpiresAt, now) { return answer, Some(StateError); }
      if !env.railOk(Lightning) { return answer, Some(StateError); }
      var tr := Transition(rec.state, OnPrepared);
      if !tr.ok || rec.quote.None? { return answer, Some(StateError); }
      var o := CallAdapterPrepare(rec.intent.id, rec.quote.value.instruction, rec.intent.amountSat, rec.intent.maxFeeSat, wall);
      PrepareBegins(env, rec.Value(), store.View(), answer, now);
      err := AdoptOn(rec, o, tr.state, answer, now);
    }

    /** Past the adapter: the fee and rail gates, then PREPARED. */
    method AdoptOn(rec: IntentRecord, o: PrepareOutcome, next: State, ghost answer: Answer<PrepareOutcome>, ghost now: int)
      returns (err: Option<Error>)
      requires Journalled() && o == answer.outcome && next == State.Prepared
      requires rec.state == Quoted && rec.quote.Some? && !PastDeadline(rec.quoteExpiresAt, now) && env.railOk(Lightning)
      modifies rec, audit, this`trace
      ensures Made(rec, Rest(PrepareChange(env, old(rec.Value()), old(store.View()), answer, now), 1), err)
    {
      hide LoggedIn, RpcsIn;
      if o.PrepareAdapterError? { return Some(StateError); }
      if o.PrepareOtherError? { return Some(AdapterRaised); }
      var prep := o.result;
      if prep.feeSat > rec.intent.maxFeeSat { return Some(StateError); }
      if !env.railOk(prep.rail) { return Some(StateError); }
      rec.prepared, rec.state := Some(prep), next;
      Note(EvPrepared(prep.preparedHash), rec);
      err := None;
    }

    method ApproveOn(rec: IntentRecord, a: Approval) returns (err: Option<Error>)
      requires Journalled()
      modifies rec, store, audit, this`trace
      ensures Made(rec, ApproveChange(old(rec.Value()), old(store.View()), a), err)
    {
      if rec.quote.None? { return Some(StateError); }
      if rec.quote.value.quoteId != a.quoteId { return Some(ApprovalRejected); }
      if rec.prepared.None? { return Some(StateError); }
      if rec.prepared.value.preparedHash != a.preparedHash { return Some(ApprovalRejected); }
      if store.HasApproval(TripleOf(a)) { return Some(ApprovalRejected); }
      if rec.state != State.Prepared { return Some(StateError); }
      store.RecordApproval(TripleOf(a));
      Keep(Saved(store.View()));
      rec.approval := Some(a);
      var tr := Transition(rec.state, OnApproved);
      if !tr.ok { return Some(StateError); }
      rec.state := tr.state;
      Note(EvApproved(a.quoteId, a.preparedHash), rec);
      err := None;
    }

    method ExecuteOn(rec: IntentRecord, wall: int) returns (ghost answer: Answer<ExecuteOutcome>, err: Option<Error>)
      requires Journalled() && rec.state == Approved
      modifies rec, store, audit, this`trace, adapter.executor
      ensures old(rec.prepared).Some? ==> answer == ExecuteAnswer(adapter.env, old(rec.prepared).value.payload,
                old(rec.prepared).value.preparedHash, wall, old(adapter.executor.Upcoming()))
      ensures Made(rec, ExecuteChange(old(rec.Value()), old(store.View()), answer), err)
    {
      hide ExecuteAnswer, LoggedIn, RpcsIn;
      answer := Answer([], ExecuteOtherError);
      if rec.prepared.None? { return answer, Some(StateError); }
      var prepared := rec.prepared.value;
      answer := ExecuteAnswer(adapter.env, prepared.payload, prepared.preparedHash, wall, adapter.executor.Upcoming());
      ExecuteBegins(rec.Value(), store.View(), answer);
      ghost var approved := rec.Value();
      var o := DispatchOn(rec, prepared, wall, answer);
      err := ConcludeOn(rec, o, approved, answer);
    }

    /** Move to EXECUTING, audit it, and only then call the adapter. */
    method DispatchOn(rec: IntentRecord, prepared: PrepareResult, wall: int, ghost answer: Answer<ExecuteOutcome>)
      returns (o: ExecuteOutcome)
      requires Journalled() && rec.state == Approved
      requires answer == ExecuteAnswer(adapter.env, prepared.payload, prepared.preparedHash, wall, adapter.executor.Upcoming())
      modifies rec, audit, this`trace, adapter.executor
      ensures Journalled() && rec.Value() == old(rec.Value()).(state := Executing) && o == answer.outcome
      ensures trace == old(trace) + [Log(EvExecuting, rec.Value()), Called(CallExecute(rec.intent.id, prepared), answer.rpcs)]
    {
      rec.state := Transition(rec.state, OnExecuting).state;
      Note(EvExecuting, rec);
      o := CallAdapterExecute(rec.intent.id, prepared, wall);
    }

    /** What execute does once the adapter has answered. */
    method ConcludeOn(rec: IntentRecord, o: ExecuteOutcome, ghost approved: Record, ghost answer: Answer<ExecuteOutcome>)
      returns (err: Option<Error>)
      requires Journalled() && o == answer.outcome
      requires approved.state == Approved && approved.prepared.Some? && rec.Value() == approved.(state := Executing)
      modifies rec, store, audit, this`trace
      ensures Made(rec, Rest(ExecuteChange(approved, old(store.View()), answer), 2), err)
    {
      hide LoggedIn, RpcsIn;
      if o.ExecuteAmbiguous? {
        rec.state := ReconciliationRequired;
        Note(EvAdapterAmbiguous, rec);
        return Some(StateError);
      }
      if o.ExecuteAdapterError? {
        rec.state := ReconciliationRequired;
        Note(EvAdapterError, rec);
        return Some(StateError);
      }
      if o.ExecuteOtherError? { return Some(AdapterRaised); }
      if o.feeSat < 0 { return Some(ValidationError); }
      var receipt := LocalReceipt(rec.Value(), o.settlementRef, o.feeSat, o.rail);
      // The transition out of EXECUTING is never refused.
      BindReceipt(rec, receipt, Transition(rec.state, OnSettled).state, EvSettled(o.settlementRef));
      err := None;
    }

    method ReceiptOn(rec: IntentRecord, receipt: Receipt) returns (ghost answer: Answer<VerifyOutcome>, err: Option<Error>)
      requires Journalled()
      modifies rec, store, audit, this`trace, adapter.executor
      ensures answer == VerifyAnswer(adapter.env, receipt.settlementRef, receipt.amountSat, SendKind, old(adapter.executor.Upcoming()))
      ensures Made(rec, ReceiptChange(old(rec.Value()), old(store.View()), receipt, answer), err)
    {
      answer := VerifyAnswer(adapter.env, receipt.settlementRef, receipt.amountSat, SendKind, adapter.executor.Upcoming());
      if rec.state != Executing && rec.state != ReconciliationRequired { return answer, Some(StateError); }
      if receipt.intentId in store.receipts { return answer, Some(StateError); }
      if receipt.amountSat != rec.intent.amountSat {
        Note(EvReceiptMismatch, rec);
        return answer, Some(StateError);
      }
      if rec.quote.None? || rec.quote.value.quoteId != receipt.quoteId { return answer, Some(StateError); }
      err := VerifyOn(rec, receipt);
    }

    /** Past the gates: verify the sender's activity, then settle. */
    method VerifyOn(rec: IntentRecord, receipt: Receipt) returns (err: Option<Error>)
      requires Journalled()
      requires (rec.state == Executing || rec.state == ReconciliationRequired) && receipt.intentId !in store.receipts
      requires receipt.amountSat == rec.intent.amountSat && rec.quote.Some? && rec.quote.value.quoteId == receipt.quoteId
      modifies rec, store, audit, this`trace, adapter.executor
      ensures var answer := VerifyAnswer(adapter.env, receipt.settlementRef, receipt.amountSat, SendKind, old(adapter.executor.Upcoming()));
              Made(rec, ReceiptChange(old(rec.Value()), old(store.View()), receipt, answer), err)
    {
      hide VerifyAnswer, LoggedIn, RpcsIn;
      ghost var answer := VerifyAnswer(adapter.env, receipt.settlementRef, receipt.amountSat, SendKind, adapter.executor.Upcoming());
      var o := CallAdapterVerify(receipt.settlementRef, receipt.amountSat);
      if o.VerifyRaised? { return Some(AdapterRaised); }
      if !o.result.verified {
        Note(EvVerificationFailed, rec);
        return Some(StateError);
      }
      var tr := Transition(rec.state, OnReceiptReceived);
      if !tr.ok { return Some(StateError); }
      BindReceipt(rec, receipt, tr.state, EvReceiptConfirmed(receipt.settlementRef));
      err := None;
    }

    /** The binding is saved before the record moves. */
    method BindReceipt(rec: IntentRecord, receipt: Receipt, settled: State, event: Event)
      requires Journalled()
      modifies rec, store, audit, this`trace
      ensures Journalled()
      ensures rec.Value() == old(rec.Value()).(receipt := Some(receipt), state := settled)
      ensures store.View() == old(store.View()).(receipts := old(store.receipts)[receipt.intentId := receipt.settlementRef])
      ensures trace == old(trace) + [Saved(store.View()), Log(event, rec.Value())]
    {
      store.RecordReceipt(receipt.intentId, receipt.settlementRef);
      Keep(Saved(store.View()));
      rec.receipt, rec.state := Some(receipt), settled;
      Note(event, rec);
    }

    method ConfirmOn(rec: IntentRecord, id: string) returns (err: Option<Error>)
      requires Journalled()
      modifies rec, store, audit, this`trace
      ensures Made(rec, ConfirmChange(old(rec.Value()), old(store.View()), id), err)
    {
      var tr := Transition(rec.state, OnConfirmSettled);
      if !tr.ok { return Some(StateError); }
      store.RecordReceipt(id, ManualMarker(id));
      Keep(Saved(store.View()));
      rec.state := tr.state;
      Note(EvConfirmSettled, rec);
      err := None;
    }

    method ReconcileOn(rec: IntentRecord) returns (ghost answer: Answer<ReconcileOutcome>, err: Option<Error>)
      requires Journalled()
      modifies rec, audit, this`trace, adapter.executor
      ensures old(rec.prepared).Some? ==> answer == ReconcileAnswer(adapter.env, old(rec.prepared).value.payload,
                old(rec.prepared).value.preparedHash, rec.intent.amountSat, old(adapter.executor.Upcoming()))
      ensures Made(rec, ReconcileChange(old(rec.Value()), old(store.View()), answer), err)
    {
      hide ReconcileAnswer, LoggedIn, RpcsIn;
      answer := Answer([], ReconcileRaised);
      if rec.prepared.Some? {
        answer := ReconcileAnswer(adapter.env, rec.prepared.value.payload, rec.prepared.value.preparedHash,
                                  rec.intent.amountSat, adapter.executor.Upcoming());
      }
      if rec.state != ReconciliationRequired { return answer, Some(StateError); }
      if rec.prepared.None? { return answer, Some(StateError); }
      var prepared := rec.prepared.value;
      var o := CallAdapterReconcile(rec.intent.id, prepared, rec.intent.amountSat);
      var result := Evidence(o);
      rec.reconciliation := Some(result);
      Note(EvReconciled(result.status), rec);
      err := None;
    }

    method MoveOn(rec: IntentRecord, trigger: Trigger, event: Event) returns (err: Option<Error>)
      requires Journalled()
      modifies rec, audit, this`trace
      ensures Made(rec, MoveChange(old(rec.Value()), old(store.View()), trigger, event), err)
    {
      var tr := Transition(rec.state, trigger);
      if !tr.ok { return Some(StateError); }
      rec.state := tr.state;
      Note(event, rec);
      err := None;
    }

    // ----------------------------------------------------------------
    // Lifecycle calls
    // ----------------------------------------------------------------

    /** Put a record under its id; a new id goes to the end of the order. */
    method Track(id: string, rec: IntentRecord)
      requires Valid() && rec !in intents.Values
      modifies this`intents, this`order
      ensures Valid() && intents == old(intents)[id := rec]
      ensures Recs() == old(Recs())[id := rec.Value()]
    {
      if id !in intents { order := order + [id]; }
      intents := intents[id := rec];
      OnlyAdded(id, rec);
    }

    /** Behind the gates of submit: track the record, save, then audit. */
    method AdmitNew(intent: Intent, rec: IntentRecord)
      requires Valid() && rec !in intents.Values && rec.intent == intent && rec.Value() == FreshRecord(intent)
      modifies this, store, audit, rec
      ensures rec.Value() == Admit(old(store.View()), intent).rec && store.View() == Admit(old(store.View()), intent).store
      ensures Valid() && intents == old(intents)[intent.id := rec]
      ensures Recs() == old(Recs())[intent.id := rec.Value()]
      ensures trace == old(trace) + Admit(old(store.View()), intent).effects
    {
      var tr := Transition(rec.state, OnSubmit);
      rec.state := tr.state;
      Track(intent.id, rec);
      store.RecordIntent(intent.id);
      Keep(Saved(store.View()));
      Note(EvSubmit, rec);
      OnlyAdded(intent.id, rec);
    }

    method Submit(intent: Intent, now: int) returns (err: Option<Error>)
      requires Valid()
      modifies this, store, audit, intents.Values
      ensures Did(Perform(env, old(Recs()), old(store.View()), CmdSubmit(intent, now)), err)
    {
      if intent.id in store.intents { return None; }
      var rec := new IntentRecord(FreshRecord(intent));
      if PastDeadline(rec.expiresAt, now) { return Some(SubmissionRejected); }
      if !env.recipientOk(intent.recipient) { return Some(RecipientRejected); }
      AdmitNew(intent, rec);
      err := None;
    }

    method ReceiveQuote(quote: Quote, now: int) returns (err: Option<Error>)
      requires Valid()
      modifies this, audit, intents.Values
      ensures Did(Perform(env, old(Recs()), old(store.View()), CmdReceiveQuote(quote, now)), err)
    {
      hide QuoteChange, LoggedIn, RpcsIn;
      if quote.intentId !in intents { return Some(UnknownIntent); }
      err := QuoteOn(intents[quote.intentId], quote, now);
      OnlyChanged(quote.intentId);
    }

    method Approve(approval: Approval) returns (err: Option<Error>)
      requires Valid()
      modifies this, store, audit, intents.Values
      ensures Did(Perform(env, old(Recs()), old(store.View()), CmdApprove(approval)), err)
    {
      hide ApproveChange, LoggedIn, RpcsIn;
      if approval.intentId !in intents { return Some(UnknownIntent); }
      err := ApproveOn(intents[approval.intentId], approval);
      OnlyChanged(approval.intentId);
    }

    method ConfirmSettled(id: string) returns (err: Option<Error>)
      requires Valid()
      modifies this, store, audit, intents.Values
      ensures Did(Perform(env, old(Recs()), old(store.View()), CmdConfirmSettled(id)), err)
    {
      hide ConfirmChange, LoggedIn, RpcsIn;
      if id !in intents { return Some(UnknownIntent); }
      err := ConfirmOn(intents[id], id);
      OnlyChanged(id);
    }

    method Cancel(id: string) returns (err: Option<Error>)
      requires Valid()
      modifies this, audit, intents.Values
      ensures Did(Perform(env, old(Recs()), old(store.View()), CmdCancel(id)), err)
    {
      hide MoveChange, LoggedIn, RpcsIn;
      if id !in intents { return Some(UnknownIntent); }
      err := MoveOn(intents[id], OnCancel, EvCancelled);
      OnlyChanged(id);
    }

    method Reject(id: string) returns (err: Option<Error>)
      requires Valid()
      modifies this, audit, intents.Values
      ensures Did(Perform(env, old(Recs()), old(store.View()), CmdReject(id)), err)
    {
      hide MoveChange, LoggedIn, RpcsIn;
      if id !in intents { return Some(UnknownIntent); }
      err := MoveOn(intents[id], OnRejected, EvRejected);
      OnlyChanged(id);
    }

    /** `pick` is the intent prepare worked on; the answer is the adapter's. */
    method Prepare(now: int, wall: int) returns (pick: Option<string>, ghost answer: Answer<PrepareOutcome>, err: Option<Error>)
      requires Valid()
      modifies this, audit, intents.Values, adapter.executor
      ensures pick.None? ==>
                && (forall id :: id in old(intents) ==> old(intents[id].state) != Quoted)
                && Did(Outcome(old(Recs()), old(store.View()), [], Some(StateError)), err)
      ensures pick.Some? ==> pick.value in old(intents) && old(intents[pick.value].state) == Quoted && old(FirstIn(Quoted, pick.value))
      ensures pick.Some? && old(intents[pick.value].quote).Some? ==>
                var i := old(intents[pick.value].intent);
                answer == PrepareAnswer(adapter.env, old(intents[pick.value].quote).value.instruction,
                                        i.amountSat, i.maxFeeSat, wall, old(adapter.executor.Upcoming()))
      ensures pick.Some? ==>
                Did(Perform(env, old(Recs()), old(store.View()), CmdPrepare(pick.value, answer, now)), err)
    {
      hide Perform, PrepareChange, PrepareAnswer, LoggedIn, RpcsIn, FirstIn;
      PerformsPrepare(env, Recs(), store.View(), now);
      var found := FindByState(Quoted);
      if found.None? {
        return None, Answer([], PrepareAdapterError), Some(StateError);
      }
      pick := found;
      answer, err := PrepareOn(intents[pick.value], now, wall);
      OnlyChanged(pick.value);
    }

    method ExecutePicked(id: string, wall: int) returns (ghost answer: Answer<ExecuteOutcome>, err: Option<Error>)
      requires Valid() && id in intents && intents[id].state == Approved
      modifies this, store, audit, intents.Values, adapter.executor
      ensures old(intents[id].prepared).Some? ==>
                var p := old(intents[id].prepared).value;
                answer == ExecuteAnswer(adapter.env, p.payload, p.preparedHash, wall, old(adapter.executor.Upcoming()))
      ensures Did(With(old(Recs()), id, ExecuteChange(old(Recs())[id], old(store.View()), answer)), err)
    {
      answer, err := ExecuteOn(intents[id], wall);
      ChangedOne(id, ExecuteChange(old(Recs())[id], old(store.View()), answer), err);
    }

    method Execute(wall: int) returns (pick: Option<string>, ghost answer: Answer<ExecuteOutcome>, err: Option<Error>)
      requires Valid()
      modifies this, store, audit, intents.Values, adapter.executor
      ensures pick.None? ==>
                && (forall id :: id in old(intents) ==> old(intents[id].state) != Approved)
                && Did(Outcome(old(Recs()), old(store.View()), [], Some(StateError)), err)
      ensures pick.Some? ==> pick.value in old(intents) && old(intents[pick.value].state) == Approved && old(FirstIn(Approved, pick.value))
      ensures pick.Some? && old(intents[pick.value].prepared).Some? ==>
                var p := old(intents[pick.value].prepared).value;
                answer == ExecuteAnswer(adapter.env, p.payload, p.preparedHash, wall, old(adapter.executor.Upcoming()))
      ensures pick.Some? ==>
                Did(Perform(env, old(Recs()), old(store.View()), CmdExecute(pick.value, answer)), err)
    {
      hide Perform, ExecuteChange, ExecuteAnswer, LoggedIn, RpcsIn, FirstIn;
      PerformsExecute(env, Recs(), store.View());
      var found := FindByState(Approved);
      if found.None? {
        return None, Answer([], ExecuteOtherError), Some(StateError);
      }
      pick := found;
      answer, err := ExecutePicked(pick.value, wall);
    }

    method ReceiveReceipt(receipt: Receipt) returns (ghost answer: Answer<VerifyOutcome>, err: Option<Error>)
      requires Valid()
      modifies this, store, audit, intents.Values, adapter.executor
      ensures answer == VerifyAnswer(adapter.env, receipt.settlementRef, receipt.amountSat, SendKind, old(adapter.executor.Upcoming()))
      ensures Did(Perform(env, old(Recs()), old(store.View()), CmdReceiveReceipt(receipt, answer)), err)
    {
      answer := VerifyAnswer(adapter.env, receipt.settlementRef, receipt.amountSat, SendKind, adapter.executor.Upcoming());
      if receipt.intentId !in intents { return answer, Some(UnknownIntent); }
      answer, err := ReceiptOn(intents[receipt.intentId], receipt);
      OnlyChanged(receipt.intentId);
    }

    method Reconcile(id: string) returns (ghost answer: Answer<ReconcileOutcome>, err: Option<Error>)
      requires Valid()
      modifies this, audit, intents.Values, adapter.executor
      ensures id in old(intents) && old(intents[id].prepared).Some? ==>
                var p := old(intents[id].prepared).value;
                answer == ReconcileAnswer(adapter.env, p.payload, p.preparedHash, old(intents[id].intent.amountSat),
                                          old(adapter.executor.Upcoming()))
      ensures Did(Perform(env, old(Recs()), old(store.View()), CmdReconcile(id, answer)), err)
    {
      hide Perform, ReconcileChange, ReconcileAnswer, LoggedIn, RpcsIn;
      answer := Answer([], ReconcileRaised);
      PerformsReconcile(env, Recs(), store.View(), id);
      if id !in intents { return answer, Some(UnknownIntent); }
      answer, err := ReconcileOn(intents[id]);
      ChangedOne(id, ReconcileChange(old(Recs())[id], old(store.View()), answer), err);
    }

    /** The overdue intents, in record order. */
    method CollectOverdue(only: Option<set<string>>, now: int) returns (expired: seq<string>)
      requires Valid()
      ensures expired == OverdueIn(Recs(), order, only, now)
      ensures forall id :: id in expired ==> id in intents
    {
      expired := [];
      for i := 0 to |order|
        invariant forall id :: id in expired ==> id in intents
        invariant expired == OverdueIn(Recs(), order[..i], only, now)
      {
        var id := order[i];
        assert order[..i + 1][..i] == order[..i];
        if only.None? || id in only.value {
          var rec := intents[id];
          if rec.state == Executing && PastDeadline(rec.expiresAt, now) { expired := expired + [id]; }
        }
      }
      assert order[..|order|] == order;
    }

    /** One overdue intent out of EXECUTING. */
    method ExpireOn(id: string)
      requires Valid() && id in intents
      modifies this`trace, audit, intents.Values
      ensures Valid()
      ensures Recs() == ExpireOne(old(Recs()), id).0
      ensures trace == old(trace) + ExpireOne(old(Recs()), id).1
    {
      var rec := intents[id];
      var tr := Transition(rec.state, OnExpired);
      if tr.ok {
        rec.state := tr.state;
        NoteEntry(Entry(EvExpiredDuringExecution, id, rec.state));
        OnlyChanged(id);
      }
    }

    method ExpireEach(expired: seq<string>)
      requires Valid() && forall id :: id in expired ==> id in intents
      modifies this`trace, audit, intents.Values
      ensures Valid()
      ensures Recs() == ExpireAll(old(Recs()), expired).0
      ensures trace == old(trace) + ExpireAll(old(Recs()), expired).1
    {
      hide ExpireOne, LoggedIn, RpcsIn;
      ghost var recs, start := Recs(), trace;
      for j := 0 to |expired|
        invariant Valid()
        invariant Recs() == ExpireAll(recs, expired[..j]).0
        invariant trace == start + ExpireAll(recs, expired[..j]).1
      {
        assert expired[..j + 1][..j] == expired[..j];
        assert expired[j] in expired;
        ExpireOn(expired[j]);
      }
      assert expired[..|expired|] == expired;
    }

    method CheckExpired(only: Option<set<string>>, now: int) returns (err: Option<Error>)
      requires Valid()
      modifies this`trace, audit, intents.Values
      ensures Did(Perform(env, old(Recs()), old(store.View()), CmdCheckExpired(order, only, now)), err)
    {
      hide OverdueIn, ExpireAll, LoggedIn, RpcsIn;
      var expired := CollectOverdue(only, now);
      if expired == [] { return None; }
      ExpireEach(expired);
      err := Some(StateError);
    }
  }
}
