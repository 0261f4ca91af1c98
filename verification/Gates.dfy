/** What lets each engine call through, and what an accepted call leaves behind, said
    of the record, the store and the argument themselves. Every call is accepted if
    and only if its gate holds; a refused one is told apart by its error. */
module Gates {
  import opened Wrappers
  import opened StateMachine
  import opened Model
  import opened Store
  import opened Lifecycle
  import opened Committed
  import opened System
  import opened Safety

  /** A deadline that is not set, or not passed. */
  ghost predicate Current(deadline: int, now: int) {
    deadline == 0 || now <= deadline
  }

  /** Only the record of `id` is now `r`, and the store is as it was. */
  ghost predicate Only(o: Outcome, recs: Records, store: StoreView, id: string, r: Record) {
    o.recs == recs[id := r] && o.store == store
  }

  ghost predicate Untouched(o: Outcome, recs: Records, store: StoreView) {
    o.recs == recs && o.store == store
  }

  // ------------------------------------------------------------------
  // Negotiation
  // ------------------------------------------------------------------

  ghost predicate MaySubmit(env: Env, i: Intent, now: int) {
    Current(i.expiresAt, now) && env.recipientOk(i.recipient)
  }

  /** An intent the store knows is accepted without any effect; a new one is taken
      exactly when it is unexpired and its recipient is allowed. */
  lemma SubmitGate(env: Env, recs: Records, store: StoreView, i: Intent, now: int)
    ensures var o := Perform(env, recs, store, CmdSubmit(i, now));
            && (o.error.None? <==> i.id in store.intents || MaySubmit(env, i, now))
            && (o.error == Some(RecipientRejected) <==>
                  i.id !in store.intents && Current(i.expiresAt, now) && !env.recipientOk(i.recipient))
            && (o.error.Some? ==> o.error == Some(RecipientRejected) || o.error == Some(SubmissionRejected))
            && (o.error.Some? || i.id in store.intents ==> Untouched(o, recs, store) && o.effects == [])
            && (o.error.None? && i.id !in store.intents ==>
                  && o.recs == recs[i.id := Record(i, Submitted, None, None, None, None, None, 0, i.expiresAt)]
                  && o.store == StoreView(store.intents + {i.id}, store.approvals, store.receipts)
                  && o.effects == [Saved(o.store), Logged(Entry(EvSubmit, i.id, Submitted))])
  {
  }

  ghost predicate MayQuote(r: Record, q: Quote, now: int) {
    r.state == Submitted && q.feeSat <= r.intent.maxFeeSat && now <= q.expiresAt
  }

  /** A quote is accepted exactly for a SUBMITTED intent, within its fee limit and
      before its own deadline, which has no value that means never. */
  lemma QuoteGate(env: Env, recs: Records, store: StoreView, q: Quote, now: int)
    requires q.intentId in recs
    ensures var r := recs[q.intentId];
            var o := Perform(env, recs, store, CmdReceiveQuote(q, now));
            && (o.error.None? <==> MayQuote(r, q, now))
            && (o.error.Some? ==> o.error == Some(SubmissionRejected) && o.effects == [] && o.store == store)
            && (o.error.None? ==>
                  && Only(o, recs, store, q.intentId, r.(state := Quoted, quote := Some(q), quoteExpiresAt := q.expiresAt))
                  && o.effects == [Logged(Entry(EvQuoteReceived(q.quoteId), r.intent.id, Quoted))])
  {
  }

  /** What lets prepare ask the adapter. */
  ghost predicate MayAskPrepare(env: Env, r: Record, now: int) {
    r.state == Quoted && r.quote.Some? && Current(r.quoteExpiresAt, now) && env.railOk(Lightning)
  }

  ghost predicate MayPrepare(env: Env, r: Record, a: Answer<PrepareOutcome>, now: int) {
    && MayAskPrepare(env, r, now)
    && a.outcome.PrepareOk? && a.outcome.result.feeSat <= r.intent.maxFeeSat && env.railOk(a.outcome.result.rail)
  }

  /** prepare asks the adapter exactly for a QUOTED intent whose quote is current, on
      an allowed rail, and takes its result exactly when the fee is within the limit
      and its rail is allowed too. */
  lemma PrepareGate(env: Env, recs: Records, store: StoreView, id: string, a: Answer<PrepareOutcome>, now: int)
    requires id in recs
    ensures var r := recs[id];
            var o := Perform(env, recs, store, CmdPrepare(id, a, now));
            var call := Called(CallPrepare(r.intent.id), a.rpcs);
            && (o.effects != [] <==> MayAskPrepare(env, r, now))
            && (o.error.None? <==> MayPrepare(env, r, a, now))
            && (o.error == Some(AdapterRaised) <==> MayAskPrepare(env, r, now) && a.outcome.PrepareOtherError?)
            && (o.error.Some? ==>
                  && Untouched(o, recs, store) && (o.error == Some(AdapterRaised) || o.error == Some(StateError))
                  && (o.effects != [] ==> o.effects == [call]))
            && (o.error.None? ==>
                  && Only(o, recs, store, id, r.(state := State.Prepared, prepared := Some(a.outcome.result)))
                  && o.effects == [call, Logged(Entry(EvPrepared(a.outcome.result.preparedHash), r.intent.id, State.Prepared))])
  {
    assert recs[id := recs[id]] == recs;
  }

  // ------------------------------------------------------------------
  // Approval
  // ------------------------------------------------------------------

  /** The triple of an approval, as the store keeps it. */
  ghost predicate Used(store: StoreView, a: Approval) {
    ApprovalKey(Triple(a.intentId, a.quoteId, a.preparedHash)) in store.approvals
  }

  ghost predicate MayApprove(r: Record, store: StoreView, a: Approval) {
    && r.state == State.Prepared
    && r.quote.Some? && r.quote.value.quoteId == a.quoteId
    && r.prepared.Some? && r.prepared.value.preparedHash == a.preparedHash
    && !Used(store, a)
  }

  /** An approval is accepted exactly for a PREPARED intent, naming the quote and the
      hash it holds, and the first time. It is rejected as such, not for the state,
      exactly when it names another quote, another hash, or a used triple. */
  lemma ApproveGate(env: Env, recs: Records, store: StoreView, a: Approval)
    requires a.intentId in recs
    ensures var r := recs[a.intentId];
            var o := Perform(env, recs, store, CmdApprove(a));
            && (o.error.None? <==> MayApprove(r, store, a))
            && (o.error == Some(ApprovalRejected) <==>
                  && r.quote.Some?
                  && (r.quote.value.quoteId == a.quoteId ==>
                        r.prepared.Some? && (r.prepared.value.preparedHash == a.preparedHash ==> Used(store, a))))
            && (o.error.Some? ==>
                  && Untouched(o, recs, store) && o.effects == []
                  && (o.error == Some(ApprovalRejected) || o.error == Some(StateError)))
            && (o.error.None? ==>
                  && o.recs == recs[a.intentId := r.(state := Approved, approval := Some(a))]
                  && o.store == StoreView(store.intents,
                                          store.approvals + {ApprovalKey(Triple(a.intentId, a.quoteId, a.preparedHash))},
                                          store.receipts)
                  && o.effects == [Saved(o.store), Logged(Entry(EvApproved(a.quoteId, a.preparedHash), r.intent.id, Approved))])
  {
    assert recs[a.intentId := recs[a.intentId]] == recs;
  }

  // ------------------------------------------------------------------
  // Execution and settlement
  // ------------------------------------------------------------------

  ghost predicate MayExecute(r: Record) {
    r.state == Approved && r.prepared.Some?
  }

  ghost predicate Succeeds(a: Answer<ExecuteOutcome>) {
    a.outcome.ExecuteOk? && a.outcome.feeSat >= 0
  }

  /** execute dispatches exactly an APPROVED intent, once and with the payload it
      holds, and settles it exactly on success with a fee that is not negative; an
      ambiguous answer or an AdapterError leaves it in reconciliation, anything else
      in EXECUTING. */
  lemma ExecuteGate(env: Env, recs: Records, store: StoreView, id: string, a: Answer<ExecuteOutcome>)
    requires id in recs
    ensures var r := recs[id];
            var o := Perform(env, recs, store, CmdExecute(id, a));
            && (o.error.None? <==> MayExecute(r) && Succeeds(a))
            && (!MayExecute(r) ==> Untouched(o, recs, store) && o.effects == [] && o.error == Some(StateError))
            && (MayExecute(r) ==>
                  && |o.effects| >= 2
                  && o.effects[..2] == [Logged(Entry(EvExecuting, r.intent.id, Executing)),
                                        Called(CallExecute(r.intent.id, r.prepared.value), a.rpcs)]
                  && ExecuteEnds(r, o, recs, store, id, a))
  {
  }

  /** What is left after the adapter has answered. */
  ghost predicate ExecuteEnds(r: Record, o: Outcome, recs: Records, store: StoreView, id: string, a: Answer<ExecuteOutcome>)
    requires |o.effects| >= 2 && id in recs
  {
    match a.outcome
    case ExecuteOk(ref, _, fee, rail) =>
      if fee < 0 then Only(o, recs, store, id, r.(state := Executing)) && o.effects[2..] == [] && o.error == Some(ValidationError)
      else
        && o.recs.Keys == recs.Keys && (forall x :: x in recs && x != id ==> o.recs[x] == recs[x])
        && o.recs[id] == r.(state := Settled, receipt := o.recs[id].receipt)
        && o.recs[id].receipt.Some?
        && var receipt := o.recs[id].receipt.value;
        && receipt.intentId == r.intent.id && receipt.recipient == r.intent.recipient && receipt.settlementRef == ref
        && receipt.amountSat == r.intent.amountSat && receipt.feeSat == fee && receipt.rail == rail
        && (r.quote.Some? ==> receipt.quoteId == r.quote.value.quoteId)
        && o.store == StoreView(store.intents, store.approvals, store.receipts[r.intent.id := ref])
        && o.effects[2..] == [Saved(o.store), Logged(Entry(EvSettled(ref), r.intent.id, Settled))]
    case ExecuteAmbiguous =>
      && Only(o, recs, store, id, r.(state := ReconciliationRequired)) && o.error == Some(StateError)
      && o.effects[2..] == [Logged(Entry(EvAdapterAmbiguous, r.intent.id, ReconciliationRequired))]
    case ExecuteAdapterError =>
      && Only(o, recs, store, id, r.(state := ReconciliationRequired)) && o.error == Some(StateError)
      && o.effects[2..] == [Logged(Entry(EvAdapterError, r.intent.id, ReconciliationRequired))]
    case ExecuteOtherError =>
      Only(o, recs, store, id, r.(state := Executing)) && o.effects[2..] == [] && o.error == Some(AdapterRaised)
  }

  /** What lets a receipt through to the adapter. */
  ghost predicate MayVerify(r: Record, store: StoreView, x: Receipt) {
    && (r.state == Executing || r.state == ReconciliationRequired)
    && x.intentId !in store.receipts
    && x.amountSat == r.intent.amountSat
    && r.quote.Some? && r.quote.value.quoteId == x.quoteId
  }

  ghost predicate Verified(a: Answer<VerifyOutcome>) {
    a.outcome.VerifyOk? && a.outcome.result.verified
  }

  /** A receipt settles exactly an executing or unresolved intent without a stored
      receipt, for its amount and its quote, and only on a verdict that says verified.
      Nothing but an amount that differs and a failed verification is audited
      otherwise, and the state stays. */
  lemma ReceiptGate(env: Env, recs: Records, store: StoreView, x: Receipt, a: Answer<VerifyOutcome>)
    requires x.intentId in recs
    ensures var r := recs[x.intentId];
            var o := Perform(env, recs, store, CmdReceiveReceipt(x, a));
            var call := Called(CallVerify(x.settlementRef), a.rpcs);
            && (o.error.None? <==> MayVerify(r, store, x) && Verified(a))
            && (o.error == Some(AdapterRaised) <==> MayVerify(r, store, x) && a.outcome.VerifyRaised?)
            && (o.error.Some? ==>
                  && Untouched(o, recs, store) && (o.error == Some(AdapterRaised) || o.error == Some(StateError))
                  && o.effects == if MayVerify(r, store, x) then
                                    if a.outcome.VerifyRaised? then [call]
                                    else [call, Logged(Entry(EvVerificationFailed, r.intent.id, r.state))]
                                  else if && (r.state == Executing || r.state == ReconciliationRequired)
                                          && x.intentId !in store.receipts && x.amountSat != r.intent.amountSat
                                       then [Logged(Entry(EvReceiptMismatch, r.intent.id, r.state))]
                                  else [])
            && (o.error.None? ==>
                  && o.recs == recs[x.intentId := r.(state := Settled, receipt := Some(x))]
                  && o.store == StoreView(store.intents, store.approvals, store.receipts[x.intentId := x.settlementRef])
                  && o.effects == [call, Saved(o.store), Logged(Entry(EvReceiptConfirmed(x.settlementRef), r.intent.id, Settled))])
  {
    hide Perform, MayVerify;
    if MayVerify(recs[x.intentId], store, x) && Verified(a) {
      ReceiptTaken(env, recs, store, x, a);
    } else {
      ReceiptRefused(env, recs, store, x, a);
    }
  }

  lemma ReceiptTaken(env: Env, recs: Records, store: StoreView, x: Receipt, a: Answer<VerifyOutcome>)
    requires x.intentId in recs && MayVerify(recs[x.intentId], store, x) && Verified(a)
    ensures var r := recs[x.intentId];
            var o := Perform(env, recs, store, CmdReceiveReceipt(x, a));
            && o.error.None?
            && o.recs == recs[x.intentId := r.(state := Settled, receipt := Some(x))]
            && o.store == StoreView(store.intents, store.approvals, store.receipts[x.intentId := x.settlementRef])
            && o.effects == [Called(CallVerify(x.settlementRef), a.rpcs), Saved(o.store),
                             Logged(Entry(EvReceiptConfirmed(x.settlementRef), r.intent.id, Settled))]
  {
  }

  lemma ReceiptRefused(env: Env, recs: Records, store: StoreView, x: Receipt, a: Answer<VerifyOutcome>)
    requires x.intentId in recs && !(MayVerify(recs[x.intentId], store, x) && Verified(a))
    ensures var r := recs[x.intentId];
            var o := Perform(env, recs, store, CmdReceiveReceipt(x, a));
            var call := Called(CallVerify(x.settlementRef), a.rpcs);
            var mismatch := Logged(Entry(EvReceiptMismatch, r.intent.id, r.state));
            && o.error == Some(if MayVerify(r, store, x) && a.outcome.VerifyRaised? then AdapterRaised else StateError)
            && Untouched(o, recs, store)
            && o.effects == if MayVerify(r, store, x) then
                              if a.outcome.VerifyRaised? then [call]
                              else [call, Logged(Entry(EvVerificationFailed, r.intent.id, r.state))]
                            else if && (r.state == Executing || r.state == ReconciliationRequired)
                                    && x.intentId !in store.receipts && x.amountSat != r.intent.amountSat then [mismatch]
                            else []
  {
    assert recs[x.intentId := recs[x.intentId]] == recs;
  }

  /** The operator settles exactly an intent in reconciliation. */
  lemma ConfirmGate(env: Env, recs: Records, store: StoreView, id: string)
    requires id in recs
    ensures var r := recs[id];
            var o := Perform(env, recs, store, CmdConfirmSettled(id));
            && (o.error.None? <==> r.state == ReconciliationRequired)
            && (o.error.Some? ==> Untouched(o, recs, store) && o.effects == [] && o.error == Some(StateError))
            && (o.error.None? ==>
                  && o.recs == recs[id := r.(state := Settled)]
                  && o.store == StoreView(store.intents, store.approvals, store.receipts[id := "manual:" + id])
                  && o.effects == [Saved(o.store), Logged(Entry(EvConfirmSettled, r.intent.id, Settled))])
  {
    assert recs[id := recs[id]] == recs;
  }

  // ------------------------------------------------------------------
  // Evidence
  // ------------------------------------------------------------------

  /** The record holds what the query returned, or UNKNOWN when it raised. */
  ghost predicate Holds(r: Record, outcome: ReconcileOutcome) {
    && r.reconciliation.Some?
    && match outcome
       case ReconcileOk(found) => r.reconciliation.value == found
       case ReconcileRaised => r.reconciliation.value.status == UNKNOWN && !r.reconciliation.value.verified
  }

  /** Reconciling stores the evidence as it is and moves nothing; it is refused
      exactly outside reconciliation or without a prepared payload. */
  lemma ReconcileGate(env: Env, recs: Records, store: StoreView, id: string, a: Answer<ReconcileOutcome>)
    requires id in recs
    ensures var r := recs[id];
            var o := Perform(env, recs, store, CmdReconcile(id, a));
            && (o.error.None? <==> r.state == ReconciliationRequired && r.prepared.Some?)
            && (o.error.Some? ==> Untouched(o, recs, store) && o.effects == [] && o.error == Some(StateError))
            && (o.error.None? ==>
                  && o.recs.Keys == recs.Keys
                  && Only(o, recs, store, id, r.(reconciliation := o.recs[id].reconciliation))
                  && Holds(o.recs[id], a.outcome)
                  && o.effects == [Called(CallReconcile(r.intent.id), a.rpcs),
                                   Logged(Entry(EvReconciled(o.recs[id].reconciliation.value.status), r.intent.id, r.state))])
  {
    assert recs[id := recs[id]] == recs;
  }

  predicate Unresolved(r: Record) {
    r.state == Executing || r.state == ReconciliationRequired
  }

  /** The same of a start or a recovery round, after any run with any kills: every
      interrupted or unresolved intent is in reconciliation with the evidence of its
      own query, and every other record is as it was. */
  lemma RoundHolds(env: Env, steps: seq<Step>, act: Action)
    requires act.Boot? || (act.Recover? && Exec(env, steps).memory.Some?)
    requires Enumerates(act.order, Exec(env, steps).disk.snapshot.records.Keys)
    ensures var recs, s := Durable(Exec(env, steps).disk), Next(env, Exec(env, steps), Run(act));
            && s.memory.Some? && s.memory.value.recs == Durable(s.disk) && Durable(s.disk).Keys == recs.Keys
            && forall id :: id in recs ==>
                 var n := Durable(s.disk)[id];
                 if Unresolved(recs[id])
                 then n == recs[id].(state := ReconciliationRequired, reconciliation := n.reconciliation)
                      && Holds(n, AnswerFor(act.answers, id).outcome)
                 else n == recs[id]
  {
    hide Inv, LogOk, RecordOk;
    var s := Exec(env, steps);
    AlwaysInv(env, steps);
    RoundIsRecovery(env, steps, act);
    RecoverySound(s, act.order, act.answers, act.Recover?);
    assert forall id :: id in Durable(s.disk) ==>
      var n := Recovered(Durable(s.disk)[id], AnswerFor(act.answers, id).outcome);
      Unresolved(Durable(s.disk)[id]) ==> Holds(n, AnswerFor(act.answers, id).outcome);
  }

  lemma RoundIsRecovery(env: Env, steps: seq<Step>, act: Action)
    requires act.Boot? || (act.Recover? && Exec(env, steps).memory.Some?)
    requires Enumerates(act.order, Exec(env, steps).disk.snapshot.records.Keys)
    ensures var s := Exec(env, steps);
            var b := Reload(if act.Recover? then s.memory.value else FRESH, s.disk, act.order, act.answers, act.Recover?);
            && Behave(env, s, act) == b && Next(env, s, Run(act)).memory == b.memory
            && (b.memory.Some? ==> b.memory.value.recs == Durable(Next(env, s, Run(act)).disk))
  {
    hide RecoverRecords, Reload, LogOk;
    var longer := steps + [Run(act)];
    assert longer[..|steps|] == steps;
    AlwaysInv(env, longer);
  }

  // ------------------------------------------------------------------
  // Leaving, and the expiry sweep
  // ------------------------------------------------------------------

  /** Cancelling works exactly up to PREPARED. */
  lemma CancelGate(env: Env, recs: Records, store: StoreView, id: string)
    requires id in recs
    ensures var r := recs[id];
            var o := Perform(env, recs, store, CmdCancel(id));
            && (o.error.None? <==> r.state == Draft || r.state == Submitted || r.state == Quoted || r.state == State.Prepared)
            && (o.error.Some? ==> Untouched(o, recs, store) && o.effects == [] && o.error == Some(StateError))
            && (o.error.None? ==>
                  && Only(o, recs, store, id, r.(state := Cancelled))
                  && o.effects == [Logged(Entry(EvCancelled, r.intent.id, Cancelled))])
  {
    assert recs[id := recs[id]] == recs;
  }

  /** Rejecting works exactly from SUBMITTED to APPROVED. */
  lemma RejectGate(env: Env, recs: Records, store: StoreView, id: string)
    requires id in recs
    ensures var r := recs[id];
            var o := Perform(env, recs, store, CmdReject(id));
            && (o.error.None? <==> r.state == Submitted || r.state == Quoted || r.state == State.Prepared || r.state == Approved)
            && (o.error.Some? ==> Untouched(o, recs, store) && o.effects == [] && o.error == Some(StateError))
            && (o.error.None? ==>
                  && Only(o, recs, store, id, r.(state := Rejected))
                  && o.effects == [Logged(Entry(EvRejected, r.intent.id, Rejected))])
  {
    assert recs[id := recs[id]] == recs;
  }

  /** An EXECUTING intent past its own deadline, among those asked about. */
  ghost predicate Late(r: Record, id: string, only: Option<set<string>>, now: int) {
    r.state == Executing && !Current(r.intent.expiresAt, now) && (only.Some? ==> id in only.value)
  }

  /** The sweep moves exactly the late intents to reconciliation, audits each of them,
      and raises exactly when there is one. */
  lemma SweepGate(env: Env, recs: Records, store: StoreView, order: seq<string>, only: Option<set<string>>, now: int)
    requires RecordsOk(recs, store) && Enumerates(order, recs.Keys)
    ensures var o := Perform(env, recs, store, CmdCheckExpired(order, only, now));
            && o.store == store && o.recs.Keys == recs.Keys
            && (forall id :: id in recs ==>
                  o.recs[id] == if Late(recs[id], id, only, now) then recs[id].(state := ReconciliationRequired) else recs[id])
            && (o.error.None? <==> forall id :: id in recs ==> !Late(recs[id], id, only, now))
            && (o.error.Some? ==> o.error == Some(StateError))
            && (forall e :: e in o.effects <==> Expiry(e, recs, only, now))
            && (forall i, j :: 0 <= i < j < |o.effects| ==> o.effects[i] != o.effects[j])
  {
    hide RecordsOk, Late, ExpireAll, OverdueIn, Distinct, Expiry;
    assert Distinct(order) by { OrderDistinct(order, recs.Keys); }
    var ids := OverdueIn(recs, order, only, now);
    SweepMovesOverdue(recs, store, order, only, now);
    OverdueIsLate(recs, store, order, only, now);
    OverdueDistinct(recs, order, only, now);
    assert forall id :: id in ids ==> id in recs && recs[id].state == Executing by { OverdueOnly(recs, order, only, now); }
    ExpiryEffects(recs, ids);
    if ids != [] { assert ids[0] in ids; }
    SweepEffects(recs, ids, only, now, Perform(env, recs, store, CmdCheckExpired(order, only, now)).effects);
  }

  lemma SweepEffects(recs: Records, ids: seq<string>, only: Option<set<string>>, now: int, es: seq<Effect>)
    requires Distinct(ids) && forall id :: id in ids <==> id in recs && Late(recs[id], id, only, now)
    requires |es| == |ids| && forall k :: 0 <= k < |ids| ==> es[k] == Logged(Entry(EvExpiredDuringExecution, ids[k], ReconciliationRequired))
    ensures forall e :: e in es <==> Expiry(e, recs, only, now)
    ensures forall i, j :: 0 <= i < j < |es| ==> es[i] != es[j]
  {
    hide Late;
    forall e | e in es ensures Expiry(e, recs, only, now) {
      var k :| 0 <= k < |es| && es[k] == e;
      assert ids[k] in ids;
    }
  }

  lemma OrderDistinct(order: seq<string>, keys: set<string>)
    requires Enumerates(order, keys)
    ensures Distinct(order)
  {
  }

  lemma OverdueIsLate(recs: Records, store: StoreView, order: seq<string>, only: Option<set<string>>, now: int)
    requires RecordsOk(recs, store) && Enumerates(order, recs.Keys)
    ensures forall id :: id in recs ==> (Overdue(recs, id, only, now) <==> Late(recs[id], id, only, now))
    ensures forall id :: id in OverdueIn(recs, order, only, now) <==> id in recs && Late(recs[id], id, only, now)
  {
    OverdueOnly(recs, order, only, now);
    forall id | id in recs ensures Overdue(recs, id, only, now) <==> Late(recs[id], id, only, now) {
      assert RecordOk(id, recs[id], store);
    }
  }

  /** The audit line of one late intent. */
  ghost predicate Expiry(e: Effect, recs: Records, only: Option<set<string>>, now: int) {
    exists id :: id in recs && Late(recs[id], id, only, now)
      && e == Logged(Entry(EvExpiredDuringExecution, id, ReconciliationRequired))
  }

  ghost predicate Distinct(ids: seq<string>) {
    forall i, j :: 0 <= i < j < |ids| ==> ids[i] != ids[j]
  }

  lemma {:induction false} OverdueDistinct(recs: Records, order: seq<string>, only: Option<set<string>>, now: int)
    requires Distinct(order)
    ensures Distinct(OverdueIn(recs, order, only, now))
  {
    if order != [] {
      var front, last := order[..|order| - 1], order[|order| - 1];
      OverdueDistinct(recs, front, only, now);
      OverdueOnly(recs, front, only, now);
      assert forall i :: 0 <= i < |front| ==> front[i] == order[i] && front[i] != last;
      assert last !in OverdueIn(recs, front, only, now);
    }
  }

  /** One intent in the sweep: moved and audited if it is EXECUTING. */
  lemma ExpiryLine(recs: Records, id: string)
    requires id in recs && Unresolved(recs[id])
    ensures var (recs', es) := ExpireOne(recs, id);
            && recs' == recs[id := recs[id].(state := ReconciliationRequired)]
            && es == if recs[id].state == Executing then [Logged(Entry(EvExpiredDuringExecution, id, ReconciliationRequired))] else []
  {
  }

  lemma {:induction false} ExpiryEffects(recs: Records, ids: seq<string>)
    requires forall id :: id in ids ==> id in recs && recs[id].state == Executing
    requires Distinct(ids)
    ensures forall id :: id in recs && id !in ids ==> id in ExpireAll(recs, ids).0 && ExpireAll(recs, ids).0[id] == recs[id]
    ensures var es := ExpireAll(recs, ids).1;
            |es| == |ids| && forall k :: 0 <= k < |ids| ==> es[k] == Logged(Entry(EvExpiredDuringExecution, ids[k], ReconciliationRequired))
  {
    hide ExpireOne;
    if ids != [] {
      var front, last := ids[..|ids| - 1], ids[|ids| - 1];
      ExpiryEffects(recs, front);
      assert last !in front;
      ExpiryLine(ExpireAll(recs, front).0, last);
    }
  }
}
