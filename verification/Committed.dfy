/** What every command keeps, whether it returns, raises or is cut short. */
module Committed {
  import opened Wrappers
  import opened StateMachine
  import opened Model
  import opened Store
  import opened Lifecycle

  /** States an approved intent can be in. */
  predicate Authorised(s: State) {
    s == Approved || Dispatched(s)
  }

  /** What a tracked record always satisfies. */
  ghost predicate RecordOk(id: string, r: Record, store: StoreView) {
    && r.intent.id == id && id in store.intents
    && r.expiresAt == r.intent.expiresAt
    && r.quoteExpiresAt == (if r.quote.Some? then r.quote.value.expiresAt else 0)
    && (r.quote.Some? ==> r.quote.value.intentId == id && r.quote.value.feeSat <= r.intent.maxFeeSat)
    && r.state != Draft && r.state != Failed && r.state != Expired
    && (r.state == Quoted || r.state == State.Prepared || Authorised(r.state) ==> r.quote.Some?)
    && (r.prepared.Some? ==> r.prepared.value.feeSat <= r.intent.maxFeeSat)
    && (r.state == State.Prepared || Authorised(r.state) ==> r.prepared.Some?)
    && (Authorised(r.state) ==>
          && r.approval.Some? && r.approval.value.intentId == id
          && r.approval.value.preparedHash == r.prepared.value.preparedHash
          && ApprovalKey(TripleOf(r.approval.value)) in store.approvals)
  }

  ghost predicate RecordsOk(recs: Records, store: StoreView) {
    forall id :: id in recs ==> RecordOk(id, recs[id], store)
  }

  /** Identifiers are never taken out of the store. */
  ghost predicate Grows(a: StoreView, b: StoreView) {
    a.intents <= b.intents && a.approvals <= b.approvals && a.receipts.Keys <= b.receipts.Keys
  }

  /** The audit line of an accepted approval. */
  predicate IsApproval(e: Effect) {
    e.Logged? && e.entry.event.EvApproved?
  }

  function ApprovedTriple(e: Effect): Triple
    requires IsApproval(e)
  {
    Triple(e.entry.intentId, e.entry.event.quoteId, e.entry.event.preparedHash)
  }

  predicate IsExecute(e: Effect) {
    e.Called? && e.call.CallExecute?
  }

  // ------------------------------------------------------------------
  // One record
  // ------------------------------------------------------------------

  /** How one call may move one record: an authorised intent keeps its payload
      and approval and stays authorised, unless it is rejected before dispatch;
      a record that becomes authorised was approved by this call. */
  ghost predicate Moves(r: Record, c: Change) {
    && c.rec.intent == r.intent
    && (Authorised(r.state) ==>
          && c.rec.prepared == r.prepared && c.rec.approval == r.approval
          && (Authorised(c.rec.state) || (r.state == Approved && c.rec.state == Rejected)))
    && (Dispatched(r.state) ==> Dispatched(c.rec.state))
    && (r.state == Rejected ==> c.rec.state == Rejected && c.rec.prepared == r.prepared)
    && (Authorised(c.rec.state) && !Authorised(r.state) ==>
          && |c.effects| == 2 && c.rec.approval.Some? && IsApproval(c.effects[1])
          && ApprovedTriple(c.effects[1]) == TripleOf(c.rec.approval.value))
    && (Dispatched(c.rec.state) && !Dispatched(r.state) ==>
          |c.effects| >= 2 && IsExecute(c.effects[1]) && c.effects[1].call.intentId == r.intent.id)
  }

  /** What a call may save. */
  ghost predicate Saves(store: StoreView, c: Change) {
    && Grows(store, c.store)
    && (forall e :: e in c.effects ==> !e.Snapshotted? && (e.Saved? ==> e.store == c.store))
    && (c.store != store ==> Saved(c.store) in c.effects)
  }

  /** Only an APPROVED record is handed to the adapter, with its own payload,
      once, as the second effect, and then it is out of APPROVED. */
  ghost predicate Executes(r: Record, c: Change) {
    forall k :: 0 <= k < |c.effects| && IsExecute(c.effects[k]) ==>
      && k == 1 && r.state == Approved && Dispatched(c.rec.state)
      && c.effects[k].call.intentId == r.intent.id && Some(c.effects[k].call.prepared) == r.prepared
  }

  /** An accepted approval is saved before it is audited, and was not there before. */
  ghost predicate Approves(store: StoreView, c: Change) {
    forall k :: 0 <= k < |c.effects| && IsApproval(c.effects[k]) ==>
      && k == 1 && c.effects[0] == Saved(c.store)
      && ApprovalKey(ApprovedTriple(c.effects[k])) !in store.approvals
      && ApprovalKey(ApprovedTriple(c.effects[k])) in c.store.approvals
  }

  ghost predicate ChangeOk(id: string, r: Record, store: StoreView, c: Change) {
    && RecordOk(id, c.rec, c.store)
    && Moves(r, c)
    && Saves(store, c)
    && Executes(r, c)
    && Approves(store, c)
  }

  lemma QuoteRecordOk(id: string, r: Record, store: StoreView, quote: Quote, now: int)
    requires RecordOk(id, r, store) && quote.intentId == id
    ensures var c := QuoteChange(r, store, quote, now); RecordOk(id, c.rec, c.store) && Moves(r, c)
  {
    hide ApprovalKey;
  }

  lemma QuoteEffectsOk(r: Record, store: StoreView, quote: Quote, now: int)
    ensures var c := QuoteChange(r, store, quote, now); Saves(store, c) && Executes(r, c) && Approves(store, c)
  {
  }

  lemma PrepareOk(env: Env, id: string, r: Record, store: StoreView, answer: Answer<PrepareOutcome>, now: int)
    requires RecordOk(id, r, store)
    ensures ChangeOk(id, r, store, PrepareChange(env, r, store, answer, now))
  {
    hide ApprovalKey;
  }

  lemma ApproveOk(id: string, r: Record, store: StoreView, a: Approval)
    requires RecordOk(id, r, store) && a.intentId == id
    ensures ChangeOk(id, r, store, ApproveChange(r, store, a))
  {
  }

  lemma ExecuteRecordOk(id: string, r: Record, store: StoreView, answer: Answer<ExecuteOutcome>)
    requires RecordOk(id, r, store)
    ensures var c := ExecuteChange(r, store, answer); RecordOk(id, c.rec, c.store) && Moves(r, c)
  {
    hide ApprovalKey;
  }

  lemma ExecuteEffectsOk(id: string, r: Record, store: StoreView, answer: Answer<ExecuteOutcome>)
    requires RecordOk(id, r, store)
    ensures var c := ExecuteChange(r, store, answer); Saves(store, c) && Executes(r, c) && Approves(store, c)
  {
    hide RecordOk, ApprovalKey;
  }

  lemma ReceiptRecordOk(id: string, r: Record, store: StoreView, receipt: Receipt, answer: Answer<VerifyOutcome>)
    requires RecordOk(id, r, store) && receipt.intentId == id
    ensures var c := ReceiptChange(r, store, receipt, answer); RecordOk(id, c.rec, c.store) && Moves(r, c)
  {
    hide ApprovalKey;
  }

  lemma ReceiptEffectsOk(id: string, r: Record, store: StoreView, receipt: Receipt, answer: Answer<VerifyOutcome>)
    requires RecordOk(id, r, store) && receipt.intentId == id
    ensures var c := ReceiptChange(r, store, receipt, answer); Saves(store, c) && Executes(r, c) && Approves(store, c)
  {
    hide RecordOk, ApprovalKey;
  }

  lemma ConfirmOk(id: string, r: Record, store: StoreView)
    requires RecordOk(id, r, store)
    ensures ChangeOk(id, r, store, ConfirmChange(r, store, id))
  {
    hide ApprovalKey;
  }

  lemma ReconcileOk(id: string, r: Record, store: StoreView, answer: Answer<ReconcileOutcome>)
    requires RecordOk(id, r, store)
    ensures ChangeOk(id, r, store, ReconcileChange(r, store, answer))
  {
    hide ApprovalKey;
  }

  lemma MoveOk(id: string, r: Record, store: StoreView, trigger: Trigger, event: Event)
    requires RecordOk(id, r, store)
    requires trigger == OnCancel || trigger == OnRejected
    requires event == EvCancelled || event == EvRejected
    ensures ChangeOk(id, r, store, MoveChange(r, store, trigger, event))
  {
    MoveEffectsOk(r, store, trigger, event);
    hide Saves, Executes, Approves;
  }

  lemma MoveEffectsOk(r: Record, store: StoreView, trigger: Trigger, event: Event)
    requires event == EvCancelled || event == EvRejected
    ensures var c := MoveChange(r, store, trigger, event); Saves(store, c) && Executes(r, c) && Approves(store, c)
  {
  }

  // ------------------------------------------------------------------
  // All records
  // ------------------------------------------------------------------

  /** The record-level part of Moves. */
  ghost predicate Keeps(r: Record, n: Record) {
    && n.intent == r.intent
    && (Authorised(r.state) ==>
          && n.prepared == r.prepared && n.approval == r.approval
          && (Authorised(n.state) || (r.state == Approved && n.state == Rejected)))
    && (Dispatched(r.state) ==> Dispatched(n.state))
    && (r.state == Rejected ==> n.state == Rejected && n.prepared == r.prepared)
  }

  ghost predicate ApprovedIn(es: seq<Effect>, r: Record) {
    r.approval.Some? && exists k :: 0 <= k < |es| && IsApproval(es[k]) && ApprovedTriple(es[k]) == TripleOf(r.approval.value)
  }

  ghost predicate RecordsMove(recs: Records, o: Outcome) {
    && (forall id :: id in recs ==> id in o.recs && Keeps(recs[id], o.recs[id]))
    && (forall id :: id in o.recs && Authorised(o.recs[id].state) ==>
          (id in recs && Authorised(recs[id].state)) || ApprovedIn(o.effects, o.recs[id]))
    && (forall id :: id in o.recs && Dispatched(o.recs[id].state) ==>
          || (id in recs && Dispatched(recs[id].state))
          || (|o.effects| >= 2 && IsExecute(o.effects[1]) && o.effects[1].call.intentId == id))
  }

  ghost predicate OutcomeSaves(store: StoreView, o: Outcome) {
    && Grows(store, o.store)
    && (forall e :: e in o.effects ==> !e.Snapshotted? && (e.Saved? ==> e.store == o.store))
    && (o.store != store ==> Saved(o.store) in o.effects)
  }

  ghost predicate OutcomeExecutes(recs: Records, o: Outcome) {
    forall k :: 0 <= k < |o.effects| && IsExecute(o.effects[k]) ==>
      var call := o.effects[k].call;
      && k == 1 && call.intentId in recs && recs[call.intentId].state == Approved
      && recs[call.intentId].prepared == Some(call.prepared)
      && call.intentId in o.recs && Dispatched(o.recs[call.intentId].state)
  }

  ghost predicate OutcomeApproves(store: StoreView, o: Outcome) {
    forall k :: 0 <= k < |o.effects| && IsApproval(o.effects[k]) ==>
      && k == 1 && o.effects[0] == Saved(o.store)
      && ApprovalKey(ApprovedTriple(o.effects[k])) !in store.approvals
      && ApprovalKey(ApprovedTriple(o.effects[k])) in o.store.approvals
  }

  /** What an action that leads from `recs` and `store` to `o` keeps. */
  ghost predicate OutcomeOk(recs: Records, store: StoreView, o: Outcome) {
    && RecordsOk(o.recs, o.store)
    && RecordsMove(recs, o)
    && OutcomeSaves(store, o)
    && OutcomeExecutes(recs, o)
    && OutcomeApproves(store, o)
  }

  /** Effects that save nothing, dispatch nothing and approve nothing. */
  ghost predicate Quiet(es: seq<Effect>) {
    forall e :: e in es ==> (e.Logged? && !e.entry.event.EvApproved?) || (e.Called? && e.call.CallReconcile?)
  }

  lemma Refuse(recs: Records, store: StoreView, e: Error)
    requires RecordsOk(recs, store)
    ensures OutcomeOk(recs, store, Refused(recs, store, e))
  {
    QuietIsOk(recs, store, Refused(recs, store, e));
  }

  lemma Lift(recs: Records, store: StoreView, id: string, c: Change)
    requires RecordsOk(recs, store)
    requires id in recs && ChangeOk(id, recs[id], store, c)
    ensures OutcomeOk(recs, store, With(recs, id, c))
  {
    var o := With(recs, id, c);
    assert Keeps(recs[id], c.rec);
    assert recs[id].intent.id == id;
    if Authorised(c.rec.state) && !Authorised(recs[id].state) {
      assert IsApproval(o.effects[1]);
      assert ApprovedIn(o.effects, o.recs[id]);
    }
  }

  lemma Add(recs: Records, store: StoreView, id: string, c: Change)
    requires RecordsOk(recs, store) && id !in recs
    requires RecordOk(id, c.rec, c.store) && !Authorised(c.rec.state) && Saves(store, c)
    requires forall k :: 0 <= k < |c.effects| ==> !IsExecute(c.effects[k]) && !IsApproval(c.effects[k])
    ensures OutcomeOk(recs, store, With(recs, id, c))
  {
  }

  lemma AdmitOk(store: StoreView, intent: Intent)
    ensures var c := Admit(store, intent);
            && RecordOk(intent.id, c.rec, c.store) && c.rec.state == Submitted && c.error.None?
            && Saves(store, c) && c.effects == [Saved(c.store), Log(EvSubmit, c.rec)]
  {
  }

  lemma SubmitOk(env: Env, recs: Records, store: StoreView, intent: Intent, now: int)
    requires RecordsOk(recs, store)
    ensures OutcomeOk(recs, store, Submit(env, recs, store, intent, now))
  {
    var o := Submit(env, recs, store, intent, now);
    if intent.id in store.intents {
      QuietIsOk(recs, store, o);
    } else if o.error.Some? {
      Refuse(recs, store, o.error.value);
    } else {
      assert intent.id !in recs;
      AdmitOk(store, intent);
      Add(recs, store, intent.id, Admit(store, intent));
    }
  }

  lemma {:induction false} ExpireAllQuiet(recs: Records, ids: seq<string>)
    ensures Quiet(ExpireAll(recs, ids).1)
  {
    if ids != [] { ExpireAllQuiet(recs, ids[..|ids| - 1]); }
  }

  lemma ExpireOneMoves(recs: Records, id: string)
    requires id in recs ==> recs[id].state == Executing || recs[id].state == ReconciliationRequired
    ensures var recs' := ExpireOne(recs, id).0;
            && recs'.Keys == recs.Keys
            && forall x :: x in recs ==> recs'[x] == if x == id then recs[x].(state := ReconciliationRequired) else recs[x]
  {
  }

  lemma {:induction false} ExpireAllMoves(recs: Records, ids: seq<string>)
    requires forall id :: id in ids && id in recs ==> recs[id].state == Executing
    ensures var recs' := ExpireAll(recs, ids).0;
            && recs'.Keys == recs.Keys
            && forall id :: id in recs ==>
                 recs'[id] == if id in ids then recs[id].(state := ReconciliationRequired) else recs[id]
  {
    hide ExpireOne;
    if ids != [] {
      var front, id := ids[..|ids| - 1], ids[|ids| - 1];
      ExpireAllMoves(recs, front);
      ExpireOneMoves(ExpireAll(recs, front).0, id);
      assert ids == front + [id];
      assert forall x :: x in ids <==> x in front || x == id;
    }
  }

  lemma ExpireAllOk(recs: Records, ids: seq<string>)
    requires forall id :: id in ids && id in recs ==> recs[id].state == Executing
    ensures var (recs', es) := ExpireAll(recs, ids);
            && Quiet(es)
            && recs'.Keys == recs.Keys
            && forall id :: id in recs ==>
                 recs'[id] == if id in ids then recs[id].(state := ReconciliationRequired) else recs[id]
  {
    hide ExpireAll, Quiet;
    ExpireAllQuiet(recs, ids);
    ExpireAllMoves(recs, ids);
  }

  lemma {:induction false} OverdueOnly(recs: Records, order: seq<string>, only: Option<set<string>>, now: int)
    ensures forall id :: id in OverdueIn(recs, order, only, now) <==> id in order && Overdue(recs, id, only, now)
  {
    if order != [] { OverdueOnly(recs, order[..|order| - 1], only, now); }
  }

  /** The sweep moves exactly the overdue EXECUTING intents it was asked to
      check, to RECONCILIATION_REQUIRED, and raises exactly when there is one. */
  lemma SweepMovesOverdue(recs: Records, store: StoreView, order: seq<string>, only: Option<set<string>>, now: int)
    requires RecordsOk(recs, store)
    requires forall id :: id in recs ==> id in order
    ensures var o := CheckExpired(recs, store, order, only, now);
            && o.recs.Keys == recs.Keys && o.store == store
            && (forall id :: id in recs ==>
                  o.recs[id] == if Overdue(recs, id, only, now)
                                then recs[id].(state := ReconciliationRequired) else recs[id])
            && (o.error == Some(StateError) <==> exists id :: id in recs && Overdue(recs, id, only, now))
            && (o.error.None? ==> o.effects == [])
  {
    var ids := OverdueIn(recs, order, only, now);
    OverdueOnly(recs, order, only, now);
    ExpireAllOk(recs, ids);
    if ids != [] { assert ids[0] in ids; }
  }

  lemma SweepOk(recs: Records, store: StoreView, order: seq<string>, only: Option<set<string>>, now: int)
    requires RecordsOk(recs, store)
    ensures OutcomeOk(recs, store, CheckExpired(recs, store, order, only, now))
  {
    var ids := OverdueIn(recs, order, only, now);
    OverdueOnly(recs, order, only, now);
    ExpireAllOk(recs, ids);
    QuietIsOk(recs, store, CheckExpired(recs, store, order, only, now));
  }

  /** Quiet effects with well-behaved records are within the rules. */
  lemma QuietIsOk(recs: Records, store: StoreView, o: Outcome)
    requires RecordsOk(o.recs, store) && o.store == store && Quiet(o.effects)
    requires o.recs.Keys == recs.Keys
    requires forall id :: id in recs ==>
      && Keeps(recs[id], o.recs[id]) && (Authorised(o.recs[id].state) ==> Authorised(recs[id].state))
      && (Dispatched(o.recs[id].state) ==> Dispatched(recs[id].state))
    ensures OutcomeOk(recs, store, o)
  {
    forall k | 0 <= k < |o.effects| ensures !IsExecute(o.effects[k]) && !IsApproval(o.effects[k]) {
      assert o.effects[k] in o.effects;
    }
  }

  lemma NegotiationOk(env: Env, recs: Records, store: StoreView, cmd: Command)
    requires RecordsOk(recs, store)
    requires cmd.CmdReceiveQuote? || cmd.CmdPrepare? || cmd.CmdApprove?
    ensures OutcomeOk(recs, store, Perform(env, recs, store, cmd))
  {
    match cmd
    case CmdReceiveQuote(q, now) =>
      if q.intentId !in recs { Refuse(recs, store, UnknownIntent); } else {
        QuoteRecordOk(q.intentId, recs[q.intentId], store, q, now);
        QuoteEffectsOk(recs[q.intentId], store, q, now);
        Lift(recs, store, q.intentId, QuoteChange(recs[q.intentId], store, q, now));
      }
    case CmdPrepare(pick, a, now) =>
      if pick !in recs { Refuse(recs, store, StateError); } else {
        PrepareOk(env, pick, recs[pick], store, a, now);
        Lift(recs, store, pick, PrepareChange(env, recs[pick], store, a, now));
      }
    case CmdApprove(a) =>
      if a.intentId !in recs { Refuse(recs, store, UnknownIntent); } else {
        ApproveOk(a.intentId, recs[a.intentId], store, a);
        Lift(recs, store, a.intentId, ApproveChange(recs[a.intentId], store, a));
      }
  }

  lemma SettlementOk(env: Env, recs: Records, store: StoreView, cmd: Command)
    requires RecordsOk(recs, store)
    requires cmd.CmdExecute? || cmd.CmdReceiveReceipt? || cmd.CmdConfirmSettled?
    ensures OutcomeOk(recs, store, Perform(env, recs, store, cmd))
  {
    match cmd
    case CmdExecute(pick, a) =>
      if pick !in recs { Refuse(recs, store, StateError); } else {
        ExecuteRecordOk(pick, recs[pick], store, a);
        ExecuteEffectsOk(pick, recs[pick], store, a);
        Lift(recs, store, pick, ExecuteChange(recs[pick], store, a));
      }
    case CmdReceiveReceipt(receipt, a) =>
      if receipt.intentId !in recs { Refuse(recs, store, UnknownIntent); } else {
        ReceiptRecordOk(receipt.intentId, recs[receipt.intentId], store, receipt, a);
        ReceiptEffectsOk(receipt.intentId, recs[receipt.intentId], store, receipt, a);
        Lift(recs, store, receipt.intentId, ReceiptChange(recs[receipt.intentId], store, receipt, a));
      }
    case CmdConfirmSettled(id) =>
      if id !in recs { Refuse(recs, store, UnknownIntent); } else {
        ConfirmOk(id, recs[id], store);
        Lift(recs, store, id, ConfirmChange(recs[id], store, id));
      }
  }

  lemma OperatorOk(env: Env, recs: Records, store: StoreView, cmd: Command)
    requires RecordsOk(recs, store)
    requires cmd.CmdReconcile? || cmd.CmdCancel? || cmd.CmdReject?
    ensures OutcomeOk(recs, store, Perform(env, recs, store, cmd))
  {
    match cmd
    case CmdReconcile(id, a) =>
      if id !in recs { Refuse(recs, store, UnknownIntent); } else {
        ReconcileOk(id, recs[id], store, a);
        Lift(recs, store, id, ReconcileChange(recs[id], store, a));
      }
    case CmdCancel(id) =>
      if id !in recs { Refuse(recs, store, UnknownIntent); } else {
        MoveOk(id, recs[id], store, OnCancel, EvCancelled);
        Lift(recs, store, id, MoveChange(recs[id], store, OnCancel, EvCancelled));
      }
    case CmdReject(id) =>
      if id !in recs { Refuse(recs, store, UnknownIntent); } else {
        MoveOk(id, recs[id], store, OnRejected, EvRejected);
        Lift(recs, store, id, MoveChange(recs[id], store, OnRejected, EvRejected));
      }
  }

  /** Every command keeps the rules, whatever the adapter answers and whether
      the command returns or raises. */
  lemma PerformOk(env: Env, recs: Records, store: StoreView, cmd: Command)
    requires RecordsOk(recs, store)
    ensures OutcomeOk(recs, store, Perform(env, recs, store, cmd))
  {
    match cmd
    case CmdSubmit(i, now) => SubmitOk(env, recs, store, i, now);
    case CmdCheckExpired(order, only, now) => SweepOk(recs, store, order, only, now);
    case CmdStatus => QuietIsOk(recs, store, Outcome(recs, store, [], None));
    case CmdReconcile(_, _) => OperatorOk(env, recs, store, cmd);
    case CmdCancel(_) => OperatorOk(env, recs, store, cmd);
    case CmdReject(_) => OperatorOk(env, recs, store, cmd);
    case CmdExecute(_, _) => SettlementOk(env, recs, store, cmd);
    case CmdReceiveReceipt(_, _) => SettlementOk(env, recs, store, cmd);
    case CmdConfirmSettled(_) => SettlementOk(env, recs, store, cmd);
    case _ => NegotiationOk(env, recs, store, cmd);
  }

  // ------------------------------------------------------------------
  // Recovery
  // ------------------------------------------------------------------

  /** What a restart makes of a record: nothing changes, except that an
      interrupted or unresolved execution is in reconciliation with the evidence
      just queried. */
  function Recovered(r: Record, outcome: ReconcileOutcome): Record {
    if r.state == Executing || r.state == ReconciliationRequired
    then r.(state := ReconciliationRequired, reconciliation := Some(Evidence(outcome)))
    else r
  }

  lemma RecoverOne(id: string, r: Record, store: StoreView, answer: Answer<ReconcileOutcome>)
    requires RecordOk(id, r, store)
    ensures Decode(Encode(r)) == r
    ensures var c := RecoverChange(id, Encode(r), store, answer);
            && c.error.None? && c.store == store && Quiet(c.effects)
            && c.rec == Recovered(r, answer.outcome) && RecordOk(id, c.rec, store)
  {
  }

  /** Recovery over any base memory, in any order of the saved records: it never
      raises, every saved record comes back as Recovered, nothing else changes,
      and nothing is saved, approved or dispatched. */
  lemma {:induction false} RecoverAll(base: Records, store: StoreView, saved: map<string, SavedRecord>,
                                      order: seq<string>, answers: Answers)
    requires forall id :: id in order ==> id in saved
    requires forall id :: id in saved ==> RecordOk(id, Decode(saved[id]), store)
    ensures var o := RecoverRecords(base, store, saved, order, answers);
            && o.error.None? && o.store == store && Quiet(o.effects)
            && (forall id :: id in o.recs <==> id in base || id in order)
            && (forall id :: id in o.recs ==>
                  o.recs[id] == if id in order then Recovered(Decode(saved[id]), AnswerFor(answers, id).outcome)
                                else base[id])
  {
    hide RecordOk, RecoverChange, Recovered;
    if order != [] {
      var front, id := order[..|order| - 1], order[|order| - 1];
      RecoverAll(base, store, saved, front, answers);
      assert Encode(Decode(saved[id])) == saved[id];
      RecoverOne(id, Decode(saved[id]), store, AnswerFor(answers, id));
      assert forall x :: x in order <==> x in front || x == id;
    }
  }
}
