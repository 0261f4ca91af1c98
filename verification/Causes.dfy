/** What stands behind an audit line, an approval, a settlement and the evidence of a
    recovery round: over every run, with kills anywhere, each audited event happened
    at a step whose gate held in the durable state of that moment; and in runs
    against the Wavelength adapter, what the daemon replied there. */
module Causes {
  import opened Wrappers
  import opened StateMachine
  import opened Model
  import opened Store
  import opened Lifecycle
  import opened Committed
  import opened System
  import opened Safety
  import opened Audit
  import opened Replies
  import opened Wavelength
  import opened Money
  import opened Payments
  import opened Gates
  import opened Orchestrator
  import opened Process

  // ------------------------------------------------------------------
  // The cause of an audit line
  // ------------------------------------------------------------------

  ghost predicate Queried(a: Answer<ReconcileOutcome>, status: ReconcileStatus) {
    match a.outcome
    case ReconcileOk(r) => r.status == status
    case ReconcileRaised => status == UNKNOWN
  }

  predicate Restores(act: Action) { act.Boot? || act.Recover? }

  ghost predicate QuoteCause(recs: Records, act: Action, e: Entry) {
    && act.Do? && act.cmd.CmdReceiveQuote? && act.cmd.quote.intentId == e.intentId && e.intentId in recs
    && e.event == EvQuoteReceived(act.cmd.quote.quoteId) && e.state == Quoted
    && MayQuote(recs[e.intentId], act.cmd.quote, act.cmd.now)
  }

  ghost predicate PrepareCause(env: Env, recs: Records, act: Action, e: Entry) {
    && act.Do? && act.cmd.CmdPrepare? && act.cmd.pick == e.intentId && e.intentId in recs && e.state == State.Prepared
    && MayPrepare(env, recs[e.intentId], act.cmd.prepareAnswer, act.cmd.now)
    && e.event == EvPrepared(act.cmd.prepareAnswer.outcome.result.preparedHash)
  }

  ghost predicate ApproveCause(recs: Records, store: StoreView, act: Action, e: Entry) {
    && act.Do? && act.cmd.CmdApprove? && act.cmd.approval.intentId == e.intentId && e.intentId in recs && e.state == Approved
    && MayApprove(recs[e.intentId], store, act.cmd.approval)
    && e.event == EvApproved(act.cmd.approval.quoteId, act.cmd.approval.preparedHash)
  }

  ghost predicate ExecuteCause(recs: Records, act: Action, e: Entry) {
    && act.Do? && act.cmd.CmdExecute? && act.cmd.pick == e.intentId && e.intentId in recs && MayExecute(recs[e.intentId])
    && match e.event
       case EvExecuting => e.state == Executing
       case EvAdapterAmbiguous => e.state == ReconciliationRequired && act.cmd.executeAnswer.outcome.ExecuteAmbiguous?
       case EvAdapterError => e.state == ReconciliationRequired && act.cmd.executeAnswer.outcome.ExecuteAdapterError?
       case EvSettled(ref) =>
         e.state == Settled && Succeeds(act.cmd.executeAnswer) && act.cmd.executeAnswer.outcome.settlementRef == ref
       case _ => false
  }

  ghost predicate ReceiptCause(recs: Records, store: StoreView, act: Action, e: Entry) {
    && act.Do? && act.cmd.CmdReceiveReceipt? && act.cmd.receipt.intentId == e.intentId && e.intentId in recs
    && Unresolved(recs[e.intentId]) && e.intentId !in store.receipts
    && match e.event
       case EvReceiptMismatch =>
         e.state == recs[e.intentId].state && act.cmd.receipt.amountSat != recs[e.intentId].intent.amountSat
       case EvVerificationFailed =>
         && e.state == recs[e.intentId].state && MayVerify(recs[e.intentId], store, act.cmd.receipt)
         && act.cmd.verifyAnswer.outcome.VerifyOk? && !act.cmd.verifyAnswer.outcome.result.verified
       case EvReceiptConfirmed(ref) =>
         && e.state == Settled && MayVerify(recs[e.intentId], store, act.cmd.receipt)
         && Verified(act.cmd.verifyAnswer) && act.cmd.receipt.settlementRef == ref
       case _ => false
  }

  ghost predicate EvidenceCause(recs: Records, act: Action, e: Entry) {
    && e.event.EvReconciled? && e.state == ReconciliationRequired && e.intentId in recs
    && if act.Do? then
         && act.cmd.CmdReconcile? && act.cmd.id == e.intentId && recs[e.intentId].state == ReconciliationRequired
         && Queried(act.cmd.reconcileAnswer, e.event.status)
       else Restores(act) && Unresolved(recs[e.intentId]) && Queried(AnswerFor(act.answers, e.intentId), e.event.status)
  }

  /** The action, in this durable state, is what the audit line reports. */
  ghost predicate Explains(env: Env, recs: Records, store: StoreView, act: Action, e: Entry) {
    match e.event
    case EvSubmit =>
      && act.Do? && act.cmd.CmdSubmit? && act.cmd.intent.id == e.intentId && e.state == Submitted
      && e.intentId !in store.intents && MaySubmit(env, act.cmd.intent, act.cmd.now)
    case EvQuoteReceived(_) => QuoteCause(recs, act, e)
    case EvPrepared(_) => PrepareCause(env, recs, act, e)
    case EvApproved(_, _) => ApproveCause(recs, store, act, e)
    case EvExecuting => ExecuteCause(recs, act, e)
    case EvAdapterAmbiguous => ExecuteCause(recs, act, e)
    case EvAdapterError => ExecuteCause(recs, act, e)
    case EvSettled(_) => ExecuteCause(recs, act, e)
    case EvReceiptMismatch => ReceiptCause(recs, store, act, e)
    case EvVerificationFailed => ReceiptCause(recs, store, act, e)
    case EvReceiptConfirmed(_) => ReceiptCause(recs, store, act, e)
    case EvConfirmSettled =>
      && act == Do(CmdConfirmSettled(e.intentId)) && e.intentId in recs
      && recs[e.intentId].state == ReconciliationRequired && e.state == Settled
    case EvReconciled(_) => EvidenceCause(recs, act, e)
    case EvCancelled =>
      && act == Do(CmdCancel(e.intentId)) && e.intentId in recs
      && !Authorised(recs[e.intentId].state) && e.state == Cancelled
    case EvRejected =>
      && act == Do(CmdReject(e.intentId)) && e.intentId in recs
      && !Dispatched(recs[e.intentId].state) && e.state == Rejected
    case EvExpiredDuringExecution =>
      && act.Do? && act.cmd.CmdCheckExpired? && e.intentId in recs && e.state == ReconciliationRequired
      && Late(recs[e.intentId], e.intentId, act.cmd.only, act.cmd.now)
    case EvRecoveredExecuting =>
      Restores(act) && e.intentId in recs && recs[e.intentId].state == Executing && e.state == ReconciliationRequired
  }

  lemma NegotiationCauses(env: Env, recs: Records, store: StoreView, cmd: Command, e: Entry)
    requires cmd.CmdReceiveQuote? || cmd.CmdPrepare? || cmd.CmdApprove?
    requires Target(cmd) in recs && recs[Target(cmd)].intent.id == Target(cmd)
    requires Logged(e) in Perform(env, recs, store, cmd).effects
    ensures Explains(env, recs, store, Do(cmd), e)
  {
    hide Perform, MayQuote, MayPrepare, MayAskPrepare, MayApprove;
    match cmd
    case CmdReceiveQuote(q, now) => QuoteGate(env, recs, store, q, now);
    case CmdPrepare(id, a, now) => PrepareGate(env, recs, store, id, a, now);
    case CmdApprove(a) => ApproveGate(env, recs, store, a);
  }

  lemma ExecuteCauses(env: Env, recs: Records, store: StoreView, cmd: Command, e: Entry)
    requires cmd.CmdExecute? && cmd.pick in recs && recs[cmd.pick].intent.id == cmd.pick
    requires Logged(e) in Perform(env, recs, store, cmd).effects
    ensures Explains(env, recs, store, Do(cmd), e)
  {
    hide Perform, MayExecute;
    ExecuteGate(env, recs, store, cmd.pick, cmd.executeAnswer);
    var es := Perform(env, recs, store, cmd).effects;
    var k :| 0 <= k < |es| && es[k] == Logged(e);
    assert k < 2 ==> es[k] == es[..2][k];
    assert k >= 2 ==> es[k] == es[2..][k - 2];
  }

  lemma ReceiptCauses(env: Env, recs: Records, store: StoreView, cmd: Command, e: Entry)
    requires cmd.CmdReceiveReceipt? && cmd.receipt.intentId in recs && recs[cmd.receipt.intentId].intent.id == cmd.receipt.intentId
    requires Logged(e) in Perform(env, recs, store, cmd).effects
    ensures Explains(env, recs, store, Do(cmd), e)
  {
    hide Perform;
    ReceiptGate(env, recs, store, cmd.receipt, cmd.verifyAnswer);
  }

  lemma OperatorCauses(env: Env, recs: Records, store: StoreView, cmd: Command, e: Entry)
    requires cmd.CmdConfirmSettled? || cmd.CmdReconcile? || cmd.CmdCancel? || cmd.CmdReject?
    requires Target(cmd) in recs && recs[Target(cmd)].intent.id == Target(cmd)
    requires Logged(e) in Perform(env, recs, store, cmd).effects
    ensures Explains(env, recs, store, Do(cmd), e)
  {
    hide Perform;
    match cmd
    case CmdConfirmSettled(id) => ConfirmGate(env, recs, store, id);
    case CmdReconcile(id, a) => ReconcileGate(env, recs, store, id, a);
    case CmdCancel(id) => CancelGate(env, recs, store, id);
    case CmdReject(id) => RejectGate(env, recs, store, id);
  }

  /** A sweep audits overdue intents only, whatever order it walks. */
  lemma {:induction false} ExpiryLines(recs: Records, ids: seq<string>)
    requires forall id :: id in ids ==> id in recs && recs[id].state == Executing
    ensures ExpireAll(recs, ids).0.Keys == recs.Keys
    ensures forall id :: id in recs ==> var s := ExpireAll(recs, ids).0[id].state; s == recs[id].state || s == ReconciliationRequired
    ensures forall x :: x in ExpireAll(recs, ids).1 ==>
              x.Logged? && x.entry.intentId in ids && x.entry == Entry(EvExpiredDuringExecution, x.entry.intentId, ReconciliationRequired)
  {
    hide ExpireOne;
    if ids != [] {
      var front, last := ids[..|ids| - 1], ids[|ids| - 1];
      assert forall id :: id in ids <==> id in front || id == last;
      ExpiryLines(recs, front);
      ExpiryLine(ExpireAll(recs, front).0, last);
    }
  }

  lemma SweepCauses(env: Env, recs: Records, store: StoreView, cmd: Command, e: Entry)
    requires RecordsOk(recs, store) && cmd.CmdCheckExpired?
    requires Logged(e) in Perform(env, recs, store, cmd).effects
    ensures Explains(env, recs, store, Do(cmd), e)
  {
    hide RecordsOk;
    hide RecordOk, Late, ExpireAll, OverdueIn;
    var ids := OverdueIn(recs, cmd.order, cmd.only, cmd.now);
    OverdueOnly(recs, cmd.order, cmd.only, cmd.now);
    ExpiryLines(recs, ids);
    TrackedOk(recs, store, e.intentId);
    OverdueLate(recs, store, e.intentId, cmd.only, cmd.now);
  }

  lemma OverdueLate(recs: Records, store: StoreView, id: string, only: Option<set<string>>, now: int)
    requires Overdue(recs, id, only, now) && RecordOk(id, recs[id], store)
    ensures Late(recs[id], id, only, now)
  {
  }

  lemma TrackedOk(recs: Records, store: StoreView, id: string)
    requires RecordsOk(recs, store) && id in recs
    ensures RecordOk(id, recs[id], store)
  {
  }

  /** Every line an engine call audits is explained by that call. */
  lemma CommandCauses(env: Env, recs: Records, store: StoreView, cmd: Command, e: Entry)
    requires RecordsOk(recs, store)
    requires Logged(e) in Perform(env, recs, store, cmd).effects
    ensures Explains(env, recs, store, Do(cmd), e)
  {
    hide Perform, Explains, RecordsOk;
    match cmd
    case CmdSubmit(i, now) => SubmitCauses(env, recs, store, i, now, e);
    case CmdCheckExpired(_, _, _) => SweepCauses(env, recs, store, cmd, e);
    case CmdStatus => StatusIsSilent(env, recs, store);
    case _ =>
      var id := Target(cmd);
      if id !in recs { Untracked(env, recs, store, cmd); }
      else {
        TrackedOk(recs, store, id);
        match cmd
        case CmdExecute(_, _) => ExecuteCauses(env, recs, store, cmd, e);
        case CmdReceiveReceipt(_, _) => ReceiptCauses(env, recs, store, cmd, e);
        case CmdReceiveQuote(_, _) => NegotiationCauses(env, recs, store, cmd, e);
        case CmdPrepare(_, _, _) => NegotiationCauses(env, recs, store, cmd, e);
        case CmdApprove(_) => NegotiationCauses(env, recs, store, cmd, e);
        case _ => OperatorCauses(env, recs, store, cmd, e);
      }
  }

  lemma SubmitCauses(env: Env, recs: Records, store: StoreView, i: Intent, now: int, e: Entry)
    requires Logged(e) in Perform(env, recs, store, CmdSubmit(i, now)).effects
    ensures Explains(env, recs, store, Do(CmdSubmit(i, now)), e)
  {
    SubmitGate(env, recs, store, i, now);
  }

  lemma StatusIsSilent(env: Env, recs: Records, store: StoreView)
    ensures Perform(env, recs, store, CmdStatus).effects == []
  {
  }

  /** Every line a recovery audits is explained by it. */
  lemma {:induction false} RecoveryCauses(env: Env, recs: Records, store: StoreView, base: Records,
                                          saved: map<string, SavedRecord>, order: seq<string>, act: Action, e: Entry)
    requires RecordsOk(recs, store) && saved == EncodeAll(recs) && Restores(act)
    requires forall id :: id in order ==> id in saved
    requires Logged(e) in RecoverRecords(base, store, saved, order, act.answers).effects
    ensures Explains(env, recs, store, act, e)
  {
    hide RecordsOk, Explains, RecoverChange;
    if order != [] {
      var front, id := order[..|order| - 1], order[|order| - 1];
      assert id in order;
      TrackedOk(recs, store, id);
      if Logged(e) in RecoverRecords(base, store, saved, front, act.answers).effects {
        RecoveryCauses(env, recs, store, base, saved, front, act, e);
      } else {
        RecordCauses(env, recs, store, id, act, e);
      }
    }
  }

  lemma RecordCauses(env: Env, recs: Records, store: StoreView, id: string, act: Action, e: Entry)
    requires id in recs && RecordOk(id, recs[id], store) && Restores(act)
    requires Logged(e) in RecoverChange(id, Encode(recs[id]), store, AnswerFor(act.answers, id)).effects
    ensures Explains(env, recs, store, act, e)
  {
    hide AnswerFor;
  }

  lemma ActionCauses(env: Env, s: Sys, act: Action, e: Entry)
    requires Inv(s) && Logged(e) in Behave(env, s, act).effects
    ensures Explains(env, Durable(s.disk), s.disk.store, act, e)
  {
    hide LogOk, RecordsOk, Explains, Perform, RecoverRecords, Take, Absorb;
    if Restores(act) && (act.Boot? || s.memory.Some?) && Enumerates(act.order, s.disk.snapshot.records.Keys) {
      var base := if act.Recover? then s.memory.value else FRESH;
      var o := RecoverRecords(base.recs, s.disk.store, s.disk.snapshot.records, act.order, act.answers);
      ReencodeSaved(s.disk.snapshot.records);
      assert Logged(e) in o.effects;
      RecoveryCauses(env, Durable(s.disk), s.disk.store, base.recs, s.disk.snapshot.records, act.order, act, e);
    } else if act.Do? && s.memory.Some? {
      CommandCauses(env, Durable(s.disk), s.disk.store, act.cmd, e);
    }
  }

  /** Step `i` of the run is what the line reports. */
  ghost predicate ExplainedAt(env: Env, steps: seq<Step>, i: nat, e: Entry) {
    && i < |steps|
    && Explains(env, Durable(Exec(env, steps[..i]).disk), Exec(env, steps[..i]).disk.store, steps[i].act, e)
  }

  /** Every audit line has its cause: over every run, with kills anywhere and any
      adapter answers, each line in the audit file reports an action whose gate held
      in the durable state in which it was taken. */
  lemma {:induction false} EveryLineHasItsCause(env: Env, steps: seq<Step>, e: Entry) returns (i: nat)
    requires e in Exec(env, steps).disk.audit
    ensures ExplainedAt(env, steps, i, e)
  {
    hide Behave, Explains, Inv;
    var front, step := steps[..|steps| - 1], steps[|steps| - 1];
    var s := Exec(env, front);
    AppliedAudit(s.disk, Left(env, s, step));
    if e in s.disk.audit {
      i := EveryLineHasItsCause(env, front, e);
      assert front[..i] == steps[..i];
    } else {
      AlwaysInv(env, front);
      assert Logged(e) in Behave(env, s, step.act).effects;
      ActionCauses(env, s, step.act, e);
      i := |front|;
    }
  }

  /** The durable state in which step `i` was taken. */
  ghost function Before(env: Env, steps: seq<Step>, i: nat): Records
    requires i <= |steps|
  {
    Durable(Exec(env, steps[..i]).disk)
  }

  /** An audited approval names the quote and the hash that its intent held, as
      PREPARED, when the approval was accepted; it was the human's command. */
  lemma ApprovalsNameTheQuote(env: Env, steps: seq<Step>, e: Entry) returns (i: nat)
    requires e in Exec(env, steps).disk.audit && e.event.EvApproved?
    ensures i < |steps| && steps[i].act.Do? && steps[i].act.cmd.CmdApprove?
    ensures var a := steps[i].act.cmd.approval;
            && a.intentId == e.intentId && e.intentId in Before(env, steps, i)
            && a.quoteId == e.event.quoteId && a.preparedHash == e.event.preparedHash
            && var r := Before(env, steps, i)[e.intentId];
               && r.state == State.Prepared
               && r.quote.Some? && r.quote.value.quoteId == e.event.quoteId
               && r.prepared.Some? && r.prepared.value.preparedHash == e.event.preparedHash
  {
    i := EveryLineHasItsCause(env, steps, e);
  }

  // ------------------------------------------------------------------
  // Against the Wavelength adapter
  // ------------------------------------------------------------------

  lemma WaveAt(env: Env, steps: seq<Step>, i: nat)
    requires WaveRun(env, steps) && i < |steps|
    ensures WaveAction(env, Exec(env, steps[..i]), steps[i].act)
    ensures PayOk(env, Before(env, steps, i))
  {
    hide WaveAction, Exec, PayOk;
    var front := steps[..i];
    forall j | 0 <= j < |front| ensures WaveAction(env, Exec(env, front[..j]), front[j].act) {
      assert front[..j] == steps[..j];
    }
    AlwaysPays(env, front);
  }

  /** An audited prepared payload was sealed from a daemon preview for the intent's
      amount, within its fee limit and unexpired. */
  lemma PayloadsArePreviewed(env: Env, steps: seq<Step>, e: Entry) returns (i: nat, reply: Reply, fee: int, expires: int)
    requires WaveRun(env, steps) && e in Exec(env, steps).disk.audit && e.event.EvPrepared?
    ensures i < |steps| && e.intentId in Before(env, steps, i) && Before(env, steps, i)[e.intentId].quote.Some?
    ensures var r := Before(env, steps, i)[e.intentId];
            && reply.ReplyJson? && Previews(reply.data, r.intent.amountSat, fee, expires) && fee <= r.intent.maxFeeSat
            && r.quote.value.instruction.invoice.Some?
            && exists payload :: e.event.preparedHash == env.sha(payload)
                 && Seals(payload, reply.data, r.quote.value.instruction.invoice.value, r.intent.amountSat, fee, r.intent.maxFeeSat, expires)
  {
    hide WaveRun, Exec, PrepareAnswer, Previews, Seals, WellPrepared;
    i := EveryLineHasItsCause(env, steps, e);
    WaveAt(env, steps, i);
    var r, a := Before(env, steps, i)[e.intentId], steps[i].act.cmd.prepareAnswer;
    assert WavePrepared(env, r, a);
    var w: int, x: Reply :| a == PrepareAnswer(env, r.quote.value.instruction, r.intent.amountSat, r.intent.maxFeeSat, w, x);
    reply := x;
    PrepareExactly(env, r.quote.value.instruction, r.intent.amountSat, r.intent.maxFeeSat, w, x);
    var result := a.outcome.result;
    fee := result.feeSat;
    expires :| expires > w && Previews(x.data, r.intent.amountSat, fee, expires)
      && Seals(result.payload, x.data, r.quote.value.instruction.invoice.value, r.intent.amountSat, fee, r.intent.maxFeeSat, expires);
  }

  /** An audited settlement by execute was confirmed by the daemon's reply to the one
      Send: COMPLETE, for the intent's amount, under that very reference. */
  lemma SettlementsAreConfirmed(env: Env, steps: seq<Step>, e: Entry) returns (i: nat, reply: Reply)
    requires WaveRun(env, steps) && e in Exec(env, steps).disk.audit && e.event.EvSettled?
    ensures i < |steps| && e.intentId in Before(env, steps, i) && Before(env, steps, i)[e.intentId].state == Approved
    ensures reply.ReplyJson?
            && Confirms(env, reply.data, JStr(e.event.settlementRef), Before(env, steps, i)[e.intentId].intent.amountSat)
  {
    hide WaveRun, Exec, ExecuteAnswer, Confirms, WellPrepared, Names;
    i := EveryLineHasItsCause(env, steps, e);
    WaveAt(env, steps, i);
    var r, a := Before(env, steps, i)[e.intentId], steps[i].act.cmd.executeAnswer;
    assert RecordPays(env, r) && WaveExecuted(env, r, a);
    var p := r.prepared.value;
    PaysItsOwnFee(env, p, r.intent.amountSat, r.intent.maxFeeSat);
    var wall: int, x: Reply :| a == ExecuteAnswer(env, p.payload, p.preparedHash, wall, x);
    reply := x;
    ExecuteSound(env, p, r.intent.amountSat, wall, x);
  }

  lemma PaysItsOwnFee(env: Env, p: PrepareResult, amountSat: int, maxFeeSat: int)
    requires WellPrepared(env, p, amountSat, maxFeeSat)
    ensures WellPrepared(env, p, amountSat, p.feeSat)
    ensures Searchable(env, p.payload, p.preparedHash, amountSat)
    ensures Field(p.payload.tree, "payment_hash") == p.payload.tree.fields["payment_hash"]
  {
  }

  /** An audited receipt was verified against the sender's activity: the deciding entry
      for its reference is COMPLETE for the intent's amount. */
  lemma ReceiptsAreShown(env: Env, steps: seq<Step>, e: Entry) returns (i: nat, reply: Reply)
    requires WaveRun(env, steps) && e in Exec(env, steps).disk.audit && e.event.EvReceiptConfirmed?
    ensures i < |steps| && e.intentId in Before(env, steps, i) && Unresolved(Before(env, steps, i)[e.intentId])
    ensures reply.ReplyJson?
            && Shows(env, reply.data, e.event.settlementRef, "COMPLETE", Before(env, steps, i)[e.intentId].intent.amountSat)
  {
    hide WaveRun, Exec, VerifyAnswer, Shows, PayOk;
    i := EveryLineHasItsCause(env, steps, e);
    WaveAt(env, steps, i);
    var x, a := steps[i].act.cmd.receipt, steps[i].act.cmd.verifyAnswer;
    var answer: Reply :| a == VerifyAnswer(env, x.settlementRef, x.amountSat, SendKind, answer);
    reply := answer;
    VerifyExactly(env, x.settlementRef, x.amountSat, SendKind, answer);
  }

  // ------------------------------------------------------------------
  // Settled means paid, or the operator said so
  // ------------------------------------------------------------------

  ghost predicate SettlesLine(e: Entry, id: string) {
    e.intentId == id && e.state == Settled
  }

  /** A call that makes an intent SETTLED audits that. */
  lemma SettledIsLogged(env: Env, recs: Records, store: StoreView, cmd: Command, id: string) returns (e: Entry)
    requires RecordsOk(recs, store)
    requires var o := Perform(env, recs, store, cmd); id in o.recs && o.recs[id].state == Settled
    requires !(id in recs && recs[id].state == Settled)
    ensures SettlesLine(e, id) && Logged(e) in Perform(env, recs, store, cmd).effects
  {
    hide Perform, RecordsOk;
    var o := Perform(env, recs, store, cmd);
    match cmd
    case CmdSubmit(i, now) => SubmitGate(env, recs, store, i, now); e := Entry(EvSubmit, id, Settled);
    case CmdStatus => StatusKeeps(env, recs, store); e := Entry(EvSubmit, id, Settled);
    case CmdCheckExpired(_, _, _) => SweepSettlesNone(env, recs, store, cmd, id); e := Entry(EvSubmit, id, Settled);
    case _ =>
      var x := Target(cmd);
      if x !in recs { Untracked(env, recs, store, cmd); }
      TrackedOk(recs, store, x);
      e := CallSettledIsLogged(env, recs, store, cmd, id);
  }

  lemma StatusKeeps(env: Env, recs: Records, store: StoreView)
    ensures Perform(env, recs, store, CmdStatus).recs == recs
  {
  }

  lemma SweepSettlesNone(env: Env, recs: Records, store: StoreView, cmd: Command, id: string)
    requires cmd.CmdCheckExpired?
    ensures var o := Perform(env, recs, store, cmd);
            o.recs.Keys == recs.Keys && (id in recs ==> o.recs[id].state == recs[id].state || o.recs[id].state == ReconciliationRequired)
  {
    var ids := OverdueIn(recs, cmd.order, cmd.only, cmd.now);
    OverdueOnly(recs, cmd.order, cmd.only, cmd.now);
    ExpiryLines(recs, ids);
  }

  lemma CallSettledIsLogged(env: Env, recs: Records, store: StoreView, cmd: Command, id: string) returns (e: Entry)
    requires !cmd.CmdSubmit? && !cmd.CmdCheckExpired? && !cmd.CmdStatus?
    requires Target(cmd) in recs && recs[Target(cmd)].intent.id == Target(cmd)
    requires var o := Perform(env, recs, store, cmd); id in o.recs && o.recs[id].state == Settled
    requires !(id in recs && recs[id].state == Settled)
    ensures SettlesLine(e, id) && Logged(e) in Perform(env, recs, store, cmd).effects
  {
    hide Perform, MayQuote, MayPrepare, MayApprove, MayAskPrepare;
    var o := Perform(env, recs, store, cmd);
    e := Entry(EvConfirmSettled, id, Settled);
    match cmd
    case CmdReceiveQuote(q, now) => QuoteGate(env, recs, store, q, now); QuoteKeepsSettled(env, recs, store, q, now, id);
    case CmdPrepare(x, a, now) => PrepareGate(env, recs, store, x, a, now);
    case CmdApprove(a) => ApproveGate(env, recs, store, a);
    case CmdExecute(x, a) =>
      ExecuteGate(env, recs, store, x, a);
      if a.outcome.ExecuteOk? {
        e := Entry(EvSettled(a.outcome.settlementRef), id, Settled);
        assert o.effects[2..][1] == o.effects[3];
      }
    case CmdReceiveReceipt(x, a) =>
      ReceiptGate(env, recs, store, x, a);
      e := Entry(EvReceiptConfirmed(x.settlementRef), id, Settled);
    case CmdConfirmSettled(x) => ConfirmGate(env, recs, store, x);
    case CmdReconcile(x, a) => ReconcileGate(env, recs, store, x, a);
    case CmdCancel(x) => CancelGate(env, recs, store, x);
    case CmdReject(x) => RejectGate(env, recs, store, x);
  }

  /** A quote, refused or not, settles nothing. */
  lemma QuoteKeepsSettled(env: Env, recs: Records, store: StoreView, q: Quote, now: int, id: string)
    requires q.intentId in recs
    ensures var o := Perform(env, recs, store, CmdReceiveQuote(q, now));
            o.recs.Keys == recs.Keys && (id in recs && o.recs[id].state == Settled ==> recs[id].state == Settled)
  {
  }

  /** Whatever the durable records show SETTLED, the audit file has a line for it. */
  lemma {:induction false} SettledIsAudited(env: Env, steps: seq<Step>, id: string) returns (e: Entry)
    requires var recs := Durable(Exec(env, steps).disk); id in recs && recs[id].state == Settled
    ensures SettlesLine(e, id) && e in Exec(env, steps).disk.audit
  {
    hide Behave, Inv;
    if steps == [] {
      NothingAtFirst();
      assert false;
    } else {
      var front, step := steps[..|steps| - 1], steps[|steps| - 1];
      var s := Exec(env, front);
      AuditApplied(s.disk, Left(env, s, step));
      if id in Durable(s.disk) && Durable(s.disk)[id].state == Settled {
        e := SettledIsAudited(env, front, id);
      } else {
        AlwaysInv(env, front);
        e := StepSettledIsLogged(env, s, step, id);
        LoggedHas(Left(env, s, step), e);
      }
    }
  }

  lemma NothingAtFirst()
    ensures Durable(FIRST.disk) == map[]
  {
  }

  lemma {:induction false} LoggedHas(es: seq<Effect>, e: Entry)
    requires Logged(e) in es
    ensures e in LoggedIn(es)
  {
    if es[|es| - 1] != Logged(e) { LoggedHas(es[..|es| - 1], e); }
  }

  lemma StepSettledIsLogged(env: Env, s: Sys, step: Step, id: string) returns (e: Entry)
    requires Inv(s)
    requires !(id in Durable(s.disk) && Durable(s.disk)[id].state == Settled)
    requires var recs := Durable(Next(env, s, step).disk); id in recs && recs[id].state == Settled
    ensures SettlesLine(e, id) && Logged(e) in Left(env, s, step)
  {
    hide Behave, Perform, LogOk, RecordsOk;
    var o, snaps := Shape(env, s, step.act);
    var b := Behave(env, s, step.act);
    var es := Left(env, s, step);
    if snaps && es == b.effects {
      RunThrough(s, o, b.memory.value);
      e := ActionSettledIsLogged(env, s, step.act, id);
    } else {
      CutKeepsRecords(env, s, step, o, snaps);
      assert false;
    }
  }

  lemma CutKeepsRecords(env: Env, s: Sys, step: Step, o: Outcome, snaps: bool)
    requires Inv(s) && Shaped(s, Behave(env, s, step.act), o, snaps)
    requires !(snaps && Left(env, s, step) == Behave(env, s, step.act).effects)
    ensures Durable(Next(env, s, step).disk) == Durable(s.disk)
  {
    hide Behave, Perform, LogOk, RecordsOk;
    var es := Left(env, s, step);
    if snaps {
      assert es == o.effects[..|es|];
      CutShort(s, o, |es|);
    } else {
      assert es == [];
    }
  }

  lemma ActionSettledIsLogged(env: Env, s: Sys, act: Action, id: string) returns (e: Entry)
    requires Inv(s) && Behave(env, s, act).memory.Some?
    requires !(id in Durable(s.disk) && Durable(s.disk)[id].state == Settled)
    requires var recs := Behave(env, s, act).memory.value.recs; id in recs && recs[id].state == Settled
    ensures SettlesLine(e, id) && Logged(e) in Behave(env, s, act).effects
  {
    hide LogOk, RecordsOk, Perform, RecoverRecords, Take;
    e := Entry(EvConfirmSettled, id, Settled);
    if act.Do? && s.memory.Some? {
      e := SettledIsLogged(env, Durable(s.disk), s.disk.store, act.cmd, id);
    } else if act.Receive? && s.memory.Some? {
      AbsorbKeeps(s.memory.value, act.messages);
    } else if Restores(act) && (act.Boot? || s.memory.Some?) && Enumerates(act.order, s.disk.snapshot.records.Keys) {
      RecoverySound(s, act.order, act.answers, act.Recover?);
      assert false;
    }
  }

  /** What settled an intent at step `i`: the daemon's reply to the Send confirms it,
      the sender's activity shows it COMPLETE for the intent's amount, or the operator
      confirmed it. */
  ghost predicate SettledBy(env: Env, steps: seq<Step>, i: nat, id: string) {
    && i < |steps| && id in Before(env, steps, i)
    && var r := Before(env, steps, i)[id];
       || (r.state == Approved && exists ref, data :: Confirms(env, data, JStr(ref), r.intent.amountSat))
       || (Unresolved(r) && exists ref, data :: Shows(env, data, ref, "COMPLETE", r.intent.amountSat))
       || (r.state == ReconciliationRequired && steps[i].act == Do(CmdConfirmSettled(id)))
  }

  /** SETTLED means paid, or that the operator said so: in every run against the
      Wavelength adapter, with kills anywhere. */
  lemma SettledMeansPaid(env: Env, steps: seq<Step>, id: string) returns (i: nat)
    requires WaveRun(env, steps)
    requires var recs := Durable(Exec(env, steps).disk); id in recs && recs[id].state == Settled
    ensures SettledBy(env, steps, i, id)
  {
    hide Exec, WaveRun, Confirms, Shows, MayQuote, MayPrepare, MayApprove, MayVerify;
    var e := SettledIsAudited(env, steps, id);
    i := EveryLineHasItsCause(env, steps, e);
    if e.event.EvSettled? {
      var j, reply := SettlementsAreConfirmed(env, steps, e);
      i := j;
    } else if e.event.EvReceiptConfirmed? {
      var j, reply := ReceiptsAreShown(env, steps, e);
      i := j;
    }
  }

  // ------------------------------------------------------------------
  // The evidence of a round, and when polling stops
  // ------------------------------------------------------------------

  /** The query for this record was answered by a reply that shows its payment with
      this status, for the intent's amount. */
  ghost predicate Answered(env: Env, r: Record, a: Answer<ReconcileOutcome>, word: string) {
    && r.prepared.Some? && r.prepared.value.payload.JsonText? && Field(r.prepared.value.payload.tree, "payment_hash").JStr?
    && exists reply ::
         && a == ReconcileAnswer(env, r.prepared.value.payload, r.prepared.value.preparedHash, r.intent.amountSat, reply)
         && reply.ReplyJson?
         && Shows(env, reply.data, Field(r.prepared.value.payload.tree, "payment_hash").text, word, r.intent.amountSat)
  }

  lemma AnswerShows(env: Env, r: Record, a: Answer<ReconcileOutcome>, n: Record)
    requires r.prepared.Some? && RecordPays(env, r) && WaveReconciled(env, r, a) && Holds(n, a.outcome)
    ensures n.reconciliation.value.status == COMPLETE <==> Answered(env, r, a, "COMPLETE")
    ensures n.reconciliation.value.status == PENDING <==> Answered(env, r, a, "PENDING")
    ensures n.reconciliation.value.verified <==> n.reconciliation.value.status == COMPLETE
  {
    hide WellPrepared, ReconcileAnswer, Shows, Observes, Unreadable;
    var p := r.prepared.value;
    PaysItsOwnFee(env, p, r.intent.amountSat, r.intent.maxFeeSat);
    var reply: Reply :| a == ReconcileAnswer(env, p.payload, p.preparedHash, r.intent.amountSat, reply);
    forall x: Reply | a == ReconcileAnswer(env, p.payload, p.preparedHash, r.intent.amountSat, x)
      ensures a.outcome.ReconcileOk? ==>
                && (a.outcome.result.status == COMPLETE <==> Finds(env, p.payload, p.preparedHash, r.intent.amountSat, x, "COMPLETE"))
                && (a.outcome.result.status == PENDING <==> Finds(env, p.payload, p.preparedHash, r.intent.amountSat, x, "PENDING"))
                && (a.outcome.result.verified <==> a.outcome.result.status == COMPLETE)
      ensures a.outcome.ReconcileRaised? ==>
                && !Finds(env, p.payload, p.preparedHash, r.intent.amountSat, x, "COMPLETE")
                && !Finds(env, p.payload, p.preparedHash, r.intent.amountSat, x, "PENDING")
    {
      ReconcileExactly(env, p.payload, p.preparedHash, r.intent.amountSat, x);
      if a.outcome.ReconcileRaised? { UnreadableFindsNothing(env, p.payload, p.preparedHash, r.intent.amountSat, x); }
    }
  }

  /** A start or a recovery round leaves COMPLETE, or PENDING, evidence for an
      interrupted or unresolved intent if and only if the deciding entry in the
      daemon's reply to its query has that status for the intent's amount. */
  lemma RoundShows(env: Env, steps: seq<Step>, act: Action, id: string)
    requires WaveRun(env, steps) && WaveAction(env, Exec(env, steps), act)
    requires act.Boot? || (act.Recover? && Exec(env, steps).memory.Some?)
    requires Enumerates(act.order, Exec(env, steps).disk.snapshot.records.Keys)
    requires id in Durable(Exec(env, steps).disk) && Unresolved(Durable(Exec(env, steps).disk)[id])
    ensures var r, recs := Durable(Exec(env, steps).disk)[id], Durable(Next(env, Exec(env, steps), Run(act)).disk);
            && id in recs && recs[id].state == ReconciliationRequired && recs[id].reconciliation.Some?
            && var found, a := recs[id].reconciliation.value, AnswerFor(act.answers, id);
               && (found.status == COMPLETE <==> Answered(env, r, a, "COMPLETE"))
               && (found.status == PENDING <==> Answered(env, r, a, "PENDING"))
               && (found.verified <==> found.status == COMPLETE)
  {
    hide Next, Exec, WaveRun, Inv, Answered, RecordPays, WaveReconciled;
    RoundHolds(env, steps, act);
    AlwaysPays(env, steps);
    AlwaysInv(env, steps);
    var s := Exec(env, steps);
    var r := Durable(s.disk)[id];
    assert RecordOk(id, r, s.disk.store) by { InvTracks(s, id); }
    AnswerShows(env, r, AnswerFor(act.answers, id), Durable(Next(env, s, Run(act)).disk)[id]);
  }

  lemma InvTracks(s: Sys, id: string)
    requires Inv(s) && id in Durable(s.disk)
    ensures RecordOk(id, Durable(s.disk)[id], s.disk.store)
  {
  }

  /** Polling goes on after a round if and only if a reply of that round showed the
      payment of some interrupted or unresolved intent PENDING, for its amount. */
  lemma PollingStops(env: Env, from: seq<Step>, to: seq<Step>, trail: seq<Sys>, k: nat)
    requires Polled(env, from, to, trail) && k < |trail|
    ensures var n := |from| + k;
            && n < |to| && to[n].act.Recover?
            && (StillPending(trail[k]) <==>
                  exists id :: id in Before(env, to, n) && Unresolved(Before(env, to, n)[id])
                    && Answered(env, Before(env, to, n)[id], AnswerFor(to[n].act.answers, id), "PENDING"))
  {
    hide Exec, Next, WaveRun, Answered, WaveAction, Enumerates, AnswerFor, Decode;
    var n := |from| + k;
    assert PolledAt(env, to, n, trail[k]);
    var act, front := to[n].act, to[..n];
    assert to[..n + 1] == front + [Run(act)];
    LastOfRun(env, front, act, trail[k]);
    RoundHolds(env, front, act);
    var recs := Durable(Exec(env, front).disk);
    forall id | id in recs && Unresolved(recs[id])
      ensures trail[k].memory.value.recs[id].reconciliation.value.status == PENDING
              <==> Answered(env, recs[id], AnswerFor(act.answers, id), "PENDING")
    {
      RoundShows(env, front, act, id);
    }
    assert forall id :: id in recs ==> (IsPending(trail[k].memory.value.recs[id]) <==>
      Unresolved(recs[id]) && Answered(env, recs[id], AnswerFor(act.answers, id), "PENDING"));
  }

  lemma LastOfRun(env: Env, front: seq<Step>, act: Action, s: Sys)
    requires Reached(env, front + [Run(act)], s)
    ensures WaveRun(env, front) && WaveAction(env, Exec(env, front), act) && s == Next(env, Exec(env, front), Run(act))
  {
    hide WaveAction, Next;
    var longer := front + [Run(act)];
    assert longer[..|longer| - 1] == front;
    WaveFront(env, longer);
  }
}
