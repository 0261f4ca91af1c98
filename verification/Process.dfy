/** HermesPeer and HermesRegtestProcess: the imperative process around the
    engine. Every method is proved to be one step of System.Next (recover: a
    sequence of them), so what holds of every run holds of every process. */
module Process {
  import opened Wrappers
  import opened StateMachine
  import opened Model
  import opened Store
  import opened Lifecycle
  import opened Committed
  import opened System
  import opened Safety
  import opened Dispatch
  import opened Audit
  import opened Settlement
  import opened Wavelength
  import opened Money
  import opened Orchestrator
  import opened Gates

  /** ProcessProtocolError or PeerProtocolError, whatever the transport raised, or
      what the engine raised. */
  datatype Failure = ProtocolError | TransportError | EngineError(error: Error)

  function Raised(e: Option<Error>): Option<Failure> {
    if e.None? then None else Some(EngineError(e.value))
  }

  // ------------------------------------------------------------------
  // HermesPeer
  // ------------------------------------------------------------------

  /** accept_intent: only the intent's recipient accepts it. */
  function AcceptIntentCommand(identity: string, intent: Intent, now: int): Command {
    if intent.recipient != identity then CmdStatus else CmdSubmit(intent, now)
  }

  /** accept_quote: the quote of a known intent comes from its recipient. */
  function AcceptQuoteCommand(recs: Records, quote: Quote, now: int): Command {
    if quote.intentId in recs && quote.recipient != recs[quote.intentId].intent.recipient then CmdStatus
    else CmdReceiveQuote(quote, now)
  }

  /** accept_receipt: the receipt of a known intent comes from its recipient. */
  function AcceptReceiptCommand(recs: Records, receipt: Receipt, answer: Answer<VerifyOutcome>): Command {
    if receipt.intentId in recs && receipt.recipient != recs[receipt.intentId].intent.recipient then CmdStatus
    else CmdReceiveReceipt(receipt, answer)
  }

  class HermesPeer {
    const identity: string
    const engine: PaymentOrchestrator

    constructor (identity: string, engine: PaymentOrchestrator)
      ensures this.identity == identity && this.engine == engine
    {
      this.identity, this.engine := identity, engine;
    }

    /** `publish` tells whether the intent goes on to the transport. */
    method SubmitIntent(intent: Intent, now: int) returns (publish: bool, failure: Option<Failure>)
      requires engine.Valid()
      modifies engine, engine.store, engine.audit, engine.intents.Values
      ensures var cmd := if intent.sender == identity then CmdSubmit(intent, now) else CmdStatus;
              var o := Perform(engine.env, old(engine.Recs()), old(engine.store.View()), cmd);
              engine.Did(o, o.error)
              && failure == (if intent.sender != identity then Some(ProtocolError) else Raised(o.error))
      ensures publish <==> failure.None?
    {
      if intent.sender != identity { return false, Some(ProtocolError); }
      var err := engine.Submit(intent, now);
      return err.None?, Raised(err);
    }

    method AcceptIntent(intent: Intent, now: int) returns (failure: Option<Failure>)
      requires engine.Valid()
      modifies engine, engine.store, engine.audit, engine.intents.Values
      ensures var cmd := AcceptIntentCommand(identity, intent, now);
              var o := Perform(engine.env, old(engine.Recs()), old(engine.store.View()), cmd);
              engine.Did(o, o.error)
              && failure == (if cmd.CmdStatus? then Some(ProtocolError) else Raised(o.error))
      ensures failure == Some(ProtocolError) <==> intent.recipient != identity
    {
      if intent.recipient != identity { return Some(ProtocolError); }
      var err := engine.Submit(intent, now);
      return Raised(err);
    }

    method AcceptQuote(quote: Quote, now: int) returns (failure: Option<Failure>)
      requires engine.Valid()
      modifies engine, engine.audit, engine.intents.Values
      ensures var cmd := AcceptQuoteCommand(old(engine.Recs()), quote, now);
              var o := Perform(engine.env, old(engine.Recs()), old(engine.store.View()), cmd);
              engine.Did(o, o.error)
              && failure == (if cmd.CmdStatus? then Some(ProtocolError) else Raised(o.error))
      ensures failure == Some(ProtocolError) <==>
                quote.intentId in old(engine.Recs()) && quote.recipient != old(engine.Recs())[quote.intentId].intent.recipient
    {
      if quote.intentId in engine.intents && quote.recipient != engine.intents[quote.intentId].intent.recipient {
        return Some(ProtocolError);
      }
      var err := engine.ReceiveQuote(quote, now);
      return Raised(err);
    }

    method AcceptReceipt(receipt: Receipt) returns (ghost answer: Answer<VerifyOutcome>, failure: Option<Failure>)
      requires engine.Valid()
      modifies engine, engine.store, engine.audit, engine.intents.Values, engine.adapter.executor
      ensures answer == VerifyAnswer(engine.adapter.env, receipt.settlementRef, receipt.amountSat, SendKind,
                                     old(engine.adapter.executor.Upcoming()))
      ensures var cmd := AcceptReceiptCommand(old(engine.Recs()), receipt, answer);
              var o := Perform(engine.env, old(engine.Recs()), old(engine.store.View()), cmd);
              engine.Did(o, o.error)
              && failure == (if cmd.CmdStatus? then Some(ProtocolError) else Raised(o.error))
      ensures failure == Some(ProtocolError) <==>
                receipt.intentId in old(engine.Recs()) && receipt.recipient != old(engine.Recs())[receipt.intentId].intent.recipient
    {
      answer := VerifyAnswer(engine.adapter.env, receipt.settlementRef, receipt.amountSat, SendKind,
                             engine.adapter.executor.Upcoming());
      if receipt.intentId in engine.intents && receipt.recipient != engine.intents[receipt.intentId].intent.recipient {
        return answer, Some(ProtocolError);
      }
      var err;
      answer, err := engine.ReceiveReceipt(receipt);
      failure := Raised(err);
    }
  }

  // ------------------------------------------------------------------
  // Steps, as the process takes them
  // ------------------------------------------------------------------

  lemma {:induction false} AuditApplied(d: Disk, es: seq<Effect>)
    ensures ApplyAll(d, es).audit == d.audit + LoggedIn(es)
    decreases |es|
  {
    if es != [] {
      var front, last := es[..|es| - 1], es[|es| - 1];
      AuditApplied(d, front);
      ApplyConcat(d, front, [last]);
      assert es == front + [last];
      assert ApplyAll(ApplyAll(d, front), [last]) == Apply(ApplyAll(d, front), last);
    }
  }

  /** The disk after an outcome and its snapshot. */
  lemma DiskAfter(d: Disk, o: Outcome, snap: Snapshot)
    requires OutcomeSaves(d.store, o)
    ensures ApplyAll(d, o.effects + [Snapshotted(snap)]) == Disk(snap, o.store, d.audit + LoggedIn(o.effects))
  {
    ApplyBody(d, o.effects, o.store);
    AuditApplied(d, o.effects);
    ApplyConcat(d, o.effects, [Snapshotted(snap)]);
    var d1 := ApplyAll(d, o.effects);
    assert ApplyAll(d1, [Snapshotted(snap)]) == Apply(d1, Snapshotted(snap));
  }

  /** A whole command, memory, disk and log. */
  lemma CommandStep(env: Env, s: Sys, cmd: Command)
    requires Inv(s) && s.memory.Some?
    ensures var o := Perform(env, s.memory.value.recs, s.disk.store, cmd);
            var m := s.memory.value.(recs := o.recs);
            Next(env, s, Run(Do(cmd))) ==
              Sys(Some(m), Disk(Take(m), o.store, s.disk.audit + LoggedIn(o.effects)), s.log + (o.effects + [Snapshotted(Take(m))]))
  {
    var o := Perform(env, s.memory.value.recs, s.disk.store, cmd);
    PerformOk(env, s.memory.value.recs, s.disk.store, cmd);
    DiskAfter(s.disk, o, Take(s.memory.value.(recs := o.recs)));
  }

  lemma ReceiveStep(env: Env, s: Sys, messages: seq<PeerMessage>)
    requires s.memory.Some?
    ensures var m := Absorb(s.memory.value, messages);
            Next(env, s, Run(Receive(messages))) ==
              Sys(Some(m), Disk(Take(m), s.disk.store, s.disk.audit), s.log + [Snapshotted(Take(m))])
  {
    var m := Absorb(s.memory.value, messages);
    assert ApplyAll(s.disk, [Snapshotted(Take(m))]) == Apply(s.disk, Snapshotted(Take(m)));
  }

  lemma ExecExtends(env: Env, steps: seq<Step>, step: Step)
    requires WaveRun(env, steps) && WaveAction(env, Exec(env, steps), step.act)
    ensures Exec(env, steps + [step]) == Next(env, Exec(env, steps), step)
    ensures WaveRun(env, steps + [step])
  {
    var longer := steps + [step];
    assert longer[..|steps|] == steps;
    forall i | 0 <= i < |longer| ensures WaveAction(env, Exec(env, longer[..i]), longer[i].act) {
      if i < |steps| { assert longer[..i] == steps[..i]; }
    }
  }

  /** `s` is where the run `steps` against the Wavelength adapter leads. */
  ghost predicate Reached(env: Env, steps: seq<Step>, s: Sys) {
    Exec(env, steps) == s && WaveRun(env, steps)
  }

  lemma ReachedIs(env: Env, steps: seq<Step>, s: Sys)
    requires Reached(env, steps, s)
    ensures Exec(env, steps) == s
  {
  }

  lemma CommandRun(env: Env, steps: seq<Step>, s: Sys, cmd: Command, o: Outcome) returns (after: Sys)
    requires Reached(env, steps, s) && s.memory.Some? && WaveCommand(env, s.memory.value.recs, cmd)
    requires o == Perform(env, s.memory.value.recs, s.disk.store, cmd)
    ensures Reached(env, steps + [Run(Do(cmd))], after)
    ensures var m := s.memory.value.(recs := o.recs);
            && after.memory == Some(m) && after.disk == Disk(Take(m), o.store, s.disk.audit + LoggedIn(o.effects))
            && after.log == s.log + (o.effects + [Snapshotted(Take(m))])
  {
    AlwaysInv(env, steps);
    CommandStep(env, s, cmd);
    ExecExtends(env, steps, Run(Do(cmd)));
    after := Next(env, s, Run(Do(cmd)));
  }

  lemma ReceiveRun(env: Env, steps: seq<Step>, s: Sys, messages: seq<PeerMessage>) returns (after: Sys)
    requires Reached(env, steps, s) && s.memory.Some?
    ensures Reached(env, steps + [Run(Receive(messages))], after)
    ensures var m := Absorb(s.memory.value, messages);
            && after.memory == Some(m) && after.disk == Disk(Take(m), s.disk.store, s.disk.audit)
            && after.log == s.log + [Snapshotted(Take(m))]
  {
    ReceiveStep(env, s, messages);
    ExecExtends(env, steps, Run(Receive(messages)));
    after := Next(env, s, Run(Receive(messages)));
  }

  /** Further answers do not change what was recovered before them. */
  lemma {:induction false} SameAnswers(base: Records, store: StoreView, saved: map<string, SavedRecord>,
                                       order: seq<string>, a: Answers, b: Answers)
    requires forall id :: id in order ==> id in saved && AnswerFor(a, id) == AnswerFor(b, id)
    ensures RecoverRecords(base, store, saved, order, a) == RecoverRecords(base, store, saved, order, b)
  {
    if order != [] { SameAnswers(base, store, saved, order[..|order| - 1], a, b); }
  }

  /** A saved record back in memory, before any evidence is queried. */
  function Restored(saved: SavedRecord): Record {
    var rec := Decode(saved);
    if rec.state == Executing then rec.(state := ReconciliationRequired) else rec
  }

  function RestoreEffects(id: string, saved: SavedRecord): seq<Effect> {
    if saved.state == Executing then [Logged(Entry(EvRecoveredExecuting, id, ReconciliationRequired))] else []
  }

  lemma RecoverSplits(id: string, saved: SavedRecord, store: StoreView, answer: Answer<ReconcileOutcome>)
    ensures var q := ReconcileChange(Restored(saved), store, answer);
            RecoverChange(id, saved, store, answer) ==
              if Restored(saved).state == ReconciliationRequired then q.(effects := RestoreEffects(id, saved) + q.effects)
              else Change(Restored(saved), store, [], None)
  {
  }

  lemma ReconcileRestored(env: Env, recs: Records, store: StoreView, id: string, saved: SavedRecord, answer: Answer<ReconcileOutcome>)
    ensures var q := ReconcileChange(Restored(saved), store, answer);
            Perform(env, recs[id := Restored(saved)], store, CmdReconcile(id, answer)) ==
              Outcome(recs[id := q.rec], q.store, q.effects, q.error)
  {
    var q := ReconcileChange(Restored(saved), store, answer);
    assert recs[id := Restored(saved)][id := q.rec] == recs[id := q.rec];
  }

  predicate NeedsEvidence(s: State) { s == Executing || s == ReconciliationRequired }

  ghost predicate WaveSaved(env: Env, saved: map<string, SavedRecord>, order: seq<string>, answers: Answers) {
    forall id :: id in order && id in saved && NeedsEvidence(saved[id].state) ==>
      WaveReconciled(env, Decode(saved[id]), AnswerFor(answers, id))
  }

  lemma WaveNext(env: Env, saved: map<string, SavedRecord>, order: seq<string>, id: string,
                 answers: Answers, answer: Answer<ReconcileOutcome>)
    requires WaveSaved(env, saved, order, answers) && id in saved && id !in order
    requires NeedsEvidence(saved[id].state) ==> WaveReconciled(env, Decode(saved[id]), answer)
    ensures WaveSaved(env, saved, order + [id], answers[id := answer])
  {
    forall x | x in order && x in saved && NeedsEvidence(saved[x].state)
      ensures WaveReconciled(env, Decode(saved[x]), AnswerFor(answers[id := answer], x))
    {
      assert AnswerFor(answers[id := answer], x) == AnswerFor(answers, x);
    }
  }

  lemma NeverRaises(id: string, saved: SavedRecord, store: StoreView, answer: Answer<ReconcileOutcome>)
    requires RecordOk(id, Decode(saved), store)
    ensures RecoverChange(id, saved, store, answer).error.None?
  {
    assert Encode(Decode(saved)) == saved;
    RecoverOne(id, Decode(saved), store, answer);
  }

  /** Where the recovery loop stands after the records in `order`. */
  ghost predicate Recovering(env: Env, base: Records, store: StoreView, saved: map<string, SavedRecord>,
                             order: seq<string>, answers: Answers, o: Outcome) {
    && (forall x :: x in order ==> x in saved)
    && o == RecoverRecords(base, store, saved, order, answers) && o.error.None?
    && WaveSaved(env, saved, order, answers)
  }

  lemma RecoveringIs(env: Env, base: Records, store: StoreView, saved: map<string, SavedRecord>,
                     order: seq<string>, answers: Answers, o: Outcome)
    requires Recovering(env, base, store, saved, order, answers, o) && forall x :: x in order ==> x in saved
    ensures o == RecoverRecords(base, store, saved, order, answers) && o.error.None?
    ensures WaveSaved(env, saved, order, answers)
  {
  }

  lemma RecoverNone(env: Env, base: Records, store: StoreView, saved: map<string, SavedRecord>) returns (o: Outcome)
    ensures Recovering(env, base, store, saved, [], map[], o) && o.recs == base && o.effects == []
  {
    o := Outcome(base, store, [], None);
  }

  /** One more saved record in the recovery loop. */
  lemma RecoverNext(env: Env, base: Records, store: StoreView, saved: map<string, SavedRecord>,
                    order: seq<string>, answers: Answers, o: Outcome, id: string, answer: Answer<ReconcileOutcome>)
    returns (next: Outcome)
    requires Recovering(env, base, store, saved, order, answers, o) && id in saved && id !in order
    requires RecordOk(id, Decode(saved[id]), store)
    requires NeedsEvidence(saved[id].state) ==> WaveReconciled(env, Decode(saved[id]), answer)
    ensures Recovering(env, base, store, saved, order + [id], answers[id := answer], next)
    ensures var c := RecoverChange(id, saved[id], store, answer);
            c.error.None? && next.recs == o.recs[id := c.rec] && next.effects == o.effects + c.effects
  {
    NeverRaises(id, saved[id], store, answer);
    WaveNext(env, saved, order, id, answers, answer);
    SameAnswers(base, store, saved, order, answers, answers[id := answer]);
    assert (order + [id])[..|order|] == order;
    next := RecoverRecords(base, store, saved, order + [id], answers[id := answer]);
  }

  lemma QuietSaves(store: StoreView, o: Outcome)
    requires Quiet(o.effects) && o.store == store
    ensures OutcomeSaves(store, o)
  {
  }

  /** A round of recovery that wrote its snapshot, or had nothing to recover. */
  lemma ReloadStep(s: Sys, base: Memory, order: seq<string>, answers: Answers, live: bool)
    requires Inv(s) && Enumerates(order, s.disk.snapshot.records.Keys)
    requires live ==> s.memory == Some(base)
    requires !live ==> base == FRESH
    ensures var o := RecoverRecords(base.recs, s.disk.store, s.disk.snapshot.records, order, answers);
            var m := Absorb(base.(recs := o.recs), s.disk.snapshot.inbox);
            var b := Reload(base, s.disk, order, answers, live);
            && b.memory == Some(m) && b.error.None? && o.error.None? && o.store == s.disk.store
            && b.effects == o.effects + (if s.disk.snapshot.records == map[] then [] else [Snapshotted(Take(m))])
            && (s.disk.snapshot.records == map[] ==> o.effects == [])
            && ApplyAll(s.disk, o.effects + [Snapshotted(Take(m))]) == Disk(Take(m), s.disk.store, s.disk.audit + LoggedIn(o.effects))
  {
    RecoverySound(s, order, answers, live);
    var o := RecoverRecords(base.recs, s.disk.store, s.disk.snapshot.records, order, answers);
    QuietSaves(s.disk.store, o);
    EmptyOrder(order, s.disk.snapshot.records.Keys);
    DiskAfter(s.disk, o, Take(Absorb(base.(recs := o.recs), s.disk.snapshot.inbox)));
  }

  lemma SavedOk(env: Env, steps: seq<Step>, s: Sys)
    requires Reached(env, steps, s)
    ensures forall id :: id in s.disk.snapshot.records ==> RecordOk(id, Decode(s.disk.snapshot.records[id]), s.disk.store)
  {
    AlwaysInv(env, steps);
    forall id | id in s.disk.snapshot.records ensures RecordOk(id, Decode(s.disk.snapshot.records[id]), s.disk.store) {
      assert Durable(s.disk)[id] == Decode(s.disk.snapshot.records[id]);
    }
  }

  lemma ReloadRun(env: Env, steps: seq<Step>, s: Sys, base: Memory, order: seq<string>, answers: Answers, live: bool, o: Outcome)
    returns (after: Sys)
    requires Reached(env, steps, s) && Enumerates(order, s.disk.snapshot.records.Keys)
    requires if live then s.memory == Some(base) else base == FRESH
    requires o == RecoverRecords(base.recs, s.disk.store, s.disk.snapshot.records, order, answers)
    requires WaveSaved(env, s.disk.snapshot.records, order, answers)
    ensures Reached(env, steps + [Run(if live then Recover(order, answers) else Boot(order, answers))], after)
    ensures var m := Absorb(base.(recs := o.recs), s.disk.snapshot.inbox);
            && after.memory == Some(m)
            && (s.disk.snapshot.records == map[] ==> o.effects == [] && after.disk == s.disk && after.log == s.log)
            && (s.disk.snapshot.records != map[] ==>
                  && after.disk == Disk(Take(m), s.disk.store, s.disk.audit + LoggedIn(o.effects))
                  && after.log == s.log + (o.effects + [Snapshotted(Take(m))]))
  {
    var act := if live then Recover(order, answers) else Boot(order, answers);
    AlwaysInv(env, steps);
    ReloadStep(s, base, order, answers, live);
    SavedAnswers(env, s, order, answers);
    ExecExtends(env, steps, Run(act));
    after := Next(env, s, Run(act));
  }

  lemma SavedAnswers(env: Env, s: Sys, order: seq<string>, answers: Answers)
    requires Enumerates(order, s.disk.snapshot.records.Keys) && WaveSaved(env, s.disk.snapshot.records, order, answers)
    ensures WaveAnswers(env, Durable(s.disk), answers)
  {
    forall id | id in Durable(s.disk) && NeedsEvidence(Durable(s.disk)[id].state)
      ensures WaveReconciled(env, Durable(s.disk)[id], AnswerFor(answers, id))
    {
      assert id in s.disk.snapshot.records && id in order;
    }
  }

  /** What holds of every run holds of every process whose earlier lives ended
      between commands: each intent is dispatched at most once, the money asked
      for stays within the approved budgets, and the audit file shows each
      intent's state. */
  lemma ProcessGuarantees(env: Env, steps: seq<Step>, s: Sys, id: string)
    requires Reached(env, steps, s) && NoKills(steps)
    ensures Executions(s.log, id) <= 1
    ensures TotalSent(s.log) <= SumBudgets(ApprovedIds(Durable(s.disk)), Durable(s.disk))
    ensures Audited(s.disk.audit, id) == StateOf(Durable(s.disk), id)
  {
    AtMostOnce(env, steps, id);
    MoneyBound(env, steps);
    AuditReconstructs(env, steps, id);
  }

  // ------------------------------------------------------------------
  // The process
  // ------------------------------------------------------------------

  /** The keys of a JSON object, in some order. */
  method Keys(records: map<string, SavedRecord>) returns (order: seq<string>)
    ensures Enumerates(order, records.Keys)
  {
    order := [];
    var left := records.Keys;
    while left != {}
      invariant Enumerates(order, records.Keys - left) && left <= records.Keys
      decreases left
    {
      var id :| id in left;
      order, left := order + [id], left - {id};
    }
  }

  /** The snapshot file, replaced atomically. */
  class ProcessStateStore {
    var file: Snapshot

    constructor (existing: Snapshot)
      ensures file == existing
    {
      file := existing;
    }

    method Save(snapshot: Snapshot)
      modifies this
      ensures file == snapshot
    {
      file := snapshot;
    }
  }

  function Redacted(value: string): string {
    if |value| <= 8 then value else value[..8] + "..."
  }

  function MessageFor(inbox: seq<PeerMessage>, prefix: string): Option<PeerMessage> {
    if inbox == [] then None
    else if Redacted(inbox[0].messageId) == prefix then Some(inbox[0])
    else MessageFor(inbox[1..], prefix)
  }

  function FullHash(recs: Records, intentId: string, given: string): string {
    if intentId in recs && recs[intentId].prepared.Some? && given == Redacted(recs[intentId].prepared.value.preparedHash)
    then recs[intentId].prepared.value.preparedHash else given
  }

  /** What is shown of two identifiers is the same exactly when they are equal, or both
      are long and begin alike. */
  lemma SameDisplay(a: string, b: string)
    ensures Redacted(a) == Redacted(b) <==> a == b || (|a| > 8 && |b| > 8 && a[..8] == b[..8])
    ensures |a| <= 8 ==> Redacted(a) == a
    ensures |a| > 8 ==> Redacted(a) == a[..8] + "..."
  {
    if |a| > 8 { LongIsShortened(a); }
    if |b| > 8 { LongIsShortened(b); }
  }

  lemma LongIsShortened(a: string)
    requires |a| > 8
    ensures |Redacted(a)| == 11 && Redacted(a)[..8] == a[..8]
  {
  }

  /** The inbox lookup gives the first message shown by that prefix, and none exactly
      when there is none. */
  lemma {:induction false} MessageForExactly(inbox: seq<PeerMessage>, prefix: string)
    ensures MessageFor(inbox, prefix).None? <==> forall k :: 0 <= k < |inbox| ==> Redacted(inbox[k].messageId) != prefix
    ensures MessageFor(inbox, prefix).Some? ==> exists k :: FirstShown(inbox, prefix, k) && inbox[k] == MessageFor(inbox, prefix).value
  {
    hide Redacted;
    if inbox != [] {
      var rest := inbox[1..];
      MessageForExactly(rest, prefix);
      assert forall k :: 0 <= k < |rest| ==> rest[k] == inbox[k + 1];
      if Redacted(inbox[0].messageId) == prefix {
        assert FirstShown(inbox, prefix, 0);
      } else if MessageFor(rest, prefix).Some? {
        var k :| FirstShown(rest, prefix, k) && rest[k] == MessageFor(rest, prefix).value;
        forall j | 0 <= j < k + 1 ensures Redacted(inbox[j].messageId) != prefix { assert j > 0 ==> inbox[j] == rest[j - 1]; }
        assert FirstShown(inbox, prefix, k + 1) && inbox[k + 1] == rest[k];
      } else {
        forall k | 0 <= k < |inbox| ensures Redacted(inbox[k].messageId) != prefix { assert k > 0 ==> inbox[k] == rest[k - 1]; }
      }
    }
  }

  ghost predicate FirstShown(inbox: seq<PeerMessage>, prefix: string, k: int) {
    && 0 <= k < |inbox| && Redacted(inbox[k].messageId) == prefix
    && forall j :: 0 <= j < k ==> Redacted(inbox[j].messageId) != prefix
  }

  /** The approve handler gets through exactly with the hash the intent holds, in full
      or as it is shown, and the rest as the engine demands. */
  lemma ApprovesByDisplay(env: Env, recs: Records, store: StoreView, id: string, quoteId: string, given: string, approver: string)
    requires id in recs
    ensures Perform(env, recs, store, CmdApprove(Approval(id, quoteId, FullHash(recs, id, given), approver))).error.None? <==>
              && recs[id].state == State.Prepared
              && recs[id].quote.Some? && recs[id].quote.value.quoteId == quoteId
              && recs[id].prepared.Some?
              && var full := recs[id].prepared.value.preparedHash;
                 (given == full || given == Redacted(full)) && !Used(store, Approval(id, quoteId, full, approver))
  {
    ApproveGate(env, recs, store, Approval(id, quoteId, FullHash(recs, id, given), approver));
  }

  /** With nothing QUOTED, prepare is refused: a pick in another state. */
  lemma NothingToPrepare(env: Env, recs: Records, store: StoreView, now: int) returns (cmd: Command)
    requires forall id :: id in recs ==> recs[id].state != Quoted
    ensures cmd.CmdPrepare? && WaveCommand(env, recs, cmd)
    ensures Perform(env, recs, store, cmd) == Outcome(recs, store, [], Some(StateError))
  {
    var answer := Answer([], PrepareAdapterError);
    if "" in recs && recs[""].quote.Some? {
      var r := recs[""];
      answer := PrepareAnswer(env, r.quote.value.instruction, r.intent.amountSat, r.intent.maxFeeSat, 0, ReplyAdapterError);
    }
    cmd := CmdPrepare("", answer, now);
    if "" in recs { assert recs["" := recs[""]] == recs; }
  }

  /** With nothing APPROVED, execute is refused. */
  lemma NothingToExecute(env: Env, recs: Records, store: StoreView) returns (cmd: Command)
    requires forall id :: id in recs ==> recs[id].state != Approved
    ensures cmd.CmdExecute? && WaveCommand(env, recs, cmd)
    ensures Perform(env, recs, store, cmd) == Outcome(recs, store, [], Some(StateError))
  {
    var answer := Answer([], ExecuteOtherError);
    if "" in recs && recs[""].prepared.Some? {
      var p := recs[""].prepared.value;
      answer := ExecuteAnswer(env, p.payload, p.preparedHash, 0, ReplyAdapterError);
    }
    cmd := CmdExecute("", answer);
    if "" in recs { assert recs["" := recs[""]] == recs; }
  }

  predicate IsPending(r: Record) {
    r.state == ReconciliationRequired && r.reconciliation.Some? && r.reconciliation.value.status == PENDING
  }

  predicate AnyPending(recs: Records) {
    exists id :: id in recs && IsPending(recs[id])
  }

  predicate InRange(maxWait: real, poll: real) {
    0.0 <= maxWait <= 720.0 && 0.01 <= poll <= 60.0
  }

  /** A recovery round over the saved records. */
  ghost predicate IsRound(s: Sys, act: Action) {
    act.Recover? && s.memory.Some? && Enumerates(act.order, s.disk.snapshot.records.Keys)
  }

  /** Step `n` was a recovery round that led to `s`. */
  ghost predicate PolledAt(env: Env, to: seq<Step>, n: nat, s: Sys) {
    && n < |to| && to[n].Run? && IsRound(Exec(env, to[..n]), to[n].act)
    && Reached(env, to[..n + 1], s) && s.memory.Some?
  }

  /** `to` extends `from` by one recovery round for each state in the trail. */
  ghost predicate Polled(env: Env, from: seq<Step>, to: seq<Step>, trail: seq<Sys>) {
    && |to| == |from| + |trail| && from <= to
    && forall k :: 0 <= k < |trail| ==> PolledAt(env, to, |from| + k, trail[k])
  }

  predicate StillPending(s: Sys) {
    s.memory.Some? && AnyPending(s.memory.value.recs)
  }

  lemma PolledNone(env: Env, steps: seq<Step>)
    ensures Polled(env, steps, steps, [])
  {
  }

  lemma PolledStays(env: Env, to: seq<Step>, n: nat, s: Sys, step: Step)
    requires PolledAt(env, to, n, s)
    ensures PolledAt(env, to + [step], n, s)
  {
    hide Reached, IsRound;
    assert (to + [step])[..n] == to[..n];
    assert (to + [step])[..n + 1] == to[..n + 1];
  }

  lemma PolledLast(env: Env, to: seq<Step>, act: Action, s: Sys)
    requires IsRound(Exec(env, to), act) && s.memory.Some? && Reached(env, to + [Run(act)], s)
    ensures PolledAt(env, to + [Run(act)], |to|, s)
  {
    hide Reached, IsRound;
    assert (to + [Run(act)])[..|to|] == to;
    assert (to + [Run(act)])[..|to| + 1] == to + [Run(act)];
  }

  lemma PolledMore(env: Env, from: seq<Step>, to: seq<Step>, trail: seq<Sys>, act: Action, s: Sys)
    requires Polled(env, from, to, trail)
    requires IsRound(Exec(env, to), act) && s.memory.Some? && Reached(env, to + [Run(act)], s)
    ensures Polled(env, from, to + [Run(act)], trail + [s])
  {
    hide PolledAt, Reached, IsRound, Exec;
    var longer := trail + [s];
    assert longer[|trail|] == s;
    forall k | 0 <= k < |longer| ensures PolledAt(env, to + [Run(act)], |from| + k, longer[k]) {
      if k < |trail| {
        PolledStays(env, to, |from| + k, trail[k], Run(act));
      } else {
        PolledLast(env, to, act, s);
      }
    }
  }

  /** The time `naps` full poll intervals take. */
  function Naps(naps: nat, poll: real): real { naps as real * poll }

  lemma RoundBound(rounds: nat, poll: real, maxWait: real)
    requires InRange(maxWait, poll) && (rounds >= 1 ==> Naps(rounds - 1, poll) < maxWait)
    ensures rounds <= 72000
    ensures Naps(0, poll) == 0.0 && Naps(rounds + 1, poll) == Naps(rounds, poll) + poll
  {
    if rounds >= 1 {
      var n := (rounds - 1) as real;
      assert n * 0.01 <= n * poll;
    }
  }

  /** time.monotonic and time.sleep: reading the clock and sleeping both take at
      least the time they must, plus whatever the script says. */
  type Span = r: real | r >= 0.0 witness 0.0

  class Clock {
    var now: real
    var script: seq<Span>

    constructor (now: real, script: seq<Span>) {
      this.now, this.script := now, script;
    }

    method Monotonic() returns (t: real)
      modifies this
      ensures t == now >= old(now)
    {
      if script != [] { now, script := now + script[0], script[1..]; }
      t := now;
    }

    method Sleep(span: real)
      requires span >= 0.0
      modifies this
      ensures now >= old(now) + span
    {
      now := now + span;
      if script != [] { now, script := now + script[0], script[1..]; }
    }
  }

  lemma ReceiptIsWave(env: Env, recs: Records, receipt: Receipt, reply: Reply)
    ensures WaveCommand(env, recs, AcceptReceiptCommand(recs, receipt,
              VerifyAnswer(env, receipt.settlementRef, receipt.amountSat, SendKind, reply)))
  {
  }

  class HermesRegtestProcess {
    const env: Env
    const identity: string
    const approver: Option<string>
    const engine: PaymentOrchestrator
    const peer: HermesPeer
    const state: ProcessStateStore
    var inbox: seq<PeerMessage>
    var inboxIds: set<string>
    ghost var log: seq<Effect>      // every durable effect under this state root
    ghost var synced: seq<Effect>   // the part of the engine's trace already in it
    ghost var steps: seq<Step>      // every step under this state root
    ghost var reached: Sys          // where they lead

    ghost function Held(): Memory
      reads this, engine, engine.intents.Values
    {
      Memory(engine.Recs(), inbox, inboxIds)
    }

    ghost function Files(): Disk
      reads state, engine, engine.store, engine.audit
    {
      Disk(state.file, engine.store.View(), engine.audit.entries)
    }

    ghost predicate Wired()
      reads this, engine, engine.store, engine.audit, engine.adapter.executor
    {
      && engine.Valid() && engine.env == env && engine.adapter.env == env
      && peer.engine == engine && peer.identity == identity
    }

    /** The process is where its steps lead. */
    ghost predicate Valid()
      reads this, state, engine, engine.store, engine.audit, engine.intents.Values, engine.adapter.executor
    {
      && Wired() && synced == engine.trace
      && Reached(env, steps, reached) && reached == Sys(Some(Held()), Files(), log)
    }


    /** Start on the files that an earlier life under the same state root left,
        however it ended: `past` led to `s`, whose disk these files are. */
    constructor (env: Env, identity: string, approver: Option<string>, adapter: WavelengthAdapter,
                 snapshot: Snapshot, existing: StoreView, lines: seq<AuditLine>, ghost past: seq<Step>, ghost s: Sys)
      requires adapter.env == env && Reached(env, past, s)
      requires s.disk.snapshot == snapshot && s.disk.store == existing
      requires |lines| == |s.disk.audit| && forall i :: 0 <= i < |lines| ==> lines[i].entry == s.disk.audit[i]
      modifies adapter.executor
      ensures Valid() && this.env == env && engine.adapter == adapter
      ensures |steps| == |past| + 1 && steps[..|past|] == past && steps[|past|].Run? && steps[|past|].act.Boot?
      ensures fresh(engine) && fresh(engine.store) && fresh(engine.audit) && fresh(engine.intents.Values) && fresh(state)
    {
      hide Valid, Reached, LoggedIn, RpcsIn, Exec, Enumerates;
      this.env, this.identity, this.approver := env, identity, approver;
      var orchestrator := new PaymentOrchestrator(env, adapter, existing, lines);
      engine := orchestrator;
      var endpoint := new HermesPeer(identity, orchestrator);
      peer := endpoint;
      var files := new ProcessStateStore(snapshot);
      state := files;
      inbox, inboxIds := [], {};
      steps, reached, log, synced := past, s, s.log, [];
      new;
      assert engine.audit.entries == s.disk.audit;
      ghost var act := MaybeRecover(false);
    }

    /** What _snapshot_state writes. */
    method EncodeState() returns (snapshot: Snapshot)
      requires engine.Valid()
      ensures snapshot == Take(Held())
    {
      var records: map<string, SavedRecord> := map[];
      for i := 0 to |engine.order|
        invariant forall id :: id in records <==> id in engine.order[..i]
        invariant forall id :: id in records ==> records[id] == Encode(engine.intents[id].Value())
      {
        var id := engine.order[i];
        records := records[id := Encode(engine.intents[id].Value())];
      }
      assert records == EncodeAll(engine.Recs());
      snapshot := Snapshot(records, inbox);
    }

    /** _snapshot_state, of the memory `held`. */
    method SnapshotState(ghost held: Memory)
      requires engine.Valid() && synced <= engine.trace && held == Held()
      modifies state, this`log, this`synced
      ensures state.file == Take(held) && synced == engine.trace
      ensures log == old(log) + (engine.trace[|old(synced)|..] + [Snapshotted(Take(held))])
    {
      hide Take, LoggedIn, RpcsIn;
      var snapshot := EncodeState();
      log := log + (engine.trace[|synced|..] + [Snapshotted(snapshot)]);
      synced := engine.trace;
      state.Save(snapshot);
    }

    /** Append the messages whose id is new. */
    method AbsorbMessages(messages: seq<PeerMessage>)
      modifies this`inbox, this`inboxIds
      ensures forall recs :: Memory(recs, inbox, inboxIds) == Absorb(Memory(recs, old(inbox), old(inboxIds)), messages)
    {
      for i := 0 to |messages|
        invariant forall recs :: Memory(recs, inbox, inboxIds) == Absorb(Memory(recs, old(inbox), old(inboxIds)), messages[..i])
      {
        assert messages[..i + 1][..i] == messages[..i];
        var msg := messages[i];
        if msg.messageId !in inboxIds {
          inboxIds := inboxIds + {msg.messageId};
          inbox := inbox + [msg];
        }
      }
      assert messages[..|messages|] == messages;
    }

    /** A crash during execute looks like an ambiguous dispatch. */
    method Interrupt(id: string, rec: IntentRecord)
      requires Wired() && rec !in engine.intents.Values
      modifies engine`trace, engine.audit, rec
      ensures Wired() && engine.Recs() == old(engine.Recs())
      ensures rec.Value() == (if old(rec.state) == Executing then old(rec.Value()).(state := ReconciliationRequired) else old(rec.Value()))
      ensures engine.trace == old(engine.trace) +
                (if old(rec.state) == Executing then [Logged(Entry(EvRecoveredExecuting, id, ReconciliationRequired))] else [])
    {
      hide LoggedIn, RpcsIn;
      if rec.state == Executing {
        rec.state := ReconciliationRequired;
        engine.NoteEntry(Entry(EvRecoveredExecuting, id, rec.state));
      }
    }

    /** Put a saved record back, never in a state that could be executed again. */
    method Restore(id: string, saved: SavedRecord) returns (unresolved: bool)
      requires Wired()
      modifies engine, engine.audit
      ensures Wired() && engine.store.View() == old(engine.store.View())
      ensures engine.Recs() == old(engine.Recs())[id := Restored(saved)]
      ensures engine.trace == old(engine.trace) + RestoreEffects(id, saved)
      ensures unresolved <==> Restored(saved).state == ReconciliationRequired
      ensures fresh(engine.intents.Values - old(engine.intents.Values))
      ensures id in engine.intents && engine.intents[id].Value() == Restored(saved)
    {
      hide LoggedIn, RpcsIn;
      var rec := new IntentRecord(Decode(saved));
      Interrupt(id, rec);
      engine.Track(id, rec);
      unresolved := rec.state == ReconciliationRequired;
    }

    /** One saved record back in memory, with fresh evidence where needed. */
    method RecoverRecord(id: string, saved: SavedRecord) returns (ghost answer: Answer<ReconcileOutcome>, err: Option<Error>)
      requires Wired()
      modifies engine, engine.audit, engine.intents.Values, engine.adapter.executor
      ensures var c := RecoverChange(id, saved, old(engine.store.View()), answer);
              && Wired() && engine.store.View() == old(engine.store.View()) && err == c.error
              && engine.Recs() == old(engine.Recs())[id := c.rec] && engine.trace == old(engine.trace) + c.effects
      ensures NeedsEvidence(saved.state) ==> WaveReconciled(env, Decode(saved), answer)
      ensures fresh(engine.intents.Values - old(engine.intents.Values))
    {
      hide ReconcileChange, ReconcileAnswer, LoggedIn, RpcsIn, Perform;
      answer, err := Answer([], ReconcileRaised), None;
      ghost var recs, store := engine.Recs(), engine.store.View();
      var unresolved := Restore(id, saved);
      if unresolved {
        answer, err := engine.Reconcile(id);
        assert WaveReconciled(env, Restored(saved), answer);
        ReconcileRestored(env, recs, store, id, saved, answer);
      }
      RecoverSplits(id, saved, store, answer);
    }

    /** The recovery loop over the saved records. None of them raises: a record
        that needs reconciliation has its prepared payload. */
    method RestoreRecords(records: map<string, SavedRecord>, order: seq<string>) returns (ghost answers: Answers)
      requires Wired() && Enumerates(order, records.Keys)
      requires forall id :: id in records ==> RecordOk(id, Decode(records[id]), engine.store.View())
      modifies engine, engine.audit, engine.intents.Values, engine.adapter.executor
      ensures Wired() && engine.store.View() == old(engine.store.View())
      ensures fresh(engine.intents.Values - old(engine.intents.Values))
      ensures var o := RecoverRecords(old(engine.Recs()), old(engine.store.View()), records, order, answers);
              o.error.None? && engine.Recs() == o.recs && engine.trace == old(engine.trace) + o.effects
      ensures WaveSaved(env, records, order, answers)
    {
      hide Recovering, RecoverChange, RecoverRecords, WaveReconciled, LoggedIn, RpcsIn, RecordOk;
      answers := map[];
      ghost var store, start := engine.store.View(), engine.trace;
      ghost var o := RecoverNone(env, engine.Recs(), store, records);
      for i := 0 to |order|
        invariant Wired() && engine.store.View() == store
        invariant fresh(engine.intents.Values - old(engine.intents.Values))
        invariant Recovering(env, old(engine.Recs()), store, records, order[..i], answers, o)
        invariant engine.Recs() == o.recs && engine.trace == start + o.effects
      {
        var id := order[i];
        assert order[..i + 1] == order[..i] + [id];
        var answer, err := RecoverRecord(id, records[id]);
        o := RecoverNext(env, old(engine.Recs()), store, records, order[..i], answers, o, id, answer);
        assert err.None?;
        answers := answers[id := answer];
      }
      assert order[..|order|] == order;
      RecoveringIs(env, old(engine.Recs()), store, records, order, answers, o);
    }

    /** Persist the end of `step`. */
    method Land(ghost step: Step, ghost after: Sys)
      requires Wired() && synced <= engine.trace && after.memory == Some(Held())
      requires Reached(env, steps + [step], after)
      requires after.disk == Disk(Take(after.memory.value), engine.store.View(), engine.audit.entries)
      requires after.log == log + (engine.trace[|synced|..] + [Snapshotted(Take(after.memory.value))])
      modifies state, this`log, this`synced, this`steps, this`reached
      ensures Valid() && steps == old(steps) + [step] && reached == after
    {
      hide Reached;
      SnapshotState(after.memory.value);
      steps, reached := steps + [step], after;
    }

    /** A `step` without any effect. */
    ghost method Skip(step: Step, after: Sys)
      requires Wired() && synced == engine.trace && after == Sys(Some(Held()), Files(), log)
      requires Reached(env, steps + [step], after)
      modifies this`steps, this`reached
      ensures Valid() && steps == old(steps) + [step]
    {
      hide Reached;
      steps, reached := steps + [step], after;
    }

    /** The end of every handler: the command `cmd` has run, now persist. */
    method Finish(ghost cmd: Command, ghost o: Outcome)
      requires Wired() && Reached(env, steps, reached)
      requires reached.memory.Some? && reached.memory.value.inbox == inbox && reached.memory.value.inboxIds == inboxIds
      requires reached.log == log && reached.disk.audit == engine.opening + LoggedIn(synced)
      requires WaveCommand(env, reached.memory.value.recs, cmd)
      requires o == Perform(env, reached.memory.value.recs, reached.disk.store, cmd)
      requires engine.Recs() == o.recs && engine.store.View() == o.store && engine.trace == synced + o.effects
      modifies state, this`log, this`synced, this`steps, this`reached
      ensures Valid() && steps == old(steps) + [Run(Do(cmd))]
    {
      hide Reached, Perform, WaveCommand;
      ghost var after := CommandRun(env, steps, reached, cmd, o);
      LoggedConcat(synced, o.effects);
      assert engine.trace[|synced|..] == o.effects;
      Land(Run(Do(cmd)), after);
    }

    /** Bring the saved records and messages back into memory. */
    method ReadBack(saved: Snapshot) returns (ghost order: seq<string>, ghost answers: Answers, ghost o: Outcome)
      requires Wired()
      requires forall id :: id in saved.records ==> RecordOk(id, Decode(saved.records[id]), engine.store.View())
      modifies this`inbox, this`inboxIds, engine, engine.audit, engine.intents.Values, engine.adapter.executor
      ensures Wired() && engine.store.View() == old(engine.store.View())
      ensures fresh(engine.intents.Values - old(engine.intents.Values))
      ensures Enumerates(order, saved.records.Keys) && WaveSaved(env, saved.records, order, answers)
      ensures o == RecoverRecords(old(engine.Recs()), old(engine.store.View()), saved.records, order, answers)
      ensures Held() == Absorb(Memory(o.recs, old(inbox), old(inboxIds)), saved.inbox)
      ensures engine.trace == old(engine.trace) + o.effects
    {
      hide WaveSaved, LoggedIn, RpcsIn, RecoverRecords, Absorb, RecordOk, Enumerates;
      var keys := Keys(saved.records);
      order := keys;
      answers := RestoreRecords(saved.records, keys);
      o := RecoverRecords(old(engine.Recs()), old(engine.store.View()), saved.records, keys, answers);
      AbsorbMessages(saved.inbox);
    }

    /** _maybe_recover: when starting (`live` is false) or in the recover command. */
    method MaybeRecover(ghost live: bool) returns (ghost act: Action)
      requires Wired() && synced == engine.trace && Reached(env, steps, reached)
      requires reached.disk == Files() && reached.log == log
      requires if live then reached.memory == Some(Held()) else Held() == FRESH
      modifies this`inbox, this`inboxIds, this`log, this`synced, this`steps, this`reached, state
      modifies engine, engine.audit, engine.intents.Values, engine.adapter.executor
      ensures Valid() && steps == old(steps) + [Run(act)] && if live then act.Recover? else act.Boot?
      ensures Enumerates(act.order, old(state.file).records.Keys)
      ensures fresh(engine.intents.Values - old(engine.intents.Values))
    {
      hide Reached, WaveSaved, LoggedIn, RpcsIn, RecoverRecords, Absorb, Enumerates, RecordOk;
      ghost var base := Held();
      var saved := state.file;
      SavedOk(env, steps, reached);
      ghost var order, answers, o := ReadBack(saved);
      ghost var after := ReloadRun(env, steps, reached, base, order, answers, live, o);
      act := if live then Recover(order, answers) else Boot(order, answers);
      LoggedConcat(synced, o.effects);
      assert engine.trace[|synced|..] == o.effects;
      if saved.records != map[] {
        Land(Run(act), after);
      } else {
        Skip(Run(act), after);
      }
    }

    // ----------------------------------------------------------------
    // Handlers
    // ----------------------------------------------------------------

    method HandleStatus()
      requires Valid()
      modifies state, this`log, this`synced, this`steps, this`reached
      ensures Valid() && steps == old(steps) + [Run(Do(CmdStatus))]
    {
      hide Reached;
      Finish(CmdStatus, Outcome(engine.Recs(), engine.store.View(), [], None));
    }

    /** `received` is what the transport returned, None when it raised: then there is
        only the snapshot. */
    method HandleReceive(received: Option<seq<PeerMessage>>) returns (failure: Option<Failure>)
      requires Valid()
      modifies state, this`inbox, this`inboxIds, this`log, this`synced, this`steps, this`reached
      ensures Valid() && steps == old(steps) + [Run(if received.Some? then Receive(received.value) else Do(CmdStatus))]
      ensures failure == if received.Some? then None else Some(TransportError)
    {
      hide Reached, Absorb;
      if received.None? {
        HandleStatus();
        return Some(TransportError);
      }
      var messages := received.value;
      AbsorbMessages(messages);
      ghost var after := ReceiveRun(env, steps, reached, messages);
      assert engine.trace[|synced|..] == [];
      Land(Run(Receive(messages)), after);
      failure := None;
    }

    /** What a handler reports for the command it ran; CmdStatus here stands for
        a message it refused before the engine. */
    ghost function Reported(recs: Records, store: StoreView, cmd: Command): Option<Failure> {
      if cmd.CmdStatus? then Some(ProtocolError) else Raised(Perform(env, recs, store, cmd).error)
    }

    /** The same for a handler that ends by reading the state of intent `id`: an
        intent the store knows and memory does not makes that raise. */
    ghost function Replied(recs: Records, store: StoreView, cmd: Command, id: string): Option<Failure> {
      var reported := Reported(recs, store, cmd);
      if reported.None? && id !in Perform(env, recs, store, cmd).recs then Some(EngineError(UnknownIntent)) else reported
    }

    method HandleSubmitIntent(intent: Intent, now: int) returns (publish: bool, ghost cmd: Command, failure: Option<Failure>)
      requires Valid()
      modifies this, state, engine, engine.store, engine.audit, engine.intents.Values
      ensures Valid() && steps == old(steps) + [Run(Do(cmd))] && fresh(engine.intents.Values - old(engine.intents.Values))
      ensures cmd == if intent.sender == identity then CmdSubmit(intent, now) else CmdStatus
      ensures failure == Replied(old(engine.Recs()), old(engine.store.View()), cmd, intent.id)
      ensures publish <==> Reported(old(engine.Recs()), old(engine.store.View()), cmd).None?
    {
      hide Reached, Perform, LoggedIn, RpcsIn;
      cmd := if intent.sender == identity then CmdSubmit(intent, now) else CmdStatus;
      ghost var o := Perform(env, engine.Recs(), engine.store.View(), cmd);
      publish, failure := peer.SubmitIntent(intent, now);
      if failure.None? && intent.id !in engine.intents { failure := Some(EngineError(UnknownIntent)); }
      Finish(cmd, o);
    }

    /** _find_inbox_message: the first one whose display prefix matches. */
    method FindInboxMessage(prefix: string) returns (found: Option<PeerMessage>)
      ensures found == MessageFor(inbox, prefix)
    {
      for i := 0 to |inbox|
        invariant MessageFor(inbox, prefix) == MessageFor(inbox[i..], prefix)
      {
        assert inbox[i..][1..] == inbox[i + 1..];
        if Redacted(inbox[i].messageId) == prefix { return Some(inbox[i]); }
      }
      found := None;
    }

    method HandleAcceptIntent(prefix: string, now: int) returns (ghost cmd: Command, failure: Option<Failure>)
      requires Valid()
      modifies this, state, engine, engine.store, engine.audit, engine.intents.Values
      ensures Valid() && steps == old(steps) + [Run(Do(cmd))] && fresh(engine.intents.Values - old(engine.intents.Values))
      ensures var found := MessageFor(old(inbox), prefix);
              cmd == if found.Some? && found.value.message.IntentMessage?
                     then AcceptIntentCommand(identity, found.value.message.intent, now) else CmdStatus
      ensures var found := MessageFor(old(inbox), prefix);
              failure == if found.Some? && found.value.message.IntentMessage?
                         then Replied(old(engine.Recs()), old(engine.store.View()), cmd, found.value.message.intent.id)
                         else Some(ProtocolError)
    {
      hide Reached, Perform, LoggedIn, RpcsIn, MessageFor;
      var found := FindInboxMessage(prefix);
      if found.None? || !found.value.message.IntentMessage? {
        cmd := CmdStatus;
        HandleStatus();
        return cmd, Some(ProtocolError);
      }
      cmd, failure := TakeIntent(found.value.message.intent, now);
    }

    method TakeIntent(intent: Intent, now: int) returns (ghost cmd: Command, failure: Option<Failure>)
      requires Valid()
      modifies this, state, engine, engine.store, engine.audit, engine.intents.Values
      ensures Valid() && steps == old(steps) + [Run(Do(cmd))] && fresh(engine.intents.Values - old(engine.intents.Values))
      ensures cmd == AcceptIntentCommand(identity, intent, now)
      ensures failure == Replied(old(engine.Recs()), old(engine.store.View()), cmd, intent.id)
    {
      hide Reached, Perform, LoggedIn, RpcsIn;
      cmd := AcceptIntentCommand(identity, intent, now);
      ghost var o := Perform(env, engine.Recs(), engine.store.View(), cmd);
      failure := peer.AcceptIntent(intent, now);
      if failure.None? && intent.id !in engine.intents { failure := Some(EngineError(UnknownIntent)); }
      Finish(cmd, o);
    }

    method HandleAcceptQuote(prefix: string, now: int) returns (ghost cmd: Command, failure: Option<Failure>)
      requires Valid()
      modifies this, state, engine, engine.store, engine.audit, engine.intents.Values
      ensures Valid() && steps == old(steps) + [Run(Do(cmd))] && fresh(engine.intents.Values - old(engine.intents.Values))
      ensures var found := MessageFor(old(inbox), prefix);
              cmd == if found.Some? && found.value.message.QuoteMessage?
                     then AcceptQuoteCommand(old(engine.Recs()), found.value.message.quote, now) else CmdStatus
      ensures failure == Reported(old(engine.Recs()), old(engine.store.View()), cmd)
    {
      hide Reached, Perform, LoggedIn, RpcsIn;
      var found := FindInboxMessage(prefix);
      if found.None? || !found.value.message.QuoteMessage? {
        cmd := CmdStatus;
        HandleStatus();
        return cmd, Some(ProtocolError);
      }
      cmd, failure := TakeQuote(found.value.message.quote, now);
    }

    method TakeQuote(quote: Quote, now: int) returns (ghost cmd: Command, failure: Option<Failure>)
      requires Valid()
      modifies this, state, engine, engine.store, engine.audit, engine.intents.Values
      ensures Valid() && steps == old(steps) + [Run(Do(cmd))] && fresh(engine.intents.Values - old(engine.intents.Values))
      ensures cmd == AcceptQuoteCommand(old(engine.Recs()), quote, now)
      ensures failure == Reported(old(engine.Recs()), old(engine.store.View()), cmd)
    {
      hide Reached, Perform, LoggedIn, RpcsIn;
      cmd := AcceptQuoteCommand(engine.Recs(), quote, now);
      ghost var o := Perform(env, engine.Recs(), engine.store.View(), cmd);
      failure := peer.AcceptQuote(quote, now);
      Finish(cmd, o);
    }

    /** A quote injected locally bypasses the peer's recipient check. */
    method HandleSubmitQuoteLocal(quote: Quote, now: int) returns (failure: Option<Failure>)
      requires Valid()
      modifies this, state, engine, engine.store, engine.audit, engine.intents.Values
      ensures Valid() && steps == old(steps) + [Run(Do(CmdReceiveQuote(quote, now)))]
      ensures fresh(engine.intents.Values - old(engine.intents.Values))
      ensures failure == Reported(old(engine.Recs()), old(engine.store.View()), CmdReceiveQuote(quote, now))
    {
      hide Reached, Perform, LoggedIn, RpcsIn;
      ghost var cmd := CmdReceiveQuote(quote, now);
      ghost var o := Perform(env, engine.Recs(), engine.store.View(), cmd);
      var err := engine.ReceiveQuote(quote, now);
      failure := Raised(err);
      Finish(cmd, o);
    }

    method HandleAcceptReceipt(prefix: string) returns (ghost cmd: Command, failure: Option<Failure>)
      requires Valid()
      modifies this, state, engine, engine.store, engine.audit, engine.intents.Values, engine.adapter.executor
      ensures Valid() && steps == old(steps) + [Run(Do(cmd))] && fresh(engine.intents.Values - old(engine.intents.Values))
      ensures var found := MessageFor(old(inbox), prefix);
              if found.Some? && found.value.message.ReceiptMessage?
              then cmd == AcceptReceiptCommand(old(engine.Recs()), found.value.message.receipt,
                            VerifyAnswer(env, found.value.message.receipt.settlementRef, found.value.message.receipt.amountSat,
                                         SendKind, old(engine.adapter.executor.Upcoming())))
              else cmd == CmdStatus
      ensures failure == Reported(old(engine.Recs()), old(engine.store.View()), cmd)
    {
      hide Reached, Perform, LoggedIn, RpcsIn, VerifyAnswer;
      var found := FindInboxMessage(prefix);
      if found.None? || !found.value.message.ReceiptMessage? {
        cmd := CmdStatus;
        HandleStatus();
        return cmd, Some(ProtocolError);
      }
      cmd, failure := TakeReceipt(found.value.message.receipt);
    }

    method TakeReceipt(receipt: Receipt) returns (ghost cmd: Command, failure: Option<Failure>)
      requires Valid()
      modifies this, state, engine, engine.store, engine.audit, engine.intents.Values, engine.adapter.executor
      ensures Valid() && steps == old(steps) + [Run(Do(cmd))] && fresh(engine.intents.Values - old(engine.intents.Values))
      ensures cmd == AcceptReceiptCommand(old(engine.Recs()), receipt,
                       VerifyAnswer(env, receipt.settlementRef, receipt.amountSat, SendKind, old(engine.adapter.executor.Upcoming())))
      ensures failure == Reported(old(engine.Recs()), old(engine.store.View()), cmd)
    {
      hide Reached, Perform, LoggedIn, RpcsIn, VerifyAnswer, WaveCommand;
      ghost var recs, store := engine.Recs(), engine.store.View();
      ReceiptIsWave(env, recs, receipt, engine.adapter.executor.Upcoming());
      var answer, failed := peer.AcceptReceipt(receipt);
      failure := failed;
      cmd := AcceptReceiptCommand(recs, receipt, answer);
      Finish(cmd, Perform(env, recs, store, cmd));
    }

    method HandlePrepare(now: int, wall: int) returns (ghost cmd: Command, failure: Option<Failure>)
      requires Valid()
      modifies this, state, engine, engine.store, engine.audit, engine.intents.Values, engine.adapter.executor
      ensures Valid() && steps == old(steps) + [Run(Do(cmd))] && fresh(engine.intents.Values - old(engine.intents.Values))
      ensures (exists id :: id in old(engine.Recs()) && old(engine.Recs())[id].state == Quoted) ==>
                cmd.CmdPrepare? && old(engine.FirstIn(Quoted, cmd.pick))
      ensures cmd.CmdPrepare? && failure == Reported(old(engine.Recs()), old(engine.store.View()), cmd)
    {
      hide Reached, Perform, LoggedIn, RpcsIn, PrepareAnswer, PaymentOrchestrator.FirstIn;
      ghost var recs, store := engine.Recs(), engine.store.View();
      assert forall id :: id in engine.intents ==> recs[id] == engine.intents[id].Value();
      var pick, answer, err := engine.Prepare(now, wall);
      failure := Raised(err);
      if pick.None? {
        cmd := NothingToPrepare(env, recs, store, now);
      } else {
        cmd := CmdPrepare(pick.value, answer, now);
        assert WavePrepared(env, recs[pick.value], answer);
      }
      Finish(cmd, Perform(env, recs, store, cmd));
    }

    /** The prefix shown to the operator stands for the prepared hash of the named
        intent; anything else is passed on as it is. */
    method HandleApprove(intentId: string, quoteId: string, preparedHash: string) returns (ghost cmd: Command, failure: Option<Failure>)
      requires Valid()
      modifies this, state, engine, engine.store, engine.audit, engine.intents.Values
      ensures Valid() && steps == old(steps) + [Run(Do(cmd))] && fresh(engine.intents.Values - old(engine.intents.Values))
      ensures cmd == if approver.None? then CmdStatus
                     else CmdApprove(Approval(intentId, quoteId, FullHash(old(engine.Recs()), intentId, preparedHash), approver.value))
      ensures failure == Reported(old(engine.Recs()), old(engine.store.View()), cmd)
    {
      hide Reached, Perform, LoggedIn, RpcsIn;
      if approver.None? {
        cmd := CmdStatus;
        HandleStatus();
        return cmd, Some(ProtocolError);
      }
      var hash := preparedHash;
      if intentId in engine.intents && engine.intents[intentId].prepared.Some? {
        var full := engine.intents[intentId].prepared.value.preparedHash;
        if preparedHash == Redacted(full) { hash := full; }
      }
      assert hash == FullHash(engine.Recs(), intentId, preparedHash);
      var approval := Approval(intentId, quoteId, hash, approver.value);
      cmd := CmdApprove(approval);
      ghost var o := Perform(env, engine.Recs(), engine.store.View(), cmd);
      var err := engine.Approve(approval);
      failure := Raised(err);
      Finish(cmd, o);
    }

    method RunExecute(wall: int) returns (ghost cmd: Command, err: Option<Error>)
      requires Wired()
      modifies engine, engine.store, engine.audit, engine.intents.Values, engine.adapter.executor
      ensures (exists id :: id in old(engine.Recs()) && old(engine.Recs())[id].state == Approved) ==>
                cmd.CmdExecute? && old(engine.FirstIn(Approved, cmd.pick))
      ensures cmd.CmdExecute? && engine.Did(Perform(env, old(engine.Recs()), old(engine.store.View()), cmd), err)
      ensures WaveCommand(env, old(engine.Recs()), cmd)
    {
      hide Perform, LoggedIn, RpcsIn, ExecuteAnswer, PaymentOrchestrator.FirstIn;
      ghost var recs, store := engine.Recs(), engine.store.View();
      assert forall id :: id in engine.intents ==> recs[id] == engine.intents[id].Value();
      var pick, answer, failed := engine.Execute(wall);
      err := failed;
      if pick.None? {
        cmd := NothingToExecute(env, recs, store);
      } else {
        cmd := CmdExecute(pick.value, answer);
        assert WaveExecuted(env, recs[pick.value], answer);
      }
    }

    method HandleExecute(wall: int) returns (ghost cmd: Command, failure: Option<Failure>)
      requires Valid()
      modifies this, state, engine, engine.store, engine.audit, engine.intents.Values, engine.adapter.executor
      ensures Valid() && steps == old(steps) + [Run(Do(cmd))] && fresh(engine.intents.Values - old(engine.intents.Values))
      ensures (exists id :: id in old(engine.Recs()) && old(engine.Recs())[id].state == Approved) ==>
                cmd.CmdExecute? && old(engine.FirstIn(Approved, cmd.pick))
      ensures cmd.CmdExecute? && failure == Reported(old(engine.Recs()), old(engine.store.View()), cmd)
    {
      hide Reached, Perform, LoggedIn, RpcsIn, WaveCommand;
      ghost var recs, store := engine.Recs(), engine.store.View();
      var c, err := RunExecute(wall);
      cmd, failure := c, Raised(err);
      Finish(cmd, Perform(env, recs, store, cmd));
    }

    /** Whether some intent is still PENDING. */
    method ListPending() returns (pending: bool)
      requires engine.Valid()
      ensures pending <==> AnyPending(engine.Recs())
    {
      pending := false;
      for i := 0 to |engine.order|
        invariant pending <==> exists j :: 0 <= j < i && IsPending(engine.intents[engine.order[j]].Value())
      {
        if IsPending(engine.intents[engine.order[i]].Value()) { pending := true; }
      }
      if pending {
        var j :| 0 <= j < |engine.order| && IsPending(engine.intents[engine.order[j]].Value());
        assert IsPending(engine.Recs()[engine.order[j]]);
      }
    }

    /** One round of the recover command. */
    method Round() returns (ghost act: Action, pending: bool)
      requires Valid()
      modifies this`inbox, this`inboxIds, this`log, this`synced, this`steps, this`reached, state
      modifies engine, engine.audit, engine.intents.Values, engine.adapter.executor
      ensures Valid() && steps == old(steps) + [Run(act)] && IsRound(old(reached), act)
      ensures pending <==> AnyPending(reached.memory.value.recs)
      ensures fresh(engine.intents.Values - old(engine.intents.Values))
    {
      hide Reached, AnyPending;
      ghost var a := MaybeRecover(true);
      act := a;
      pending := ListPending();
    }

    /** Another round at the end of the trail of `from`. */
    method NextRound(ghost from: seq<Step>, ghost trail: seq<Sys>) returns (ghost longer: seq<Sys>, pending: bool)
      requires Valid() && Polled(env, from, steps, trail)
      modifies this`inbox, this`inboxIds, this`log, this`synced, this`steps, this`reached, state
      modifies engine, engine.audit, engine.intents.Values, engine.adapter.executor
      ensures Valid() && fresh(engine.intents.Values - old(engine.intents.Values))
      ensures Polled(env, from, steps, longer) && longer == trail + [reached] && reached.memory.Some?
      ensures pending <==> StillPending(reached)
    {
      hide Reached, AnyPending, Polled;
      ghost var before := steps;
      ReachedIs(env, steps, reached);
      var act, more := Round();
      PolledMore(env, from, before, trail, act, reached);
      longer, pending := trail + [reached], more;
    }

    /** Poll until nothing is PENDING or the time is up. */
    method Poll(maxWait: real, poll: real, clock: Clock)
      returns (rounds: nat, slept: real, waited: real, ghost trail: seq<Sys>)
      requires Valid() && InRange(maxWait, poll)
      modifies clock, this`inbox, this`inboxIds, this`log, this`synced, this`steps, this`reached, state
      modifies engine, engine.audit, engine.intents.Values, engine.adapter.executor
      ensures Valid() && fresh(engine.intents.Values - old(engine.intents.Values))
      ensures |trail| == rounds && Polled(env, old(steps), steps, trail)
      ensures 1 <= rounds <= 72001 && (rounds == 1 || Naps(rounds - 2, poll) < maxWait)
      ensures 0.0 <= slept <= maxWait
      ensures forall k :: 0 <= k < rounds - 1 ==> StillPending(trail[k])
      ensures StillPending(trail[rounds - 1]) ==> waited >= maxWait
    {
      hide Valid, Reached, StillPending, Polled, Naps;
      rounds, slept, waited, trail := 0, 0.0, 0.0, [];
      PolledNone(env, steps);
      var started := clock.Monotonic();
      ghost var least, late := Naps(0, poll), false;
      RoundBound(0, poll, maxWait);
      while true
        invariant Valid() && fresh(engine.intents.Values - old(engine.intents.Values))
        invariant |trail| == rounds && Polled(env, old(steps), steps, trail)
        invariant 0.0 <= slept <= clock.now - started && slept <= maxWait
        invariant least == Naps(rounds, poll)
        invariant if late then clock.now - started >= maxWait else clock.now - started >= least
        invariant rounds >= 1 ==> Naps(rounds - 1, poll) < maxWait
        invariant forall k :: 0 <= k < rounds ==> StillPending(trail[k])
        decreases 72001 - rounds
      {
        RoundBound(rounds, poll, maxWait);
        var pending;
        trail, pending := NextRound(old(steps), trail);
        var checked := clock.Monotonic();
        waited := checked - started;
        rounds := rounds + 1;
        if !pending || waited >= maxWait { break; }
        var nap := if poll < maxWait - waited then poll else maxWait - waited;
        clock.Sleep(nap);
        slept := slept + nap;
        late := nap != poll;
        least := least + poll;
      }
    }

    /** The recover command: reconcile, then poll while something is PENDING and
        time is left. It ends after at most ceil(maxWait / poll) + 1 rounds, never
        asks to sleep longer than maxWait in all, and stops early exactly when
        nothing is PENDING any more. */
    method HandleRecover(maxWait: real, poll: real, clock: Clock)
      returns (rounds: nat, slept: real, waited: real, ghost trail: seq<Sys>, ghost polled: seq<Step>, failure: Option<Failure>)
      requires Valid()
      modifies clock, this, state, engine, engine.audit, engine.intents.Values, engine.adapter.executor
      ensures Valid() && fresh(engine.intents.Values - old(engine.intents.Values))
      ensures |trail| == rounds && Polled(env, old(steps), polled, trail) && steps == polled + [Run(Do(CmdStatus))]
      ensures failure == if 0.0 <= maxWait <= 720.0 && 0.01 <= poll <= 60.0 then None else Some(ProtocolError)
      ensures failure.Some? ==> rounds == 0
      ensures failure.None? ==>
                && 1 <= rounds <= 72001 && (rounds == 1 || Naps(rounds - 2, poll) < maxWait)
                && 0.0 <= slept <= maxWait
                && (forall k :: 0 <= k < rounds - 1 ==> StillPending(trail[k]))
                && (StillPending(trail[rounds - 1]) ==> waited >= maxWait)
    {
      hide Valid, Reached, Polled, StillPending, Naps;
      rounds, slept, waited, trail, failure := 0, 0.0, 0.0, [], None;
      PolledNone(env, steps);
      if InRange(maxWait, poll) {
        rounds, slept, waited, trail := Poll(maxWait, poll, clock);
      } else {
        failure := Some(ProtocolError);
      }
      polled := steps;
      HandleStatus();
    }
  }
}
