/** Runs against the Wavelength adapter: what is sent, with which token, and how
    much money it can move in all. */
module Money {
  import opened Wrappers
  import opened StateMachine
  import opened Model
  import opened Store
  import opened Lifecycle
  import opened Committed
  import opened System
  import opened Safety
  import opened Audit
  import opened Parsing
  import opened Wavelength

  // ------------------------------------------------------------------
  // Runs whose answers come from the adapter
  // ------------------------------------------------------------------

  ghost predicate WavePrepared(env: Env, r: Record, a: Answer<PrepareOutcome>) {
    r.quote.Some? ==> exists wall: int, reply: Reply ::
      a == PrepareAnswer(env, r.quote.value.instruction, r.intent.amountSat, r.intent.maxFeeSat, wall, reply)
  }

  ghost predicate WaveExecuted(env: Env, r: Record, a: Answer<ExecuteOutcome>) {
    r.prepared.Some? ==> exists wall: int, reply: Reply ::
      a == ExecuteAnswer(env, r.prepared.value.payload, r.prepared.value.preparedHash, wall, reply)
  }

  ghost predicate WaveReconciled(env: Env, r: Record, a: Answer<ReconcileOutcome>) {
    r.prepared.Some? ==> exists reply: Reply ::
      a == ReconcileAnswer(env, r.prepared.value.payload, r.prepared.value.preparedHash, r.intent.amountSat, reply)
  }

  ghost predicate WaveCommand(env: Env, recs: Records, cmd: Command) {
    match cmd
    case CmdPrepare(pick, a, _) => pick in recs ==> WavePrepared(env, recs[pick], a)
    case CmdExecute(pick, a) => pick in recs ==> WaveExecuted(env, recs[pick], a)
    case CmdReceiveReceipt(r, a) => exists reply: Reply :: a == VerifyAnswer(env, r.settlementRef, r.amountSat, SendKind, reply)
    case CmdReconcile(id, a) => id in recs ==> WaveReconciled(env, recs[id], a)
    case _ => true
  }

  ghost predicate WaveAnswers(env: Env, recs: Records, answers: Answers) {
    forall id :: id in recs && (recs[id].state == Executing || recs[id].state == ReconciliationRequired) ==>
      WaveReconciled(env, recs[id], AnswerFor(answers, id))
  }

  ghost predicate WaveAction(env: Env, s: Sys, act: Action) {
    match act
    case Do(cmd) => WaveCommand(env, Durable(s.disk), cmd)
    case Receive(_) => true
    case Recover(_, answers) => WaveAnswers(env, Durable(s.disk), answers)
    case Boot(_, answers) => WaveAnswers(env, Durable(s.disk), answers)
  }

  /** Every adapter answer in the run is the Wavelength adapter's answer to some
      daemon reply. */
  ghost predicate WaveRun(env: Env, steps: seq<Step>) {
    forall i :: 0 <= i < |steps| ==> WaveAction(env, Exec(env, steps[..i]), steps[i].act)
  }

  // ------------------------------------------------------------------
  // Payloads and sends
  // ------------------------------------------------------------------

  function PayloadNumber(p: PrepareResult, key: string): int {
    if p.payload.JsonText? && p.payload.tree.JObj? && key in p.payload.tree.fields && p.payload.tree.fields[key].JInt?
    then p.payload.tree.fields[key].number else 0
  }

  function TokenOf(p: PrepareResult): Json {
    if p.payload.JsonText? && p.payload.tree.JObj? && "send_intent_id" in p.payload.tree.fields
    then p.payload.tree.fields["send_intent_id"] else JNull
  }

  /** The total outflow the daemon was asked to pay. */
  function Outflow(p: PrepareResult): int { PayloadNumber(p, "total_outflow_sat") }

  ghost predicate RecordPays(env: Env, r: Record) {
    r.prepared.Some? ==> WellPrepared(env, r.prepared.value, r.intent.amountSat, r.intent.maxFeeSat)
  }

  ghost predicate PayOk(env: Env, recs: Records) {
    forall id :: id in recs ==> RecordPays(env, recs[id])
  }

  predicate HasSend(e: Effect) {
    e.Called? && exists r :: r in e.rpcs && r.Send?
  }

  /** A Send happens only inside a dispatch, once, with the prepared token. */
  ghost predicate SendOk(e: Effect) {
    HasSend(e) ==> IsExecute(e) && e.rpcs == [Send(TokenOf(e.call.prepared))]
  }

  ghost predicate SendsOk(es: seq<Effect>) {
    forall e :: e in es ==> SendOk(e)
  }

  ghost predicate Pays(env: Env, r: Record, c: Change) {
    RecordPays(env, c.rec) && SendsOk(c.effects)
  }

  lemma PreparePays(env: Env, r: Record, store: StoreView, a: Answer<PrepareOutcome>, now: int)
    requires RecordPays(env, r) && WavePrepared(env, r, a)
    ensures Pays(env, r, PrepareChange(env, r, store, a, now))
  {
    if r.quote.Some? {
      var wall: int, reply: Reply :| a == PrepareAnswer(env, r.quote.value.instruction, r.intent.amountSat, r.intent.maxFeeSat, wall, reply);
      PrepareSound(env, r.quote.value.instruction, r.intent.amountSat, r.intent.maxFeeSat, wall, reply);
    }
  }

  lemma ExecutePays(env: Env, r: Record, store: StoreView, a: Answer<ExecuteOutcome>)
    requires RecordPays(env, r) && WaveExecuted(env, r, a)
    ensures Pays(env, r, ExecuteChange(r, store, a))
  {
    hide BeforeSend, AfterSend;
    if r.prepared.Some? {
      var p := r.prepared.value;
      var wall: int, reply: Reply :| a == ExecuteAnswer(env, p.payload, p.preparedHash, wall, reply);
      ExecuteSound(env, p, r.intent.amountSat, wall, reply);
      assert SendOk(Called(CallExecute(r.intent.id, p), a.rpcs));
    }
  }

  lemma ReceiptPays(env: Env, r: Record, store: StoreView, receipt: Receipt, a: Answer<VerifyOutcome>)
    requires RecordPays(env, r)
    requires exists reply: Reply :: a == VerifyAnswer(env, receipt.settlementRef, receipt.amountSat, SendKind, reply)
    ensures Pays(env, r, ReceiptChange(r, store, receipt, a))
  {
  }

  lemma ReconcilePays(env: Env, r: Record, store: StoreView, a: Answer<ReconcileOutcome>)
    requires RecordPays(env, r) && WaveReconciled(env, r, a)
    ensures Pays(env, r, ReconcileChange(r, store, a))
  {
    if r.prepared.Some? {
      var p := r.prepared.value;
      var reply: Reply :| a == ReconcileAnswer(env, p.payload, p.preparedHash, r.intent.amountSat, reply);
      assert !HasSend(Called(CallReconcile(r.intent.id), a.rpcs));
    }
  }

  lemma OtherPays(env: Env, recs: Records, store: StoreView, cmd: Command, c: Change)
    requires cmd.CmdReceiveQuote? || cmd.CmdApprove? || cmd.CmdConfirmSettled? || cmd.CmdCancel? || cmd.CmdReject?
    requires Target(cmd) in recs && RecordPays(env, recs[Target(cmd)])
    requires Perform(env, recs, store, cmd) == With(recs, Target(cmd), c)
    ensures Pays(env, recs[Target(cmd)], c)
  {
    assert c.rec == Perform(env, recs, store, cmd).recs[Target(cmd)];
  }

  lemma CallPays(env: Env, recs: Records, store: StoreView, cmd: Command)
    requires !cmd.CmdSubmit? && !cmd.CmdCheckExpired? && !cmd.CmdStatus?
    requires RecordsOk(recs, store) && PayOk(env, recs) && Target(cmd) in recs && WaveCommand(env, recs, cmd)
    ensures var o := Perform(env, recs, store, cmd); PayOk(env, o.recs) && SendsOk(o.effects)
  {
    var id := Target(cmd);
    var r := recs[id];
    var c := CallTraces(env, recs, store, cmd);
    match cmd
    case CmdPrepare(_, a, now) => PreparePays(env, r, store, a, now); assert Pays(env, r, PrepareChange(env, r, store, a, now));
    case CmdExecute(_, a) => ExecutePays(env, r, store, a); assert Pays(env, r, ExecuteChange(r, store, a));
    case CmdReceiveReceipt(x, a) => ReceiptPays(env, r, store, x, a); assert Pays(env, r, ReceiptChange(r, store, x, a));
    case CmdReconcile(_, a) => ReconcilePays(env, r, store, a); assert Pays(env, r, ReconcileChange(r, store, a));
    case _ => OtherPays(env, recs, store, cmd, c);
  }

  lemma {:induction false} ExpirySends(recs: Records, ids: seq<string>)
    ensures SendsOk(ExpireAll(recs, ids).1)
  {
    if ids != [] { ExpirySends(recs, ids[..|ids| - 1]); }
  }

  lemma SubmitPays(env: Env, recs: Records, store: StoreView, intent: Intent, now: int)
    requires PayOk(env, recs)
    ensures var o := Submit(env, recs, store, intent, now); PayOk(env, o.recs) && SendsOk(o.effects)
  {
    AdmitOk(store, intent);
  }

  lemma SweepPays(env: Env, recs: Records, store: StoreView, order: seq<string>, only: Option<set<string>>, now: int)
    requires PayOk(env, recs)
    ensures var o := CheckExpired(recs, store, order, only, now); PayOk(env, o.recs) && SendsOk(o.effects)
  {
    var ids := OverdueIn(recs, order, only, now);
    OverdueOnly(recs, order, only, now);
    ExpireAllOk(recs, ids);
    ExpirySends(recs, ids);
    var o := CheckExpired(recs, store, order, only, now);
    forall id | id in o.recs ensures RecordPays(env, o.recs[id]) {
      assert RecordPays(env, recs[id]);
    }
  }

  lemma EnginePays(env: Env, recs: Records, store: StoreView, cmd: Command)
    requires RecordsOk(recs, store) && PayOk(env, recs) && WaveCommand(env, recs, cmd)
    ensures var o := Perform(env, recs, store, cmd); PayOk(env, o.recs) && SendsOk(o.effects)
  {
    match cmd
    case CmdSubmit(i, now) => SubmitPays(env, recs, store, i, now);
    case CmdCheckExpired(order, only, now) => SweepPays(env, recs, store, order, only, now);
    case CmdStatus =>
    case _ =>
      if Target(cmd) in recs { CallPays(env, recs, store, cmd); } else { Untracked(env, recs, store, cmd); }
  }

  lemma {:induction false} RecoverySends(env: Env, recs: Records, store: StoreView, base: Records,
                                         saved: map<string, SavedRecord>, order: seq<string>, answers: Answers)
    requires RecordsOk(recs, store) && PayOk(env, recs) && WaveAnswers(env, recs, answers) && saved == EncodeAll(recs)
    requires forall id :: id in order ==> id in saved
    ensures SendsOk(RecoverRecords(base, store, saved, order, answers).effects)
  {
    if order != [] {
      var front, id := order[..|order| - 1], order[|order| - 1];
      RecoverySends(env, recs, store, base, saved, front, answers);
      var answer := AnswerFor(answers, id);
      assert id in order;
      assert Decode(saved[id]) == recs[id] by { RecoverOne(id, recs[id], store, answer); }
      if recs[id].state == Executing || recs[id].state == ReconciliationRequired {
        var r := recs[id].(state := ReconciliationRequired);
        assert WaveReconciled(env, r, answer);
        ReconcilePays(env, r, store, answer);
      }
    }
  }

  /** Every daemon call among the effects only asks for activity. */
  ghost predicate OnlyQueries(es: seq<Effect>) {
    forall e, r :: e in es && e.Called? && r in e.rpcs ==> r.Activity?
  }

  lemma ReconcileQueries(env: Env, r: Record, store: StoreView, a: Answer<ReconcileOutcome>)
    requires WaveReconciled(env, r, a)
    ensures OnlyQueries(ReconcileChange(r, store, a).effects)
  {
    if r.prepared.Some? {
      var p := r.prepared.value;
      var reply: Reply :| a == ReconcileAnswer(env, p.payload, p.preparedHash, r.intent.amountSat, reply);
    }
  }

  /** Recovery never reaches PrepareSend or Send. */
  lemma {:induction false} RecoveryOnlyQueries(env: Env, recs: Records, store: StoreView, base: Records,
                                               saved: map<string, SavedRecord>, order: seq<string>, answers: Answers)
    requires RecordsOk(recs, store) && WaveAnswers(env, recs, answers) && saved == EncodeAll(recs)
    requires forall id :: id in order ==> id in saved
    ensures OnlyQueries(RecoverRecords(base, store, saved, order, answers).effects)
  {
    if order != [] {
      var front, id := order[..|order| - 1], order[|order| - 1];
      RecoveryOnlyQueries(env, recs, store, base, saved, front, answers);
      assert id in order;
      assert Decode(saved[id]) == recs[id] by { RecoverOne(id, recs[id], store, AnswerFor(answers, id)); }
      if recs[id].state == Executing || recs[id].state == ReconciliationRequired {
        var r := recs[id].(state := ReconciliationRequired);
        assert WaveReconciled(env, r, AnswerFor(answers, id));
        ReconcileQueries(env, r, store, AnswerFor(answers, id));
      }
    }
  }

  /** A restart, after any run with any kills, asks the daemon for activity and
      for nothing else. */
  lemma RestartOnlyQueries(env: Env, steps: seq<Step>, order: seq<string>, answers: Answers)
    requires Enumerates(order, Exec(env, steps).disk.snapshot.records.Keys)
    requires WaveAnswers(env, Durable(Exec(env, steps).disk), answers)
    ensures OnlyQueries(Left(env, Exec(env, steps), Run(Boot(order, answers))))
  {
    AlwaysInv(env, steps);
    var s := Exec(env, steps);
    RecoverySound(s, order, answers, false);
    ReencodeSaved(s.disk.snapshot.records);
    RecoveryOnlyQueries(env, Durable(s.disk), s.disk.store, map[], s.disk.snapshot.records, order, answers);
  }

  // ------------------------------------------------------------------
  // Whole runs
  // ------------------------------------------------------------------

  ghost predicate PayInv(env: Env, s: Sys) {
    PayOk(env, Durable(s.disk)) && SendsOk(s.log)
  }

  lemma ReloadPays(env: Env, s: Sys, act: Action)
    requires Inv(s) && PayInv(env, s) && WaveAction(env, s, act)
    requires act.Boot? || (act.Recover? && s.memory.Some?)
    requires Enumerates(act.order, s.disk.snapshot.records.Keys)
    ensures var b := Behave(env, s, act); SendsOk(b.effects) && b.memory.Some? && PayOk(env, b.memory.value.recs)
  {
    var recs := Durable(s.disk);
    var base := if act.Recover? then s.memory.value else FRESH;
    RecoverySound(s, act.order, act.answers, act.Recover?);
    ReencodeSaved(s.disk.snapshot.records);
    RecoverySends(env, recs, s.disk.store, base.recs, s.disk.snapshot.records, act.order, act.answers);
    var o := RecoverRecords(base.recs, s.disk.store, s.disk.snapshot.records, act.order, act.answers);
    RecoveredPays(env, recs, o.recs, act.answers);
  }

  lemma RecoveredPays(env: Env, recs: Records, recs': Records, answers: Answers)
    requires PayOk(env, recs) && recs'.Keys == recs.Keys
    requires forall id :: id in recs ==> recs'[id] == Recovered(recs[id], AnswerFor(answers, id).outcome)
    ensures PayOk(env, recs')
  {
    forall id | id in recs' ensures RecordPays(env, recs'[id]) {
      assert RecordPays(env, recs[id]);
    }
  }

  lemma ActionPays(env: Env, s: Sys, act: Action)
    requires Inv(s) && PayInv(env, s) && WaveAction(env, s, act)
    ensures var b := Behave(env, s, act);
            SendsOk(b.effects) && (b.memory.Some? ==> PayOk(env, b.memory.value.recs))
  {
    if (act.Boot? || (act.Recover? && s.memory.Some?)) && Enumerates(act.order, s.disk.snapshot.records.Keys) {
      ReloadPays(env, s, act);
    } else if act.Do? && s.memory.Some? {
      EnginePays(env, Durable(s.disk), s.disk.store, act.cmd);
    } else if act.Receive? && s.memory.Some? {
      AbsorbKeeps(s.memory.value, act.messages);
    }
  }

  lemma StepPays(env: Env, s: Sys, step: Step)
    requires Inv(s) && PayInv(env, s) && WaveAction(env, s, step.act)
    ensures PayInv(env, Next(env, s, step))
  {
    hide Behave, Inv, OutcomeOk, WaveAction, RecordPays, SendOk, InboxOk;
    ActionPays(env, s, step.act);
    var b := Behave(env, s, step.act);
    var o, snaps := Shape(env, s, step.act);
    var es := Left(env, s, step);
    assert forall e :: e in es ==> e in b.effects;
    if snaps {
      if es == b.effects {
        RunThrough(s, o, b.memory.value);
      } else {
        assert es == o.effects[..|es|];
        CutShort(s, o, |es|);
      }
    }
  }

  lemma {:induction false} AlwaysPays(env: Env, steps: seq<Step>)
    requires WaveRun(env, steps)
    ensures PayInv(env, Exec(env, steps))
  {
    if steps == [] {
      assert Durable(FIRST.disk) == map[];
    } else {
      var front := steps[..|steps| - 1];
      assert WaveRun(env, front) by {
        forall i | 0 <= i < |front| ensures WaveAction(env, Exec(env, front[..i]), front[i].act) {
          assert front[..i] == steps[..i];
        }
      }
      AlwaysPays(env, front);
      AlwaysInv(env, front);
      StepPays(env, Exec(env, front), steps[|steps| - 1]);
    }
  }

  /** Every Send of a run, under any kills, is the single Send of a dispatch; it
      carries the token of the approved payload, whose outflow is the intent's
      amount plus a fee within the intent's limit, and whose hash is the approved
      one. */
  lemma EachSendIsBound(env: Env, steps: seq<Step>, k: nat)
    requires WaveRun(env, steps)
    requires k < |Exec(env, steps).log| && HasSend(Exec(env, steps).log[k])
    ensures var s := Exec(env, steps);
            var e := s.log[k];
            && IsExecute(e) && e.rpcs == [Send(TokenOf(e.call.prepared))]
            && e.call.intentId in Durable(s.disk)
            && var r := Durable(s.disk)[e.call.intentId];
            && r.prepared == Some(e.call.prepared)
            && Outflow(e.call.prepared) == r.intent.amountSat + e.call.prepared.feeSat
            && e.call.prepared.feeSat <= r.intent.maxFeeSat
            && e.call.prepared.preparedHash == env.sha(e.call.prepared.payload)
  {
    hide RecordOk, WaveRun;
    AlwaysInv(env, steps);
    AlwaysPays(env, steps);
    var s := Exec(env, steps);
    assert s.log[k] in s.log;
    assert SendOk(s.log[k]);
    assert RecordPays(env, Durable(s.disk)[s.log[k].call.intentId]);
  }

  /** All Sends of one intent carry one send_intent_id, so a daemon that honours
      each token once pays an intent at most once, however often it is killed. */
  lemma OneTokenPerIntent(env: Env, steps: seq<Step>, i: nat, j: nat)
    requires WaveRun(env, steps)
    requires var log := Exec(env, steps).log;
             && i < |log| && j < |log| && HasSend(log[i]) && HasSend(log[j])
             && IsExecute(log[i]) && IsExecute(log[j]) && log[i].call.intentId == log[j].call.intentId
    ensures var log := Exec(env, steps).log; log[i].rpcs == log[j].rpcs
  {
    EachSendIsBound(env, steps, i);
    EachSendIsBound(env, steps, j);
  }

  // ------------------------------------------------------------------
  // The money bound
  // ------------------------------------------------------------------

  /** What the Sends of one adapter call ask the daemon to pay. */
  function SentBy(rpcs: seq<Rpc>, p: PrepareResult): int {
    if rpcs == [] then 0
    else SentBy(rpcs[..|rpcs| - 1], p) + if rpcs[|rpcs| - 1].Send? then Outflow(p) else 0
  }

  function Sent(e: Effect): int {
    if IsExecute(e) then SentBy(e.rpcs, e.call.prepared) else 0
  }

  /** The sum of the prepared outflows of all Sends. */
  function TotalSent(log: seq<Effect>): int {
    if log == [] then 0 else TotalSent(log[..|log| - 1]) + Sent(log[|log| - 1])
  }

  function Budget(r: Record): nat { r.intent.amountSat + r.intent.maxFeeSat }

  ghost function SumBudgets(ids: set<string>, recs: Records): nat
    requires ids <= recs.Keys
  {
    if ids == {} then 0
    else var id :| id in ids; Budget(recs[id]) + SumBudgets(ids - {id}, recs)
  }

  lemma {:induction false} SumRemove(ids: set<string>, id: string, recs: Records)
    requires ids <= recs.Keys && id in ids
    ensures SumBudgets(ids, recs) == Budget(recs[id]) + SumBudgets(ids - {id}, recs)
    decreases |ids|
  {
    var x :| x in ids && SumBudgets(ids, recs) == Budget(recs[x]) + SumBudgets(ids - {x}, recs);
    if x != id {
      SumRemove(ids - {x}, id, recs);
      SumRemove(ids - {id}, x, recs);
      assert ids - {x} - {id} == ids - {id} - {x};
    }
  }

  lemma {:induction false} SumSubset(a: set<string>, b: set<string>, recs: Records)
    requires a <= b <= recs.Keys
    ensures SumBudgets(a, recs) <= SumBudgets(b, recs)
    decreases |a|
  {
    if a != {} {
      var id :| id in a;
      SumRemove(a, id, recs);
      SumRemove(b, id, recs);
      SumSubset(a - {id}, b - {id}, recs);
    }
  }

  lemma {:induction false} SumSame(ids: set<string>, recs: Records, recs': Records)
    requires ids <= recs.Keys && ids <= recs'.Keys
    requires forall id :: id in ids ==> recs[id].intent == recs'[id].intent
    ensures SumBudgets(ids, recs) == SumBudgets(ids, recs')
    decreases |ids|
  {
    if ids != {} {
      var id :| id in ids;
      SumRemove(ids, id, recs);
      SumRemove(ids, id, recs');
      SumSame(ids - {id}, recs, recs');
    }
  }

  function DispatchedIds(recs: Records): set<string> {
    set id | id in recs && Dispatched(recs[id].state)
  }

  /** The intents a human approved. */
  function ApprovedIds(recs: Records): set<string> {
    set id | id in recs && recs[id].approval.Some?
  }

  lemma {:induction false} TotalConcat(a: seq<Effect>, b: seq<Effect>)
    ensures TotalSent(a + b) == TotalSent(a) + TotalSent(b)
    decreases |b|
  {
    if b == [] {
      assert a + b == a;
    } else {
      assert (a + b)[..|a + b| - 1] == a + b[..|b| - 1];
      TotalConcat(a, b[..|b| - 1]);
    }
  }

  lemma {:induction false} SecondSends(es: seq<Effect>)
    requires forall k :: 0 <= k < |es| && IsExecute(es[k]) ==> k == 1
    ensures TotalSent(es) == if |es| >= 2 then Sent(es[1]) else 0
  {
    if es != [] { SecondSends(es[..|es| - 1]); }
  }

  lemma SentWithinBudget(env: Env, r: Record, e: Effect)
    requires IsExecute(e) && r.prepared == Some(e.call.prepared) && RecordPays(env, r) && SendOk(e)
    ensures Sent(e) <= Budget(r)
  {
    var p := e.call.prepared;
    assert Outflow(p) == r.intent.amountSat + p.feeSat;
    if HasSend(e) {
      assert e.rpcs[..|e.rpcs| - 1] == [];
      assert SentBy(e.rpcs, p) == SentBy([], p) + Outflow(p);
    } else {
      NoSendNoMoney(e.rpcs, p);
    }
  }

  lemma {:induction false} NoSendNoMoney(rpcs: seq<Rpc>, p: PrepareResult)
    requires forall r :: r in rpcs ==> !r.Send?
    ensures SentBy(rpcs, p) == 0
  {
    if rpcs != [] { NoSendNoMoney(rpcs[..|rpcs| - 1], p); }
  }

  lemma DispatchedStay(recs: Records, o: Outcome)
    requires RecordsMove(recs, o)
    ensures DispatchedIds(recs) <= DispatchedIds(o.recs)
    ensures SumBudgets(DispatchedIds(recs), recs) == SumBudgets(DispatchedIds(recs), o.recs)
  {
    forall id | id in DispatchedIds(recs) ensures id in DispatchedIds(o.recs) && o.recs[id].intent == recs[id].intent {
      assert Keeps(recs[id], o.recs[id]);
    }
    SumSame(DispatchedIds(recs), recs, o.recs);
  }

  /** A completed action sends at most the budget of the intents it moves out of
      APPROVED. */
  lemma OutcomeMoney(env: Env, recs: Records, o: Outcome)
    requires RecordsMove(recs, o) && OutcomeExecutes(recs, o) && PayOk(env, recs) && SendsOk(o.effects)
    ensures TotalSent(o.effects) + SumBudgets(DispatchedIds(recs), recs) <= SumBudgets(DispatchedIds(o.recs), o.recs)
  {
    var a, b := DispatchedIds(recs), DispatchedIds(o.recs);
    SecondSends(o.effects);
    DispatchedStay(recs, o);
    if |o.effects| >= 2 && IsExecute(o.effects[1]) {
      var id := o.effects[1].call.intentId;
      assert o.effects[1] in o.effects;
      assert RecordPays(env, recs[id]) && Keeps(recs[id], o.recs[id]);
      SentWithinBudget(env, recs[id], o.effects[1]);
      assert id in b && id !in a;
      SumRemove(b, id, o.recs);
      SumSubset(a, b - {id}, o.recs);
    } else {
      SumSubset(a, b, o.recs);
    }
  }

  lemma RunMoney(env: Env, s: Sys, act: Action)
    requires Inv(s) && PayInv(env, s) && WaveAction(env, s, act)
    ensures var s' := Next(env, s, Run(act));
            TotalSent(Left(env, s, Run(act))) + SumBudgets(DispatchedIds(Durable(s.disk)), Durable(s.disk))
            <= SumBudgets(DispatchedIds(Durable(s'.disk)), Durable(s'.disk))
  {
    hide Behave, Inv, InboxOk, RecordPays, SendOk, RecordsOk, SumBudgets;
    var b := Behave(env, s, act);
    var o, snaps := Shape(env, s, act);
    if snaps {
      RunThrough(s, o, b.memory.value);
      ActionPays(env, s, act);
      assert forall e :: e in o.effects ==> e in b.effects;
      OutcomeMoney(env, Durable(s.disk), o);
      var snap := [Snapshotted(Take(b.memory.value))];
      TotalConcat(o.effects, snap);
      SecondSends(snap);
    }
  }

  lemma {:induction false} SentWithinDispatched(env: Env, steps: seq<Step>)
    requires NoKills(steps) && WaveRun(env, steps)
    ensures var s := Exec(env, steps);
            TotalSent(s.log) <= SumBudgets(DispatchedIds(Durable(s.disk)), Durable(s.disk))
  {
    if steps != [] {
      var front, step := steps[..|steps| - 1], steps[|steps| - 1];
      assert WaveRun(env, front) by {
        forall i | 0 <= i < |front| ensures WaveAction(env, Exec(env, front[..i]), front[i].act) {
          assert front[..i] == steps[..i];
        }
      }
      SentWithinDispatched(env, front);
      AlwaysInv(env, front);
      AlwaysPays(env, front);
      RunMoney(env, Exec(env, front), step.act);
      TotalConcat(Exec(env, front).log, Left(env, Exec(env, front), step));
    }
  }

  /** The money bound: with restarts between commands, the outflows of all Sends
      together are at most amount plus maximum fee, summed over the distinct
      approved intents. */
  lemma MoneyBound(env: Env, steps: seq<Step>)
    requires NoKills(steps) && WaveRun(env, steps)
    ensures var s := Exec(env, steps);
            TotalSent(s.log) <= SumBudgets(ApprovedIds(Durable(s.disk)), Durable(s.disk))
  {
    AlwaysInv(env, steps);
    SentWithinDispatched(env, steps);
    var recs := Durable(Exec(env, steps).disk);
    forall id | id in DispatchedIds(recs) ensures id in ApprovedIds(recs) {
      assert RecordOk(id, recs[id], Exec(env, steps).disk.store);
    }
    SumSubset(DispatchedIds(recs), ApprovedIds(recs), recs);
  }

  // ------------------------------------------------------------------
  // Settlement by execute
  // ------------------------------------------------------------------

  /** execute settles exactly on an accepted answer with a valid fee, binding the
      answer's reference; otherwise nothing is settled or recorded and the intent
      is out of APPROVED for good. */
  lemma ExecuteDecides(id: string, r: Record, store: StoreView, a: Answer<ExecuteOutcome>)
    requires RecordOk(id, r, store) && r.state == Approved
    ensures var c := ExecuteChange(r, store, a);
            && (c.rec.state == Settled <==> a.outcome.ExecuteOk? && a.outcome.feeSat >= 0)
            && (c.error.None? <==> c.rec.state == Settled)
            && (c.rec.state == Settled ==>
                  && c.store.receipts == store.receipts[id := a.outcome.settlementRef]
                  && c.rec.receipt == Some(LocalReceipt(r, a.outcome.settlementRef, a.outcome.feeSat, a.outcome.rail)))
            && (c.rec.state != Settled ==>
                  && c.store == store && c.rec.receipt == r.receipt
                  && (c.rec.state == Executing || c.rec.state == ReconciliationRequired))
  {
  }

  /** An intent that the Wavelength adapter settles has the prepared payment hash
      as its recorded settlement reference, and the confirmed amount is its own. */
  lemma ExecuteSettlesPrepared(env: Env, id: string, r: Record, store: StoreView, a: Answer<ExecuteOutcome>)
    requires RecordOk(id, r, store) && r.state == Approved && RecordPays(env, r) && WaveExecuted(env, r, a)
    ensures var c := ExecuteChange(r, store, a);
            c.rec.state == Settled ==>
              && a.outcome.ExecuteOk? && a.outcome.amountSat == r.intent.amountSat
              && id in c.store.receipts
              && JStr(c.store.receipts[id]) == r.prepared.value.payload.tree.fields["payment_hash"]
  {
    ExecuteDecides(id, r, store, a);
    var p := r.prepared.value;
    var wall: int, reply: Reply :| a == ExecuteAnswer(env, p.payload, p.preparedHash, wall, reply);
    ExecuteSound(env, p, r.intent.amountSat, wall, reply);
  }
}
