/** Where the guarantees end: which refused calls leave a trace, and runs with
    one kill in which what holds without kills fails. */
module Boundaries {
  import opened Wrappers
  import opened StateMachine
  import opened Model
  import opened Store
  import opened Lifecycle
  import opened Committed
  import opened System
  import opened Safety
  import opened Dispatch
  import opened Audit
  import opened Recovery
  import opened Settlement
  import opened Parsing
  import opened Wavelength
  import opened Money
  import opened Process

  // ------------------------------------------------------------------
  // Refused calls
  // ------------------------------------------------------------------

  /** A raising call on one intent leaves records and store as they were, unless
      it is receive_quote, or an execute that got past its gate. */
  lemma RefusalIsNeutral(env: Env, recs: Records, store: StoreView, cmd: Command)
    requires RecordsOk(recs, store)
    requires !cmd.CmdCheckExpired? && !cmd.CmdReceiveQuote?
    requires cmd.CmdExecute? && cmd.pick in recs ==> recs[cmd.pick].state != Approved
    requires Perform(env, recs, store, cmd).error.Some?
    ensures var o := Perform(env, recs, store, cmd);
            && o.recs == recs && o.store == store
            && (forall e :: e in o.effects ==> e.Logged? || e.Called?)
  {
    if !cmd.CmdSubmit? && !cmd.CmdStatus? {
      var id := Target(cmd);
      if id in recs {
        var r := recs[id];
        assert RecordOk(id, r, store);
        var c := CallTraces(env, recs, store, cmd);
        RefusedChange(env, recs, store, cmd, c);
        assert recs[id := r] == recs;
      } else {
        Untracked(env, recs, store, cmd);
      }
    }
  }

  lemma RefusedChange(env: Env, recs: Records, store: StoreView, cmd: Command, c: Change)
    requires !cmd.CmdSubmit? && !cmd.CmdStatus? && !cmd.CmdCheckExpired? && !cmd.CmdReceiveQuote?
    requires Target(cmd) in recs && Perform(env, recs, store, cmd) == With(recs, Target(cmd), c)
    requires cmd.CmdExecute? ==> recs[Target(cmd)].state != Approved
    requires c.error.Some?
    ensures c.rec == recs[Target(cmd)] && c.store == store
    ensures forall e :: e in c.effects ==> e.Logged? || e.Called?
  {
    assert c.rec == Perform(env, recs, store, cmd).recs[Target(cmd)];
  }

  /** receive_quote stores the quote before it checks the transition: a refused
      quote leaves the record alone exactly when its fee or expiry was refused,
      or the record held that very quote. */
  lemma RefusedQuote(r: Record, store: StoreView, quote: Quote, now: int)
    requires QuoteChange(r, store, quote, now).error.Some?
    ensures QuoteChange(r, store, quote, now).rec == r <==>
              || quote.feeSat > r.intent.maxFeeSat || now > quote.expiresAt
              || (r.quote == Some(quote) && r.quoteExpiresAt == quote.expiresAt)
    ensures QuoteChange(r, store, quote, now).rec.state == r.state
  {
  }

  /** A quote that is refused because the intent is past SUBMITTED, and that takes
      the place of the one the intent was quoted with. */
  lemma RefusedQuoteReplaces()
    ensures var other := QUOTE.(quoteId := "other");
            var c := QuoteChange(QUOTED, EMPTY_STORE, other, 0);
            c.error == Some(SubmissionRejected) && QUOTED.quote == Some(QUOTE) && c.rec.quote == Some(other)
  {
    assert Transition(Quoted, OnQuoteReceived) == TransitionResult(false, Quoted);
  }

  /** With two intents QUOTED, prepare goes ahead with either one: the lookup is not
      refused. */
  lemma TwoMatchesAreNotRefused(env: Env, store: StoreView)
    requires env.railOk(Lightning)
    ensures var recs := map["i" := QUOTED, "j" := QUOTED.(intent := INTENT.(id := "j"))];
            var o := Perform(env, recs, store, CmdPrepare("i", Previewed(env), 0));
            var o' := Perform(env, recs, store, CmdPrepare("j", Previewed(env), 0));
            && o.error.None? && o.recs["i"].state == State.Prepared && o.recs["j"].state == Quoted
            && o'.error.None? && o'.recs["j"].state == State.Prepared && o'.recs["i"].state == Quoted
  {
    hide PrepareAnswer;
    var p := PreviewIsPayable(env);
  }

  // ------------------------------------------------------------------
  // A run that gets there
  // ------------------------------------------------------------------

  const INTENT := Intent("i", "alice", "bob", 1000, 10, 0)
  const QUOTE := Quote("i", "q", "bob", Instruction(Lightning, Some("lnbc")), 1, 100)
  const PREVIEW: Json := JObj(map[
    "send_intent_id" := JStr("tok"), "payment_hash" := JStr("ph"), "amount_sat" := JInt(1000),
    "expected_fee_sat" := JInt(10), "fee_known" := JBool(true),
    "expected_total_outflow_sat" := JInt(1010), "total_outflow_known" := JBool(true),
    "expires_at_unix" := JInt(100)])

  /** The adapter's answer to prepare when the daemon replies with PREVIEW. */
  function Previewed(env: Env): Answer<PrepareOutcome> {
    PrepareAnswer(env, QUOTE.instruction, 1000, 10, 0, ReplyJson(PREVIEW))
  }

  /** Its answer to execute when the Send gets no usable reply. */
  function Unanswered(env: Env, p: PrepareResult): Answer<ExecuteOutcome> {
    ExecuteAnswer(env, p.payload, p.preparedHash, 0, ReplyAdapterError)
  }

  lemma PreviewParses()
    ensures ParsePrepare(PREVIEW) == Some(Preview(JStr("tok"), 1000, 10, 1010, "ph", 100, JStr(""), JStr("")))
  {
  }

  lemma PreviewIsPayable(env: Env) returns (p: PrepareResult)
    ensures Previewed(env).outcome == PrepareOk(p) && p.rail == Lightning && p.feeSat == 10 && Outflow(p) == 1010
    ensures Unanswered(env, p) == Answer([Send(JStr("tok"))], ExecuteAmbiguous)
  {
    hide ParsePrepare, PayloadFields, ParseSend;
    PreviewParses();
    var preview := ParsePrepare(PREVIEW).value;
    PayloadBinds(preview, "lnbc", 10);
    p := Previewed(env).outcome.result;
    assert p.payload == JsonText(JObj(PayloadFields(preview, "lnbc", 10)));
  }

  function ApprovalFor(p: PrepareResult): Approval { Approval("i", "q", p.preparedHash, "alice") }

  function ApprovedWith(p: PrepareResult): Record {
    Record(INTENT, Approved, Some(QUOTE), Some(p), Some(ApprovalFor(p)), None, None, 100, 0)
  }

  /** The commands that take INTENT to APPROVED. */
  function Setup(env: Env, p: PrepareResult): seq<Command> {
    [CmdSubmit(INTENT, 0), CmdReceiveQuote(QUOTE, 0), CmdPrepare("i", Previewed(env), 0), CmdApprove(ApprovalFor(p))]
  }

  /** The outcome of the first `n` of them, from nothing. */
  function SetupOutcome(env: Env, p: PrepareResult, n: nat): Outcome
    requires n <= 4
  {
    if n == 0 then Outcome(map[], EMPTY_STORE, [], None)
    else
      var before := SetupOutcome(env, p, n - 1);
      Perform(env, before.recs, before.store, Setup(env, p)[n - 1])
  }

  const SUBMITTED := FreshRecord(INTENT).(state := Submitted)
  const QUOTED := SUBMITTED.(state := Quoted, quote := Some(QUOTE), quoteExpiresAt := 100)

  lemma SetupNegotiates(env: Env, p: PrepareResult)
    requires env.recipientOk("bob")
    ensures SetupOutcome(env, p, 0) == Outcome(map[], EMPTY_STORE, [], None)
    ensures SetupOutcome(env, p, 1).recs == map["i" := SUBMITTED]
    ensures SetupOutcome(env, p, 2).recs == map["i" := QUOTED] && SetupOutcome(env, p, 2).store == StoreView({"i"}, {}, map[])
  {
    hide PrepareAnswer;
    assert SetupOutcome(env, p, 0) == Outcome(map[], EMPTY_STORE, [], None);
    assert SetupOutcome(env, p, 1).store == StoreView({"i"}, {}, map[]);
  }

  lemma SetupOutcomes(env: Env, p: PrepareResult)
    requires env.recipientOk("bob") && env.railOk(Lightning)
    requires Previewed(env).outcome == PrepareOk(p) && p.rail == Lightning && p.feeSat == 10
    ensures SetupOutcome(env, p, 4).recs == map["i" := ApprovedWith(p)] && SetupOutcome(env, p, 4).store.receipts == map[]
  {
    hide PrepareAnswer;
    SetupNegotiates(env, p);
    assert SetupOutcome(env, p, 3).recs == map["i" := QUOTED.(state := State.Prepared, prepared := Some(p))];
    assert SetupOutcome(env, p, 3).store == StoreView({"i"}, {}, map[]);
  }

  lemma SetupDispatchesNothing(env: Env, p: PrepareResult, n: nat)
    requires 1 <= n <= 4
    ensures forall e :: e in SetupOutcome(env, p, n).effects ==> !IsExecute(e)
  {
    hide PrepareAnswer;
    var before := SetupOutcome(env, p, n - 1);
    assert Setup(env, p)[n - 1].CmdSubmit? || Setup(env, p)[n - 1].CmdReceiveQuote?
        || Setup(env, p)[n - 1].CmdPrepare? || Setup(env, p)[n - 1].CmdApprove?;
  }

  lemma FirstBoot(env: Env) returns (steps: seq<Step>, s: Sys)
    ensures Reached(env, steps, s) && NoKills(steps)
    ensures s.memory == Some(FRESH) && s.disk.store == EMPTY_STORE && s.log == []
  {
    var boot := Run(Boot([], map[]));
    steps := [boot];
    s := Next(env, FIRST, boot);
    assert steps == [] + [boot];
    assert WaveRun(env, []);
    ExecExtends(env, [], boot);
    assert Behave(env, FIRST, boot.act) == Behaviour([], Some(FRESH), None);
  }

  lemma QuietStep(log: seq<Effect>, es: seq<Effect>, snap: Snapshot)
    requires forall e :: e in es ==> !IsExecute(e)
    ensures TotalSent(log + (es + [Snapshotted(snap)])) == TotalSent(log)
  {
    var more := es + [Snapshotted(snap)];
    TotalConcat(log, more);
    forall k | 0 <= k < |more| ensures !IsExecute(more[k]) {
      if k < |es| { assert es[k] in es; }
    }
    SecondSends(more);
  }

  lemma SetupIsWave(env: Env, p: PrepareResult, n: nat)
    requires n < 4 && env.recipientOk("bob") && env.railOk(Lightning)
    requires Previewed(env).outcome == PrepareOk(p) && p.rail == Lightning && p.feeSat == 10
    ensures WaveCommand(env, SetupOutcome(env, p, n).recs, Setup(env, p)[n])
  {
    hide Perform, PrepareAnswer;
    SetupNegotiates(env, p);
  }

  /** A run against the Wavelength adapter that takes an intent to APPROVED. */
  lemma ReachApproved(env: Env) returns (steps: seq<Step>, s: Sys, p: PrepareResult)
    requires env.recipientOk("bob") && env.railOk(Lightning)
    ensures Reached(env, steps, s) && NoKills(steps)
    ensures s.memory == Some(FRESH.(recs := map["i" := ApprovedWith(p)])) && s.disk.store.receipts == map[]
    ensures Outflow(p) == 1010 && TotalSent(s.log) == 0
    ensures Unanswered(env, p) == Answer([Send(JStr("tok"))], ExecuteAmbiguous)
  {
    hide Perform, Reached, PrepareAnswer, ExecuteAnswer, WaveCommand;
    p := PreviewIsPayable(env);
    SetupNegotiates(env, p);
    SetupOutcomes(env, p);
    steps, s := FirstBoot(env);
    for n := 0 to 4
      invariant Reached(env, steps, s) && NoKills(steps) && TotalSent(s.log) == 0
      invariant var o := SetupOutcome(env, p, n); s.memory == Some(FRESH.(recs := o.recs)) && s.disk.store == o.store
    {
      SetupIsWave(env, p, n);
      var cmd, o := Setup(env, p)[n], SetupOutcome(env, p, n + 1);
      var after := CommandRun(env, steps, s, cmd, o);
      SetupDispatchesNothing(env, p, n + 1);
      QuietStep(s.log, o.effects, Take(after.memory.value));
      steps, s := steps + [Run(Do(cmd))], after;
    }
  }

  /** The money bound is attained: a run without kills that asks for exactly the
      budget of the one approved intent. */
  lemma BudgetIsSpent(env: Env) returns (steps: seq<Step>)
    requires env.recipientOk("bob") && env.railOk(Lightning)
    ensures NoKills(steps) && WaveRun(env, steps)
    ensures var s := Exec(env, steps);
            TotalSent(s.log) == SumBudgets(ApprovedIds(Durable(s.disk)), Durable(s.disk)) == 1010
  {
    hide Exec, WaveRun, Perform;
    var ready, s, p := ReachApproved(env);
    var after := ExecuteOnce(env, ready, s, p);
    steps := ready + [Run(Do(CmdExecute("i", Unanswered(env, p))))];
    ReachedIs(env, steps, after);
    OneBudget(ApprovedWith(p).(state := ReconciliationRequired), Durable(after.disk));
  }

  lemma ReachedIs(env: Env, steps: seq<Step>, s: Sys)
    requires Reached(env, steps, s)
    ensures Exec(env, steps) == s && WaveRun(env, steps) && Inv(s)
    ensures s.memory.Some? ==> s.memory.value.recs == Durable(s.disk)
  {
    AlwaysInv(env, steps);
  }

  lemma OneBudget(r: Record, recs: Records)
    requires recs == map["i" := r] && r.approval.Some?
    ensures SumBudgets(ApprovedIds(recs), recs) == Budget(r)
  {
    assert ApprovedIds(recs) == {"i"};
    SumRemove({"i"}, "i", recs);
    assert {"i"} - {"i"} == {};
  }

  /** Executing the approved intent with no usable reply: one Send, unresolved. */
  lemma ExecuteOnce(env: Env, steps: seq<Step>, s: Sys, p: PrepareResult) returns (after: Sys)
    requires Reached(env, steps, s) && s.memory == Some(FRESH.(recs := map["i" := ApprovedWith(p)]))
    requires Outflow(p) == 1010 && Unanswered(env, p) == Answer([Send(JStr("tok"))], ExecuteAmbiguous)
    ensures Reached(env, steps + [Run(Do(CmdExecute("i", Unanswered(env, p))))], after)
    ensures after.memory == Some(FRESH.(recs := map["i" := ApprovedWith(p).(state := ReconciliationRequired)]))
    ensures after.disk.store == s.disk.store && TotalSent(after.log) == TotalSent(s.log) + 1010
  {
    hide Reached, ExecuteAnswer, Perform;
    var cmd := CmdExecute("i", Unanswered(env, p));
    var o := UnansweredOutcome(env, s.disk.store, p);
    after := CommandRun(env, steps, s, cmd, o);
    SentOnce(s.log, o.effects, Take(after.memory.value), p);
  }

  lemma UnansweredOutcome(env: Env, store: StoreView, p: PrepareResult) returns (o: Outcome)
    requires Unanswered(env, p) == Answer([Send(JStr("tok"))], ExecuteAmbiguous)
    ensures var recs := map["i" := ApprovedWith(p)];
            && o == Perform(env, recs, store, CmdExecute("i", Unanswered(env, p)))
            && WaveCommand(env, recs, CmdExecute("i", Unanswered(env, p)))
    ensures o.recs == map["i" := ApprovedWith(p).(state := ReconciliationRequired)] && o.store == store
    ensures |o.effects| == 3 && !IsExecute(o.effects[0]) && !IsExecute(o.effects[2])
    ensures o.effects[1] == Called(CallExecute("i", p), [Send(JStr("tok"))])
  {
    hide ExecuteAnswer;
    var recs := map["i" := ApprovedWith(p)];
    assert WaveExecuted(env, recs["i"], Unanswered(env, p));
    o := Perform(env, recs, store, CmdExecute("i", Unanswered(env, p)));
  }

  lemma SentOnce(log: seq<Effect>, es: seq<Effect>, snap: Snapshot, p: PrepareResult)
    requires |es| == 3 && !IsExecute(es[0]) && !IsExecute(es[2])
    requires es[1] == Called(CallExecute("i", p), [Send(JStr("tok"))])
    ensures TotalSent(log + (es + [Snapshotted(snap)])) == TotalSent(log) + Outflow(p)
  {
    var more := es + [Snapshotted(snap)];
    TotalConcat(log, more);
    SecondSends(more);
    assert [Send(JStr("tok"))][..0] == [];
    assert SentBy([Send(JStr("tok"))], p) == SentBy([], p) + Outflow(p);
  }

  /** The next state after a completed command. */
  lemma DoNext(env: Env, s: Sys, cmd: Command)
    requires Inv(s) && s.memory.Some?
    ensures var o := Perform(env, s.memory.value.recs, s.disk.store, cmd);
            var s' := Next(env, s, Run(Do(cmd)));
            s'.memory == Some(s.memory.value.(recs := o.recs)) && s'.disk.store == o.store
            && Durable(s'.disk) == o.recs
  {
    var o := Perform(env, s.memory.value.recs, s.disk.store, cmd);
    PerformOk(env, s.memory.value.recs, s.disk.store, cmd);
    RunThrough(s, o, s.memory.value.(recs := o.recs));
  }

  // ------------------------------------------------------------------
  // One kill
  // ------------------------------------------------------------------

  /** receive_receipt would settle the intent. */
  ghost predicate Settleable(s: Sys, receipt: Receipt, answer: Answer<VerifyOutcome>) {
    && s.memory.Some? && receipt.intentId in Durable(s.disk)
    && var r := Durable(s.disk)[receipt.intentId];
    && (r.state == Executing || r.state == ReconciliationRequired) && receipt.intentId !in s.disk.store.receipts
    && receipt.amountSat == r.intent.amountSat && r.quote.Some? && r.quote.value.quoteId == receipt.quoteId
    && answer.outcome.VerifyOk? && answer.outcome.result.verified
  }

  lemma SettleEffects(r: Record, store: StoreView, receipt: Receipt, answer: Answer<VerifyOutcome>)
    requires (r.state == Executing || r.state == ReconciliationRequired) && receipt.intentId !in store.receipts
    requires receipt.amountSat == r.intent.amountSat && r.quote.Some? && r.quote.value.quoteId == receipt.quoteId
    requires answer.outcome.VerifyOk? && answer.outcome.result.verified
    ensures var c := ReceiptChange(r, store, receipt, answer);
            && |c.effects| == 3 && c.effects[0].Called? && c.effects[1] == Saved(c.store)
            && c.store.receipts == store.receipts[receipt.intentId := receipt.settlementRef]
  {
  }

  /** A command killed right after a save that binds a receipt of `id` loses it: the
      binding is in the store, the snapshot is the old one. */
  lemma KilledAfterSave(env: Env, s: Sys, cmd: Command, o: Outcome, n: nat, id: string)
    requires Inv(s) && s.memory.Some? && o == Perform(env, Durable(s.disk), s.disk.store, cmd)
    requires 1 <= n <= |o.effects| && o.effects[n - 1] == Saved(o.store)
    requires !SameReceipt(o.store.receipts, s.disk.store.receipts, id)
    ensures var s1 := Next(env, s, Kill(Do(cmd), n));
            && LosesReceipt(env, s, Kill(Do(cmd), n), id)
            && s1.disk.store == o.store && s1.disk.snapshot == s.disk.snapshot && s1.memory.None?
  {
    hide Perform;
    InvMemory(s);
    PerformOk(env, Durable(s.disk), s.disk.store, cmd);
    var es := Left(env, s, Kill(Do(cmd), n));
    assert es == o.effects[..n];
    assert es[n - 1] in es;
    assert forall e :: e in es ==> e in o.effects;
    ApplyBody(s.disk, es, o.store);
  }

  lemma SettlingEffects(r: Record, store: StoreView, a: Answer<ExecuteOutcome>)
    requires r.state == Approved && r.prepared.Some? && a.outcome.ExecuteOk? && a.outcome.feeSat >= 0
    ensures var c := ExecuteChange(r, store, a);
            && |c.effects| == 4 && c.effects[2] == Saved(c.store)
            && c.store.receipts == store.receipts[r.intent.id := a.outcome.settlementRef]
  {
  }

  /** A successful execute, killed between its receipt save and the snapshot, loses
      the receipt: the payment is recorded, the intent still APPROVED on disk. */
  lemma KilledExecuteSplits(env: Env, s: Sys, id: string, a: Answer<ExecuteOutcome>)
    requires Inv(s) && ReadyToExecute(s, id) && a.outcome.ExecuteOk? && a.outcome.feeSat >= 0
    requires id !in s.disk.store.receipts || s.disk.store.receipts[id] != a.outcome.settlementRef
    ensures var step := Kill(Do(CmdExecute(id, a)), 3);
            var s1 := Next(env, s, step);
            && LosesReceipt(env, s, step, id)
            && s1.disk.store.receipts == s.disk.store.receipts[id := a.outcome.settlementRef]
            && s1.disk.snapshot == s.disk.snapshot
            && id in Durable(s1.disk) && Durable(s1.disk)[id].state == Approved
  {
    hide ExecuteChange, Inv;
    var recs, store := Durable(s.disk), s.disk.store;
    InvRecord(s, id);
    SettlingEffects(recs[id], store, a);
    KilledAfterSave(env, s, CmdExecute(id, a), Perform(env, recs, store, CmdExecute(id, a)), 3, id);
  }

  lemma InvRecord(s: Sys, id: string)
    requires Inv(s) && id in Durable(s.disk)
    ensures RecordOk(id, Durable(s.disk)[id], s.disk.store)
  {
  }

  /** Such an intent can then be rejected: a payment that was made, and recorded, of
      a REJECTED intent. */
  lemma PaidButRejected(env: Env, s: Sys, id: string, a: Answer<ExecuteOutcome>, order: seq<string>)
    requires Inv(s) && ReadyToExecute(s, id) && a.outcome.ExecuteOk? && a.outcome.feeSat >= 0
    requires id !in s.disk.store.receipts && Enumerates(order, s.disk.snapshot.records.Keys)
    ensures var s1 := Next(env, s, Kill(Do(CmdExecute(id, a)), 3));
            var s2 := Next(env, s1, Run(Boot(order, map[])));
            var s3 := Next(env, s2, Run(Do(CmdReject(id))));
            && id in Durable(s3.disk) && Durable(s3.disk)[id].state == Rejected
            && id in s3.disk.store.receipts && s3.disk.store.receipts[id] == a.outcome.settlementRef
  {
    hide Inv, Next, ReadyToExecute, LosesReceipt;
    var kill, boot := Kill(Do(CmdExecute(id, a)), 3), Run(Boot(order, map[]));
    KilledExecuteSplits(env, s, id, a);
    NextKeeps(env, s, kill);
    var s1 := Next(env, s, kill);
    RestartStaysReady(env, s1, id, order);
    NextKeeps(env, s1, boot);
    BootKeepsStore(env, s1, order);
    RejectApproved(env, Next(env, s1, boot), id);
  }

  lemma RejectApproved(env: Env, s: Sys, id: string)
    requires Inv(s) && ReadyToExecute(s, id)
    ensures var s' := Next(env, s, Run(Do(CmdReject(id))));
            && id in Durable(s'.disk) && Durable(s'.disk)[id].state == Rejected && s'.disk.store == s.disk.store
  {
    hide Inv, Next;
    InvMemory(s);
    DoNext(env, s, CmdReject(id));
  }

  lemma BootKeepsStore(env: Env, s: Sys, order: seq<string>)
    requires Inv(s) && Enumerates(order, s.disk.snapshot.records.Keys)
    ensures Next(env, s, Run(Boot(order, map[]))).disk.store == s.disk.store
  {
    RestartStore(s, order, map[]);
  }

  /** confirm_settled, killed between its save and the snapshot, loses its marker,
      unless it was stored before. */
  lemma KilledConfirmSplits(env: Env, s: Sys, id: string)
    requires Inv(s) && s.memory.Some? && id in Durable(s.disk) && Durable(s.disk)[id].state == ReconciliationRequired
    requires id !in s.disk.store.receipts || s.disk.store.receipts[id] != ManualMarker(id)
    ensures var step := Kill(Do(CmdConfirmSettled(id)), 1);
            var s1 := Next(env, s, step);
            && LosesReceipt(env, s, step, id)
            && s1.disk.store.receipts == s.disk.store.receipts[id := ManualMarker(id)]
            && id in Durable(s1.disk) && Durable(s1.disk)[id].state == ReconciliationRequired
  {
    hide Inv;
    var o := Perform(env, Durable(s.disk), s.disk.store, CmdConfirmSettled(id));
    KilledAfterSave(env, s, CmdConfirmSettled(id), o, 1, id);
  }

  /** confirm_settled does not look at the stored reference: it leaves the receipts
      alone exactly when the intent is not in reconciliation or the marker is what is
      stored already. */
  lemma ConfirmKeepsExactly(env: Env, recs: Records, store: StoreView, id: string)
    requires id in recs && id in store.receipts
    ensures Perform(env, recs, store, CmdConfirmSettled(id)).store.receipts == store.receipts
            <==> recs[id].state != ReconciliationRequired || store.receipts[id] == ManualMarker(id)
  {
    var marked := store.receipts[id := ManualMarker(id)];
    assert marked[id] == ManualMarker(id);
    if store.receipts[id] == ManualMarker(id) { assert marked == store.receipts; }
  }

  /** Killed between the store save and the snapshot, an accepted receipt leaves a
      receipt in the store for an intent that is not SETTLED on disk. */
  lemma KilledReceiptSplits(env: Env, s: Sys, receipt: Receipt, answer: Answer<VerifyOutcome>)
    requires Inv(s) && Settleable(s, receipt, answer)
    ensures var s1 := Next(env, s, Kill(Do(CmdReceiveReceipt(receipt, answer)), 2));
            && s1.disk.store.receipts == s.disk.store.receipts[receipt.intentId := receipt.settlementRef]
            && s1.disk.snapshot == s.disk.snapshot
            && Durable(s1.disk)[receipt.intentId].state != Settled
            && LosesReceipt(env, s, Kill(Do(CmdReceiveReceipt(receipt, answer)), 2), receipt.intentId)
  {
    hide ReceiptChange, Inv;
    var cmd := CmdReceiveReceipt(receipt, answer);
    var recs, store := Durable(s.disk), s.disk.store;
    assert s.memory.value.recs == recs by { InvMemory(s); }
    SettleEffects(recs[receipt.intentId], store, receipt, answer);
    KilledAfterSave(env, s, cmd, Perform(env, recs, store, cmd), 2, receipt.intentId);
  }

  lemma InvMemory(s: Sys)
    requires Inv(s) && s.memory.Some?
    ensures s.memory.value.recs == Durable(s.disk)
  {
  }

  lemma RestartedState(env: Env, s: Sys, order: seq<string>, answers: Answers, id: string)
    requires Inv(s) && Enumerates(order, s.disk.snapshot.records.Keys) && id in Durable(s.disk)
    requires Durable(s.disk)[id].state == Executing || Durable(s.disk)[id].state == ReconciliationRequired
    ensures var s' := Next(env, s, Run(Boot(order, answers)));
            && Inv(s') && s'.memory.Some? && s'.disk.store == s.disk.store
            && id in s'.memory.value.recs && s'.memory.value.recs[id].state == ReconciliationRequired
  {
    hide Inv;
    NextKeeps(env, s, Run(Boot(order, answers)));
    RecoverySound(s, order, answers, false);
    RestartStore(s, order, answers);
  }

  /** After a restart, confirm_settled replaces whatever reference is stored. */
  lemma ManualOverwrites(env: Env, s: Sys, order: seq<string>, answers: Answers, id: string)
    requires Inv(s) && Enumerates(order, s.disk.snapshot.records.Keys) && id in Durable(s.disk)
    requires Durable(s.disk)[id].state == Executing || Durable(s.disk)[id].state == ReconciliationRequired
    ensures var s' := Next(env, s, Run(Boot(order, answers)));
            Next(env, s', Run(Do(CmdConfirmSettled(id)))).disk.store.receipts == s.disk.store.receipts[id := ManualMarker(id)]
  {
    RestartedState(env, s, order, answers, id);
    ConfirmStores(env, Next(env, s, Run(Boot(order, answers))), id);
  }

  lemma ConfirmStores(env: Env, s: Sys, id: string)
    requires Inv(s) && s.memory.Some? && id in s.memory.value.recs
    requires s.memory.value.recs[id].state == ReconciliationRequired
    ensures Next(env, s, Run(Do(CmdConfirmSettled(id)))).disk.store.receipts == s.disk.store.receipts[id := ManualMarker(id)]
  {
    hide Inv, Next;
    DoNext(env, s, CmdConfirmSettled(id));
  }

  const RECEIPT := Receipt("i", "q", "bob", "ref", 1000, 1, Lightning)
  const VERIFIED := Answer([], VerifyOk(VerifyResult(true, "ref", 1000, 1)))

  /** One kill is enough to break the one-cause-one-binding rule of clean runs: a
      run with a single kill, then a restart, leads to a stored reference without
      settlement, which a manual confirmation then overwrites. */
  lemma OneKillBreaksBinding(env: Env) returns (steps: seq<Step>, kill: Step, rest: seq<Step>)
    requires env.recipientOk("bob") && env.railOk(Lightning)
    ensures NoKills(steps) && kill.Kill? && NoKills(rest)
    ensures var s := Exec(env, steps + [kill]);
            && s.disk.store.receipts == map["i" := "ref"]
            && "i" in Durable(s.disk) && Durable(s.disk)["i"].state == ReconciliationRequired
    ensures Exec(env, steps + [kill] + rest).disk.store.receipts == map["i" := ManualMarker("i")]
  {
    hide Perform, Exec, Behave, Inv;
    var ready, s, p := ReachUnresolved(env);
    steps := ready;
    kill := Kill(Do(CmdReceiveReceipt(RECEIPT, VERIFIED)), 2);
    KilledReceiptSplits(env, s, RECEIPT, VERIFIED);
    var killed := steps + [kill];
    ExecSnoc(env, steps, kill);
    AlwaysInv(env, killed);
    var s1 := Exec(env, killed);
    var boot, confirm := Run(Boot(["i"], map[])), Run(Do(CmdConfirmSettled("i")));
    assert Durable(s1.disk) == Durable(s.disk) && s1.disk.snapshot.records.Keys == Durable(s1.disk).Keys;
    assert Enumerates(["i"], s1.disk.snapshot.records.Keys);
    ManualOverwrites(env, s1, ["i"], map[], "i");
    rest := [boot, confirm];
    ExecSnoc(env, killed, boot);
    ExecSnoc(env, killed + [boot], confirm);
    assert killed + rest == killed + [boot] + [confirm];
  }

  lemma ExecSnoc(env: Env, steps: seq<Step>, step: Step)
    ensures Exec(env, steps + [step]) == Next(env, Exec(env, steps), step)
  {
    assert (steps + [step])[..|steps|] == steps;
  }

  /** From APPROVED, an ambiguous execute leaves the intent unresolved. */
  lemma ReachUnresolved(env: Env) returns (steps: seq<Step>, s: Sys, p: PrepareResult)
    requires env.recipientOk("bob") && env.railOk(Lightning)
    ensures NoKills(steps) && Exec(env, steps) == s && Inv(s)
    ensures s.memory.Some? && Durable(s.disk) == map["i" := ApprovedWith(p).(state := ReconciliationRequired)]
    ensures s.disk.store.receipts == map[]
  {
    hide Reached, Inv, Exec;
    var ready, s0, p0 := ReachApproved(env);
    p := p0;
    s := ExecuteOnce(env, ready, s0, p);
    steps := ready + [Run(Do(CmdExecute("i", Unanswered(env, p))))];
    ReachedIs(env, steps, s);
  }

  /** One kill is enough to dispatch twice: the intent goes out, the process dies
      before the snapshot, and after the restart it goes out again. */
  lemma OneKillSendsTwice(env: Env) returns (steps: seq<Step>, kill: Step, rest: seq<Step>)
    requires env.recipientOk("bob") && env.railOk(Lightning)
    ensures NoKills(steps) && kill.Kill? && NoKills(rest)
    ensures Executions(Exec(env, steps + [kill] + rest).log, "i") == Executions(Exec(env, steps).log, "i") + 2
  {
    hide Exec, Inv, Behave, Perform, Reached;
    var ready, s, p := ReachApproved(env);
    steps := ready;
    var lost := Unanswered(env, p);
    kill := Kill(Do(CmdExecute("i", lost)), 2);
    var boot, again := Run(Boot(["i"], map[])), Run(Do(CmdExecute("i", lost)));
    rest := [boot, again];
    ReachedIs(env, steps, s);
    assert s.disk.snapshot.records.Keys == Durable(s.disk).Keys;
    KillAllowsResend(env, s, "i", ["i"], lost, lost);
    ExecSnoc(env, steps, kill);
    ExecSnoc(env, steps + [kill], boot);
    ExecSnoc(env, steps + [kill] + [boot], again);
    assert steps + [kill] + rest == steps + [kill] + [boot] + [again];
  }
}
