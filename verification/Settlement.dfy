/** Runs whose restarts fall between commands: the audit trail, the receipts and
    the intent states agree, whatever the adapter answers. */
module Settlement {
  import opened Wrappers
  import opened StateMachine
  import opened Model
  import opened Store
  import opened Lifecycle
  import opened Committed
  import opened System
  import opened Safety
  import opened Audit

  /** The recorded reference is that of the receipt the record holds, whose
      amount is the intent's, or the manual marker when it holds none. */
  ghost predicate Bound(id: string, r: Record, ref: string) {
    || (r.receipt.Some? && r.receipt.value.intentId == id
        && r.receipt.value.amountSat == r.intent.amountSat && r.receipt.value.settlementRef == ref)
    || (r.receipt.None? && ref == ManualMarker(id))
  }

  ghost predicate SettledRecord(id: string, r: Record, receipts: map<string, string>) {
    && (r.state == Settled <==> id in receipts)
    && (r.state != Settled ==> r.receipt.None?)
    && (r.state == Settled ==> Bound(id, r, receipts[id]))
  }

  /** One intent and the receipt the store holds for it agree. */
  ghost predicate SettledAt(recs: Records, receipts: map<string, string>, id: string) {
    && (id in recs ==> SettledRecord(id, recs[id], receipts))
    && (id in receipts ==> id in recs)
  }

  /** A change settles its own intent or leaves the receipts alone. */
  ghost predicate Settles(id: string, r: Record, store: StoreView, c: Change) {
    && SettledRecord(id, c.rec, c.store.receipts)
    && (r.state == Settled ==> c.rec.receipt == r.receipt)
    && (c.store.receipts == store.receipts
        || (r.state != Settled && c.rec.state == Settled && c.store.receipts.Keys == store.receipts.Keys + {id}
            && c.store.receipts - {id} == store.receipts - {id}))
  }

  lemma NegotiationSettles(env: Env, recs: Records, store: StoreView, cmd: Command, c: Change)
    requires cmd.CmdReceiveQuote? || cmd.CmdPrepare? || cmd.CmdApprove? || cmd.CmdReconcile? || cmd.CmdCancel? || cmd.CmdReject?
    requires var id := Target(cmd); id in recs && RecordOk(id, recs[id], store) && SettledRecord(id, recs[id], store.receipts)
    requires Perform(env, recs, store, cmd) == With(recs, Target(cmd), c)
    ensures Settles(Target(cmd), recs[Target(cmd)], store, c)
  {
    hide RecordOk;
    assert c.rec == Perform(env, recs, store, cmd).recs[Target(cmd)];
  }

  lemma ExecuteSettles(id: string, r: Record, store: StoreView, answer: Answer<ExecuteOutcome>)
    requires RecordOk(id, r, store) && SettledRecord(id, r, store.receipts)
    ensures Settles(id, r, store, ExecuteChange(r, store, answer))
  {
  }

  lemma ReceiptSettles(id: string, r: Record, store: StoreView, receipt: Receipt, answer: Answer<VerifyOutcome>)
    requires RecordOk(id, r, store) && SettledRecord(id, r, store.receipts) && receipt.intentId == id
    ensures Settles(id, r, store, ReceiptChange(r, store, receipt, answer))
  {
  }

  lemma ConfirmSettles(id: string, r: Record, store: StoreView)
    requires RecordOk(id, r, store) && SettledRecord(id, r, store.receipts)
    ensures Settles(id, r, store, ConfirmChange(r, store, id))
  {
  }

  lemma CallSettles(env: Env, recs: Records, store: StoreView, cmd: Command, c: Change)
    requires !cmd.CmdSubmit? && !cmd.CmdCheckExpired? && !cmd.CmdStatus?
    requires RecordsOk(recs, store) && Target(cmd) in recs
    requires SettledRecord(Target(cmd), recs[Target(cmd)], store.receipts)
    requires Perform(env, recs, store, cmd) == With(recs, Target(cmd), c)
    ensures Settles(Target(cmd), recs[Target(cmd)], store, c)
  {
    var id := Target(cmd);
    var r := recs[id];
    assert RecordOk(id, r, store);
    assert c.rec == With(recs, id, c).recs[id];
    match cmd
    case CmdExecute(_, a) =>
      ExecuteSettles(id, r, store, a);
      assert c == ExecuteChange(r, store, a) by { assert ExecuteChange(r, store, a).rec == Perform(env, recs, store, cmd).recs[id]; }
    case CmdReceiveReceipt(x, a) =>
      ReceiptSettles(id, r, store, x, a);
      assert c == ReceiptChange(r, store, x, a) by { assert ReceiptChange(r, store, x, a).rec == Perform(env, recs, store, cmd).recs[id]; }
    case CmdConfirmSettled(_) =>
      ConfirmSettles(id, r, store);
      assert c == ConfirmChange(r, store, id) by { assert ConfirmChange(r, store, id).rec == Perform(env, recs, store, cmd).recs[id]; }
    case _ => NegotiationSettles(env, recs, store, cmd, c);
  }

  /** A call binds no receipt but its own intent's. */
  lemma ReceiptsLocal(env: Env, recs: Records, store: StoreView, cmd: Command, x: string)
    requires RecordsOk(recs, store)
    requires cmd.CmdSubmit? || cmd.CmdCheckExpired? || cmd.CmdStatus? || Target(cmd) != x
    ensures var receipts := Perform(env, recs, store, cmd).store.receipts;
            (x in receipts <==> x in store.receipts) && (x in receipts ==> receipts[x] == store.receipts[x])
  {
    if cmd.CmdExecute? && cmd.pick in recs { assert RecordOk(cmd.pick, recs[cmd.pick], store); }
  }

  /** What holds of intent `x` between two states of records and receipts. */
  ghost predicate SettlesAt(recs: Records, receipts: map<string, string>, recs': Records, receipts': map<string, string>, x: string) {
    && SettledAt(recs', receipts', x)
    && (x in receipts ==>
          && x in receipts' && receipts'[x] == receipts[x]
          && x in recs && x in recs' && recs'[x].receipt == recs[x].receipt)
  }

  /** Unresolved executions may move and get evidence; nothing else changes. */
  lemma QuietSettles(recs: Records, store: StoreView, o: Outcome, x: string)
    requires SettledAt(recs, store.receipts, x) && OnlyRecovers(recs, store, o)
    ensures SettlesAt(recs, store.receipts, o.recs, o.store.receipts, x)
  {
    if x in recs { assert o.recs[x] == recs[x] || o.recs[x].state == ReconciliationRequired; }
  }

  lemma SweepSettles(recs: Records, store: StoreView, order: seq<string>, only: Option<set<string>>, now: int, x: string)
    requires SettledAt(recs, store.receipts, x)
    ensures var o := CheckExpired(recs, store, order, only, now);
            SettlesAt(recs, store.receipts, o.recs, o.store.receipts, x)
  {
    OverdueOnly(recs, order, only, now);
    ExpireAllOk(recs, OverdueIn(recs, order, only, now));
  }

  lemma SubmitSettles(env: Env, recs: Records, store: StoreView, intent: Intent, now: int, x: string)
    requires RecordsOk(recs, store) && SettledAt(recs, store.receipts, x)
    ensures var o := Submit(env, recs, store, intent, now);
            SettlesAt(recs, store.receipts, o.recs, o.store.receipts, x)
  {
    assert intent.id in recs ==> intent.id in store.intents;
    AdmitOk(store, intent);
  }

  lemma TargetSettles(env: Env, recs: Records, store: StoreView, cmd: Command, x: string)
    requires !cmd.CmdSubmit? && !cmd.CmdCheckExpired? && !cmd.CmdStatus?
    requires RecordsOk(recs, store) && SettledAt(recs, store.receipts, x)
    ensures var o := Perform(env, recs, store, cmd);
            SettlesAt(recs, store.receipts, o.recs, o.store.receipts, x)
  {
    hide Perform, SettledRecord, RecordOk;
    var id := Target(cmd);
    if id !in recs {
      Untracked(env, recs, store, cmd);
    } else {
      var c := CallTraces(env, recs, store, cmd);
      if x == id {
        CallSettles(env, recs, store, cmd, c);
        SettledTarget(recs, store, id, c);
      } else {
        ReceiptsLocal(env, recs, store, cmd, x);
        SettledElsewhere(x, recs, store.receipts, c.store.receipts);
      }
    }
  }

  lemma SettledTarget(recs: Records, store: StoreView, id: string, c: Change)
    requires id in recs && SettledAt(recs, store.receipts, id) && Settles(id, recs[id], store, c)
    ensures SettlesAt(recs, store.receipts, recs[id := c.rec], c.store.receipts, id)
  {
  }

  lemma SettledElsewhere(x: string, recs: Records, a: map<string, string>, b: map<string, string>)
    requires SettledAt(recs, a, x) && (x in b <==> x in a) && (x in b ==> b[x] == a[x])
    ensures SettledAt(recs, b, x)
  {
  }

  /** Every call keeps the agreement for every intent that has it, whatever the
      others look like, and changes no receipt already bound. */
  lemma EngineSettles(env: Env, recs: Records, store: StoreView, cmd: Command, x: string)
    requires RecordsOk(recs, store) && SettledAt(recs, store.receipts, x)
    ensures var o := Perform(env, recs, store, cmd);
            SettlesAt(recs, store.receipts, o.recs, o.store.receipts, x)
  {
    hide SettledAt;
    match cmd
    case CmdSubmit(i, now) => SubmitSettles(env, recs, store, i, now, x);
    case CmdCheckExpired(order, only, now) => SweepSettles(recs, store, order, only, now, x);
    case CmdStatus => QuietSettles(recs, store, Outcome(recs, store, [], None), x);
    case _ => TargetSettles(env, recs, store, cmd, x);
  }

  // ------------------------------------------------------------------
  // Whole actions
  // ------------------------------------------------------------------

  ghost predicate CleanInv(s: Sys) {
    && Inv(s)
    && AuditOk(s.disk.audit, Durable(s.disk))
  }

  /** What an action that runs to its end establishes on disk. */
  ghost predicate Lands(s': Sys) {
    AuditOk(s'.disk.audit, Durable(s'.disk))
  }

  lemma SnapshotKeepsAudit(d: Disk, es: seq<Effect>, snap: Snapshot)
    ensures ApplyAll(d, es + [Snapshotted(snap)]).audit == ApplyAll(d, es).audit
  {
    ApplyConcat(d, es, [Snapshotted(snap)]);
    var d1 := ApplyAll(d, es);
    assert ApplyAll(d1, [Snapshotted(snap)]) == Apply(d1, Snapshotted(snap));
  }

  lemma DoLands(env: Env, s: Sys, cmd: Command)
    requires CleanInv(s) && s.memory.Some?
    ensures Lands(Next(env, s, Run(Do(cmd))))
  {
    var recs, store := Durable(s.disk), s.disk.store;
    var o := Perform(env, recs, store, cmd);
    PerformOk(env, recs, store, cmd);
    EngineAudited(env, s.disk, recs, store, cmd);
    var m := s.memory.value.(recs := o.recs);
    RunThrough(s, o, m);
    SnapshotKeepsAudit(s.disk, o.effects, Take(m));
  }

  lemma RecoveredAudit(audit: seq<Entry>, recs: Records, order: seq<string>, recs': Records, answers: Answers)
    requires RecoveredTo(audit, recs, order)
    requires recs'.Keys == recs.Keys && (forall id :: id in recs ==> id in order)
    requires forall id :: id in recs ==> recs'[id] == Recovered(recs[id], AnswerFor(answers, id).outcome)
    ensures AuditOk(audit, recs')
  {
    forall id ensures Audited(audit, id) == StateOf(recs', id) {
      assert Audited(audit, id) == StateAfterRecovery(recs, order, id);
    }
  }

  lemma ReloadAgrees(s: Sys, order: seq<string>, answers: Answers, live: bool)
    requires CleanInv(s) && Enumerates(order, s.disk.snapshot.records.Keys)
    requires live ==> s.memory.Some?
    ensures var base := if live then s.memory.value else FRESH;
            var o := RecoverRecords(base.recs, s.disk.store, s.disk.snapshot.records, order, answers);
            AuditOk(ApplyAll(s.disk, o.effects).audit, o.recs)
  {
    var recs, store, saved := Durable(s.disk), s.disk.store, s.disk.snapshot.records;
    var base := if live then s.memory.value else FRESH;
    RecoverySound(s, order, answers, live);
    ReencodeSaved(saved);
    RecoveryAudited(s.disk, recs, store, base.recs, saved, order, answers);
    var o := RecoverRecords(base.recs, store, saved, order, answers);
    RecoveredAudit(ApplyAll(s.disk, o.effects).audit, recs, order, o.recs, answers);
  }

  lemma ReloadDisk(s: Sys, order: seq<string>, answers: Answers, live: bool, b: Behaviour)
    requires CleanInv(s) && Enumerates(order, s.disk.snapshot.records.Keys)
    requires live ==> s.memory.Some?
    requires b == Reload(if live then s.memory.value else FRESH, s.disk, order, answers, live)
    ensures Lands(Sys(b.memory, ApplyAll(s.disk, b.effects), s.log + b.effects))
  {
    var base := if live then s.memory.value else FRESH;
    var o := RecoverRecords(base.recs, s.disk.store, s.disk.snapshot.records, order, answers);
    ReloadAgrees(s, order, answers, live);
    ReloadOutcome(s, order, answers, live);
    RecoverySound(s, order, answers, live);
    if Durable(s.disk) == map[] {
      ReloadNothing(s, order);
      assert b.effects == [];
    } else {
      RunThrough(s, o, b.memory.value);
      SnapshotKeepsAudit(s.disk, o.effects, Take(b.memory.value));
    }
  }

  lemma ReloadLands(env: Env, s: Sys, act: Action)
    requires CleanInv(s) && (act.Boot? || (act.Recover? && s.memory.Some?))
    requires Enumerates(act.order, s.disk.snapshot.records.Keys)
    ensures Lands(Next(env, s, Run(act)))
  {
    ReloadDisk(s, act.order, act.answers, act.Recover?, Behave(env, s, act));
  }

  lemma ReceiveLands(env: Env, s: Sys, messages: seq<PeerMessage>)
    requires CleanInv(s) && s.memory.Some?
    ensures Lands(Next(env, s, Run(Receive(messages))))
  {
    var recs := Durable(s.disk);
    var idle := Outcome(recs, s.disk.store, [], None);
    QuietIsOk(recs, s.disk.store, idle);
    AbsorbKeeps(s.memory.value, messages);
    var m := Absorb(s.memory.value, messages);
    RunThrough(s, idle, m);
    SnapshotKeepsAudit(s.disk, [], Take(m));
    assert [] + [Snapshotted(Take(m))] == [Snapshotted(Take(m))];
  }

  lemma RunLands(env: Env, s: Sys, act: Action)
    requires CleanInv(s)
    ensures Lands(Next(env, s, Run(act)))
  {
    if (act.Boot? || (act.Recover? && s.memory.Some?)) && Enumerates(act.order, s.disk.snapshot.records.Keys) {
      ReloadLands(env, s, act);
    } else if act.Do? && s.memory.Some? {
      DoLands(env, s, act.cmd);
    } else if act.Receive? && s.memory.Some? {
      ReceiveLands(env, s, act.messages);
    }
  }

  lemma {:induction false} AlwaysClean(env: Env, steps: seq<Step>)
    requires NoKills(steps)
    ensures CleanInv(Exec(env, steps))
  {
    AlwaysInv(env, steps);
    if steps == [] {
      assert Durable(FIRST.disk) == map[];
    } else {
      AlwaysClean(env, steps[..|steps| - 1]);
      RunLands(env, Exec(env, steps[..|steps| - 1]), steps[|steps| - 1].act);
    }
  }

  // ------------------------------------------------------------------
  // The theorems
  // ------------------------------------------------------------------

  /** The audit file reconstructs the lifecycle: after every command, returning
      or raising, and every restart between commands, the last audited state of
      each intent is its current state, and each entry repeats its intent's
      previous audited state or moves along one edge of the automaton. */
  lemma AuditReconstructs(env: Env, steps: seq<Step>, id: string)
    requires NoKills(steps)
    ensures var s := Exec(env, steps);
            && FollowsAutomaton(s.disk.audit)
            && Audited(s.disk.audit, id) == StateOf(Durable(s.disk), id)
            && (s.memory.Some? ==> Audited(s.disk.audit, id) == StateOf(s.memory.value.recs, id))
  {
    AlwaysClean(env, steps);
  }

  /** Audited state changes of an intent. */
  function Changes(audit: seq<Entry>, id: string): nat {
    if audit == [] then 0
    else
      var front, last := audit[..|audit| - 1], audit[|audit| - 1];
      Changes(front, id) + if last.intentId == id && last.state != Audited(front, id) then 1 else 0
  }

  lemma {:induction false} ChangesClimb(audit: seq<Entry>, id: string)
    requires FollowsAutomaton(audit)
    ensures Changes(audit, id) <= Rank(Audited(audit, id))
  {
    if audit != [] {
      var front, last := audit[..|audit| - 1], audit[|audit| - 1];
      assert FollowsAutomaton(front) by {
        forall k | 0 <= k < |front| ensures Follows(Audited(front[..k], front[k].intentId), front[k].state) {
          assert front[..k] == audit[..k];
        }
      }
      ChangesClimb(front, id);
      assert Follows(Audited(front, last.intentId), last.state);
      if last.intentId == id && last.state != Audited(front, id) {
        EdgesClimb(Audited(front, id), last.state);
      }
    }
  }

  /** An intent changes state at most seven times in any run with restarts
      between commands, and never more often than the rank of its state. */
  lemma AtMostSevenChanges(env: Env, steps: seq<Step>, id: string)
    requires NoKills(steps)
    ensures var s := Exec(env, steps);
            Changes(s.disk.audit, id) <= Rank(StateOf(Durable(s.disk), id)) <= 7
  {
    AlwaysClean(env, steps);
    ChangesClimb(Exec(env, steps).disk.audit, id);
  }

  // ------------------------------------------------------------------
  // Settlement and its stored binding, with kills anywhere
  // ------------------------------------------------------------------

  /** On disk, SETTLED and the stored receipt of the intent agree. */
  ghost predicate SettledHere(s: Sys, id: string) {
    SettledAt(Durable(s.disk), s.disk.store.receipts, id)
  }

  predicate SameReceipt(a: map<string, string>, b: map<string, string>, id: string) {
    (id in a <==> id in b) && (id in a ==> a[id] == b[id])
  }

  /** The step was killed after saving a receipt of `id` and before its snapshot. */
  predicate LosesReceipt(env: Env, s: Sys, step: Step, id: string) {
    && step.Kill?
    && (exists e :: e in Left(env, s, step) && e.Saved? && !SameReceipt(e.store.receipts, s.disk.store.receipts, id))
    && (forall e :: e in Left(env, s, step) ==> !e.Snapshotted?)
  }

  ghost predicate SameBinding(a: Sys, b: Sys, id: string) {
    && id in a.disk.store.receipts && id in b.disk.store.receipts
    && b.disk.store.receipts[id] == a.disk.store.receipts[id]
    && id in Durable(a.disk) && id in Durable(b.disk)
    && Durable(b.disk)[id].receipt == Durable(a.disk)[id].receipt
  }

  /** The outcome of any action, for one intent. */
  lemma OutcomeSettles(env: Env, s: Sys, act: Action, id: string) returns (o: Outcome, snaps: bool)
    requires Inv(s) && SettledHere(s, id)
    ensures Shaped(s, Behave(env, s, act), o, snaps)
    ensures SettlesAt(Durable(s.disk), s.disk.store.receipts, o.recs, o.store.receipts, id)
  {
    hide Behave, Perform, SettledAt;
    o, snaps := Shape(env, s, act);
    if act.Do? && s.memory.Some? {
      EngineSettles(env, Durable(s.disk), s.disk.store, act.cmd, id);
    } else {
      QuietSettles(Durable(s.disk), s.disk.store, o, id);
    }
  }

  /** Cut short, the action keeps the agreement exactly when it saved no receipt of
      the intent. */
  lemma CutSettles(env: Env, s: Sys, step: Step, o: Outcome, id: string)
    requires step.Kill? && SettledHere(s, id) && OutcomeSaves(s.disk.store, o)
    requires SettlesAt(Durable(s.disk), s.disk.store.receipts, o.recs, o.store.receipts, id)
    requires |Left(env, s, step)| <= |o.effects| && Left(env, s, step) == o.effects[..|Left(env, s, step)|]
    requires Durable(Next(env, s, step).disk) == Durable(s.disk)
    ensures SettledHere(Next(env, s, step), id) <==> !LosesReceipt(env, s, step, id)
    ensures id in s.disk.store.receipts ==> SameBinding(s, Next(env, s, step), id)
  {
    hide Bound;
    var es := Left(env, s, step);
    CutStore(s, o, |es|);
    if Saved(o.store) in es {
      assert forall e :: e in es && e.Saved? ==> e.store == o.store;
    } else {
      assert forall e :: e in es ==> !e.Saved?;
    }
  }

  lemma WholeSettles(env: Env, s: Sys, step: Step, o: Outcome, m: Memory, id: string)
    requires Left(env, s, step) == o.effects + [Snapshotted(Take(m))]
    ensures !LosesReceipt(env, s, step, id)
  {
    var es := Left(env, s, step);
    assert es[|o.effects|].Snapshotted?;
    assert es[|o.effects|] in es;
  }

  /** From any state in which an intent agrees with its stored receipt, a step,
      killed or not, keeps the agreement if and only if it is not killed between
      saving a receipt of that intent and its snapshot; a receipt already bound is
      never changed. */
  lemma StepSettles(env: Env, s: Sys, step: Step, id: string)
    requires Inv(s) && SettledHere(s, id)
    ensures SettledHere(Next(env, s, step), id) <==> !LosesReceipt(env, s, step, id)
    ensures id in s.disk.store.receipts ==> SameBinding(s, Next(env, s, step), id) && SettledHere(Next(env, s, step), id)
  {
    hide SettledRecord, Behave, Inv, OutcomeOk;
    var b := Behave(env, s, step.act);
    var o, snaps := OutcomeSettles(env, s, step.act, id);
    var es := Left(env, s, step);
    if !snaps {
      assert es == [] && ApplyAll(s.disk, es) == s.disk;
    } else if es == b.effects {
      RunThrough(s, o, b.memory.value);
      WholeSettles(env, s, step, o, b.memory.value, id);
    } else {
      assert es == o.effects[..|es|];
      CutShort(s, o, |es|);
      OutcomeSavesOf(s, o);
      CutSettles(env, s, step, o, id);
      if id in s.disk.store.receipts { BoundStays(s, Next(env, s, step), id); }
    }
  }

  lemma OutcomeSavesOf(s: Sys, o: Outcome)
    requires OutcomeOk(Durable(s.disk), s.disk.store, o)
    ensures OutcomeSaves(s.disk.store, o)
  {
  }

  lemma BoundStays(a: Sys, b: Sys, id: string)
    requires SettledHere(a, id) && SameBinding(a, b, id) && Durable(b.disk) == Durable(a.disk)
    ensures SettledHere(b, id)
  {
  }

  ghost predicate AlwaysSettledHere(env: Env, steps: seq<Step>, id: string) {
    forall i :: 0 <= i <= |steps| ==> SettledHere(Exec(env, steps[..i]), id)
  }

  /** No step of the run is killed between saving a receipt of `id` and its
      snapshot. */
  ghost predicate NoReceiptLost(env: Env, steps: seq<Step>, id: string) {
    forall i :: 0 <= i < |steps| ==> !LosesReceipt(env, Exec(env, steps[..i]), steps[i], id)
  }

  lemma SplitLast(env: Env, steps: seq<Step>, id: string)
    ensures AlwaysSettledHere(env, steps, id) ==> SettledHere(Exec(env, steps), id)
    ensures steps == [] ==>
              NoReceiptLost(env, steps, id) && (AlwaysSettledHere(env, steps, id) <==> SettledHere(Exec(env, steps), id))
    ensures steps != [] ==>
              var front := steps[..|steps| - 1];
              && (AlwaysSettledHere(env, steps, id) <==> AlwaysSettledHere(env, front, id) && SettledHere(Exec(env, steps), id))
              && (NoReceiptLost(env, steps, id) <==>
                    NoReceiptLost(env, front, id) && !LosesReceipt(env, Exec(env, front), steps[|steps| - 1], id))
  {
    hide Exec, SettledHere, LosesReceipt;
    assert steps[..|steps|] == steps;
    if steps != [] {
      var front := steps[..|steps| - 1];
      assert forall i :: 0 <= i <= |front| ==> front[..i] == steps[..i];
      assert forall i :: 0 <= i < |front| ==> front[i] == steps[i];
    } else {
      assert forall i :: 0 <= i <= |steps| ==> steps[..i] == [];
    }
  }

  /** Exactly when the binding rule holds: at every moment of a run, with kills
      anywhere, SETTLED and the stored receipt of an intent agree, if and only if no
      kill falls between saving a receipt of that intent and the snapshot. */
  lemma {:induction false} SettlementExactly(env: Env, steps: seq<Step>, id: string)
    ensures AlwaysSettledHere(env, steps, id) <==> NoReceiptLost(env, steps, id)
  {
    hide LosesReceipt, AlwaysSettledHere, NoReceiptLost, Inv, Next;
    SplitLast(env, steps, id);
    if steps == [] {
      assert Durable(FIRST.disk) == map[];
    } else {
      var front := steps[..|steps| - 1];
      SettlementExactly(env, front, id);
      SplitLast(env, front, id);
      AlwaysInv(env, front);
      if SettledHere(Exec(env, front), id) { StepSettles(env, Exec(env, front), steps[|steps| - 1], id); }
    }
  }

  /** One cause, one binding: as long as no kill loses a receipt of the intent, it is
      SETTLED exactly when the store holds a receipt for it; the stored reference is
      the held receipt's, whose amount is the intent's, or the manual marker. */
  lemma SettlementBinding(env: Env, steps: seq<Step>, id: string)
    requires NoReceiptLost(env, steps, id)
    ensures var s := Exec(env, steps);
            var recs, receipts := Durable(s.disk), s.disk.store.receipts;
            && (id in receipts <==> id in recs && recs[id].state == Settled)
            && (id in receipts ==> Bound(id, recs[id], receipts[id]))
  {
    hide Exec, LosesReceipt, AlwaysSettledHere, NoReceiptLost;
    SettlementExactly(env, steps, id);
    SplitLast(env, steps, id);
    assert SettledHere(Exec(env, steps), id);
  }

  /** Restarts between commands lose no receipt. */
  lemma CleanLosesNothing(env: Env, steps: seq<Step>, id: string)
    requires NoKills(steps)
    ensures NoReceiptLost(env, steps, id)
  {
  }

  /** Once bound, no later operation, restart or kill changes a binding, nor the
      receipt behind it. */
  lemma {:induction false} BindingForever(env: Env, steps: seq<Step>, more: seq<Step>, id: string)
    requires NoReceiptLost(env, steps, id) && id in Exec(env, steps).disk.store.receipts
    ensures SameBinding(Exec(env, steps), Exec(env, steps + more), id) && SettledHere(Exec(env, steps + more), id)
    decreases |more|
  {
    hide LosesReceipt, NoReceiptLost, AlwaysSettledHere, Inv, Next;
    if more == [] {
      assert steps + more == steps;
      SettlementExactly(env, steps, id);
      SplitLast(env, steps, id);
    } else {
      var front, last := more[..|more| - 1], more[|more| - 1];
      assert (steps + more)[..|steps + more| - 1] == steps + front;
      BindingForever(env, steps, front, id);
      AlwaysInv(env, steps + front);
      StepSettles(env, Exec(env, steps + front), last, id);
    }
  }
}
