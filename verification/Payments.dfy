/** Money when the process is killed: what can be asked for again, what a daemon
    that honours each token once pays, and what a settlement audited by execute
    refers to. */
module Payments {
  import opened Wrappers
  import opened StateMachine
  import opened Model
  import opened Store
  import opened Lifecycle
  import opened Committed
  import opened System
  import opened Safety
  import opened Dispatch
  import opened Parsing
  import opened Wavelength
  import opened Money

  // ------------------------------------------------------------------
  // Every dispatch within its intent's budget
  // ------------------------------------------------------------------

  type Counts = map<string, nat>

  function Times(n: nat, r: Record): nat { n * Budget(r) }

  lemma OnceMore(n: nat, r: Record)
    ensures Times(n + 1, r) == Times(n, r) + Budget(r)
  {
    var b := Budget(r);
    assert (n + 1) * b == n * b + b;
  }

  /** The budgets of the intents, each as often as counted. */
  ghost function SumTimes(ids: set<string>, counts: Counts, recs: Records): nat
    requires ids <= recs.Keys && ids <= counts.Keys
  {
    if ids == {} then 0
    else var id :| id in ids; Times(counts[id], recs[id]) + SumTimes(ids - {id}, counts, recs)
  }

  lemma {:induction false} TimesRemove(ids: set<string>, id: string, counts: Counts, recs: Records)
    requires ids <= recs.Keys && ids <= counts.Keys && id in ids
    ensures SumTimes(ids, counts, recs) == Times(counts[id], recs[id]) + SumTimes(ids - {id}, counts, recs)
    decreases |ids|
  {
    hide Budget, Times;
    var x :| x in ids && SumTimes(ids, counts, recs) == Times(counts[x], recs[x]) + SumTimes(ids - {x}, counts, recs);
    if x != id {
      TimesRemove(ids - {x}, id, counts, recs);
      TimesRemove(ids - {id}, x, counts, recs);
      assert ids - {x} - {id} == ids - {id} - {x};
    }
  }

  lemma {:induction false} TimesSame(ids: set<string>, a: Counts, b: Counts, recs: Records)
    requires ids <= recs.Keys && ids <= a.Keys && ids <= b.Keys
    requires forall id :: id in ids ==> a[id] == b[id]
    ensures SumTimes(ids, a, recs) == SumTimes(ids, b, recs)
    decreases |ids|
  {
    hide Budget, Times;
    if ids != {} {
      var id :| id in ids;
      TimesRemove(ids, id, a, recs);
      TimesRemove(ids, id, b, recs);
      TimesSame(ids - {id}, a, b, recs);
    }
  }

  lemma TimesOneMore(ids: set<string>, id: string, a: Counts, b: Counts, recs: Records)
    requires ids <= recs.Keys && ids <= a.Keys && ids <= b.Keys && id in ids
    requires forall x :: x in ids ==> b[x] == if x == id then a[x] + 1 else a[x]
    ensures SumTimes(ids, b, recs) == SumTimes(ids, a, recs) + Budget(recs[id])
  {
    hide Budget, Times;
    TimesRemove(ids, id, a, recs);
    TimesRemove(ids, id, b, recs);
    TimesSame(ids - {id}, a, b, recs);
    OnceMore(a[id], recs[id]);
  }

  function CountsOf(ids: set<string>, log: seq<Effect>): Counts {
    map id | id in ids :: Executions(log, id)
  }

  lemma {:induction false} SentWithinExecutions(env: Env, recs: Records, log: seq<Effect>)
    requires PayOk(env, recs) && SendsOk(log) && DispatchesOk(recs, log)
    ensures TotalSent(log) <= SumTimes(recs.Keys, CountsOf(recs.Keys, log), recs)
  {
    hide Budget, RecordPays, SendOk;
    if log != [] {
      var front, e := log[..|log| - 1], log[|log| - 1];
      assert forall x :: x in front ==> x in log;
      SentWithinExecutions(env, recs, front);
      var a, b := CountsOf(recs.Keys, front), CountsOf(recs.Keys, log);
      if IsExecute(e) {
        var id := e.call.intentId;
        assert e in log;
        SentWithinBudget(env, recs[id], e);
        TimesOneMore(recs.Keys, id, a, b, recs);
      } else {
        TimesSame(recs.Keys, a, b, recs);
      }
    }
  }

  /** How often each intent was dispatched, by Dispatch.DispatchCount. */
  function LostAndDispatched(env: Env, steps: seq<Step>, recs: Records): Counts {
    map id | id in recs.Keys :: LostDispatches(env, steps, id) + DispatchedBit(recs, id)
  }

  lemma RunFacts(env: Env, steps: seq<Step>)
    requires WaveRun(env, steps)
    ensures var s := Exec(env, steps);
            var recs := Durable(s.disk);
            PayOk(env, recs) && SendsOk(s.log) && DispatchesOk(recs, s.log)
  {
    AlwaysInv(env, steps);
    AlwaysPays(env, steps);
  }

  /** The money bound under kills: over any run with kills anywhere, the outflows of
      all Sends together are at most the budgets, each taken once if the intent is
      dispatched and once more for every dispatch a kill lost before its snapshot. */
  lemma MoneyBoundWithKills(env: Env, steps: seq<Step>)
    requires WaveRun(env, steps)
    ensures var s := Exec(env, steps);
            var recs := Durable(s.disk);
            TotalSent(s.log) <= SumTimes(recs.Keys, LostAndDispatched(env, steps, recs), recs)
  {
    hide PayOk, SendsOk, DispatchesOk, LostDispatches, DispatchedBit, WaveRun, Exec, Executions, TotalSent, SumTimes;
    RunFacts(env, steps);
    var s := Exec(env, steps);
    var recs := Durable(s.disk);
    SentWithinExecutions(env, recs, s.log);
    var times := LostAndDispatched(env, steps, recs);
    forall id | id in recs.Keys ensures CountsOf(recs.Keys, s.log)[id] == times[id] {
      DispatchCount(env, steps, id);
    }
    TimesSame(recs.Keys, CountsOf(recs.Keys, s.log), times, recs);
  }

  // ------------------------------------------------------------------
  // A daemon that honours each token once
  // ------------------------------------------------------------------

  /** The tokens an adapter call sends. */
  function TokensOf(e: Effect): set<Json> {
    if e.Called? then set r | r in e.rpcs && r.Send? :: r.sendIntentId else {}
  }

  function Honoured(log: seq<Effect>): set<Json> {
    if log == [] then {} else Honoured(log[..|log| - 1]) + TokensOf(log[|log| - 1])
  }

  /** What a daemon pays that acts on a token the first time it sees it. */
  function TotalPaid(log: seq<Effect>): int {
    if log == [] then 0
    else
      var front, e := log[..|log| - 1], log[|log| - 1];
      TotalPaid(front) + if IsExecute(e) && !(TokensOf(e) <= Honoured(front)) then Outflow(e.call.prepared) else 0
  }

  /** The intents with a Send. */
  function SentIds(log: seq<Effect>): set<string> {
    if log == [] then {}
    else
      var e := log[|log| - 1];
      SentIds(log[..|log| - 1]) + if IsExecute(e) && HasSend(e) then {e.call.intentId} else {}
  }

  lemma {:induction false} SentIdsTracked(recs: Records, log: seq<Effect>)
    requires DispatchesOk(recs, log)
    ensures SentIds(log) <= recs.Keys
  {
    if log != [] { SentIdsTracked(recs, log[..|log| - 1]); }
  }

  lemma TokenIsPrepared(e: Effect)
    requires IsExecute(e) && SendOk(e)
    ensures TokensOf(e) == if HasSend(e) then {TokenOf(e.call.prepared)} else {}
  {
    if HasSend(e) {
      assert e.rpcs[0] == Send(TokenOf(e.call.prepared));
    }
  }

  /** The token of an intent that was sent before is known to the daemon. */
  lemma {:induction false} SentIsHonoured(recs: Records, log: seq<Effect>, id: string)
    requires DispatchesOk(recs, log) && SendsOk(log) && id in SentIds(log)
    ensures id in recs && recs[id].prepared.Some? && TokenOf(recs[id].prepared.value) in Honoured(log)
  {
    hide SendOk, HasSend, TokenOf;
    var front, e := log[..|log| - 1], log[|log| - 1];
    assert forall x :: x in front ==> x in log;
    if id in SentIds(front) {
      SentIsHonoured(recs, front, id);
    } else {
      assert e in log;
      TokenIsPrepared(e);
    }
  }

  lemma {:induction false} PaidWithinBudgets(env: Env, recs: Records, log: seq<Effect>)
    requires PayOk(env, recs) && SendsOk(log) && DispatchesOk(recs, log)
    ensures SentIds(log) <= recs.Keys && TotalPaid(log) <= SumBudgets(SentIds(log), recs)
  {
    hide Budget, RecordPays, SendOk, HasSend, TokenOf, Outflow;
    SentIdsTracked(recs, log);
    if log != [] {
      var front, e := log[..|log| - 1], log[|log| - 1];
      assert forall x :: x in front ==> x in log;
      PaidWithinBudgets(env, recs, front);
      if IsExecute(e) {
        var id := e.call.intentId;
        assert e in log && recs[id].prepared == Some(e.call.prepared);
        TokenIsPrepared(e);
        if HasSend(e) {
          if id in SentIds(front) {
            SentIsHonoured(recs, front, id);
            assert SentIds(log) == SentIds(front);
          } else {
            assert SentIds(log) - {id} == SentIds(front);
            SumRemove(SentIds(log), id, recs);
            OutflowWithinBudget(env, recs[id], e.call.prepared);
          }
        } else {
          assert SentIds(log) == SentIds(front);
        }
      } else {
        assert SentIds(log) == SentIds(front);
      }
    }
  }

  lemma OutflowWithinBudget(env: Env, r: Record, p: PrepareResult)
    requires RecordPays(env, r) && r.prepared == Some(p)
    ensures Outflow(p) <= Budget(r)
  {
  }

  /** Each intent is paid at most once, however often it is dispatched: a daemon that
      honours each token once pays at most the budgets of the distinct intents with a
      Send, over any run with kills anywhere. */
  lemma PaidOnce(env: Env, steps: seq<Step>)
    requires WaveRun(env, steps)
    ensures var s := Exec(env, steps);
            && SentIds(s.log) <= Durable(s.disk).Keys
            && TotalPaid(s.log) <= SumBudgets(SentIds(s.log), Durable(s.disk))
  {
    RunFacts(env, steps);
    PaidWithinBudgets(env, Durable(Exec(env, steps).disk), Exec(env, steps).log);
  }

  // ------------------------------------------------------------------
  // Settlements audited by execute
  // ------------------------------------------------------------------

  predicate IsSettled(e: Effect) {
    e.Logged? && e.entry.event.EvSettled?
  }

  /** The payment hash of a prepared payload. */
  function HashOf(p: PrepareResult): Json {
    if p.payload.JsonText? && p.payload.tree.JObj? && "payment_hash" in p.payload.tree.fields
    then p.payload.tree.fields["payment_hash"] else JNull
  }

  /** `e` audits the settlement of the dispatch `call`, with its payment hash. */
  predicate Settles(call: Effect, e: Effect) {
    && IsSettled(e) && IsExecute(call) && call.call.intentId == e.entry.intentId
    && JStr(e.entry.event.settlementRef) == HashOf(call.call.prepared)
  }

  /** An action audits a settlement only as its fourth effect, for the dispatch that
      is its second. */
  ghost predicate SettlesOwn(es: seq<Effect>) {
    forall k :: 0 <= k < |es| && IsSettled(es[k]) ==> k == 3 && Settles(es[1], es[3])
  }

  ghost predicate SettlesNothing(es: seq<Effect>) {
    forall e :: e in es ==> !IsSettled(e)
  }

  lemma NothingIsOwn(es: seq<Effect>)
    requires SettlesNothing(es)
    ensures SettlesOwn(es)
  {
    forall k | 0 <= k < |es| ensures !IsSettled(es[k]) { assert es[k] in es; }
  }

  lemma ExecuteSettlesOwn(env: Env, id: string, r: Record, store: StoreView, a: Answer<ExecuteOutcome>)
    requires RecordOk(id, r, store) && RecordPays(env, r) && WaveExecuted(env, r, a)
    ensures SettlesOwn(ExecuteChange(r, store, a).effects)
  {
    hide ExecuteAnswer;
    if r.state == Approved {
      ExecuteSettlesPrepared(env, id, r, store, a);
      if a.outcome.ExecuteOk? && a.outcome.feeSat >= 0 { SettledReference(r, store, a); }
    }
  }

  lemma SettledReference(r: Record, store: StoreView, a: Answer<ExecuteOutcome>)
    requires r.state == Approved && r.prepared.Some? && a.outcome.ExecuteOk? && a.outcome.feeSat >= 0
    ensures var c := ExecuteChange(r, store, a);
            && c.rec.state == Settled && c.store.receipts == store.receipts[r.intent.id := a.outcome.settlementRef]
            && |c.effects| == 4 && c.effects[3].Logged? && c.effects[3].entry.event == EvSettled(a.outcome.settlementRef)
            && c.effects[3].entry.intentId == r.intent.id
            && c.effects[1] == Called(CallExecute(r.intent.id, r.prepared.value), a.rpcs)
  {
  }

  lemma {:induction false} SweepSettlesNothing(recs: Records, ids: seq<string>)
    ensures SettlesNothing(ExpireAll(recs, ids).1)
  {
    if ids != [] { SweepSettlesNothing(recs, ids[..|ids| - 1]); }
  }

  lemma OthersSettleNothing(env: Env, recs: Records, store: StoreView, cmd: Command)
    requires !cmd.CmdExecute? && !cmd.CmdCheckExpired?
    ensures SettlesNothing(Perform(env, recs, store, cmd).effects)
  {
  }

  lemma CommandSettlesOwn(env: Env, recs: Records, store: StoreView, cmd: Command)
    requires RecordsOk(recs, store) && PayOk(env, recs) && WaveCommand(env, recs, cmd)
    ensures SettlesOwn(Perform(env, recs, store, cmd).effects)
  {
    hide ExecuteChange, RecordPays, SettlesOwn, SettlesNothing, RecordOk;
    var es := Perform(env, recs, store, cmd).effects;
    if cmd.CmdExecute? {
      if cmd.pick in recs {
        ExecuteSettlesOwn(env, cmd.pick, recs[cmd.pick], store, cmd.executeAnswer);
      } else {
        NothingSettles();
        NothingIsOwn(es);
      }
    } else if cmd.CmdCheckExpired? {
      NothingSettles();
      SweepSettlesNothing(recs, OverdueIn(recs, cmd.order, cmd.only, cmd.now));
      NothingIsOwn(es);
    } else {
      OthersSettleNothing(env, recs, store, cmd);
      NothingIsOwn(es);
    }
  }

  lemma NothingSettles()
    ensures SettlesNothing([])
  {
  }

  lemma {:induction false} RecoverySettlesNothing(base: Records, store: StoreView, saved: map<string, SavedRecord>,
                                                  order: seq<string>, answers: Answers)
    requires forall id :: id in order ==> id in saved
    ensures SettlesNothing(RecoverRecords(base, store, saved, order, answers).effects)
  {
    if order != [] { RecoverySettlesNothing(base, store, saved, order[..|order| - 1], answers); }
  }

  lemma SnapshotSettlesNothing(es: seq<Effect>, snap: Snapshot)
    requires SettlesOwn(es)
    ensures SettlesOwn(es + [Snapshotted(snap)])
  {
    var longer := es + [Snapshotted(snap)];
    forall k | 0 <= k < |longer| && IsSettled(longer[k]) ensures k == 3 && Settles(longer[1], longer[3]) {
      assert longer[k] == es[k];
    }
  }

  lemma ActionSettlesOwn(env: Env, s: Sys, act: Action)
    requires Inv(s) && PayInv(env, s) && WaveAction(env, s, act)
    ensures SettlesOwn(Behave(env, s, act).effects)
  {
    hide Perform, PayOk, SettlesOwn, RecoverRecords, Absorb;
    NothingSettles();
    NothingIsOwn([]);
    if (act.Boot? || (act.Recover? && s.memory.Some?)) && Enumerates(act.order, s.disk.snapshot.records.Keys) {
      var base := if act.Recover? then s.memory.value else FRESH;
      RecoverySound(s, act.order, act.answers, act.Recover?);
      RecoverySettlesNothing(base.recs, s.disk.store, s.disk.snapshot.records, act.order, act.answers);
      var o := RecoverRecords(base.recs, s.disk.store, s.disk.snapshot.records, act.order, act.answers);
      NothingIsOwn(o.effects);
      assert o.effects + [] == o.effects;
      SnapshotSettlesNothing(o.effects, Take(Behave(env, s, act).memory.value));
    } else if act.Do? && s.memory.Some? {
      CommandSettlesOwn(env, Durable(s.disk), s.disk.store, act.cmd);
      var o := Perform(env, Durable(s.disk), s.disk.store, act.cmd);
      SnapshotSettlesNothing(o.effects, Take(s.memory.value.(recs := o.recs)));
    } else if act.Receive? && s.memory.Some? {
      SnapshotSettlesNothing([], Take(Absorb(s.memory.value, act.messages)));
      assert [] + [Snapshotted(Take(Absorb(s.memory.value, act.messages)))] == [Snapshotted(Take(Absorb(s.memory.value, act.messages)))];
    }
  }

  /** Every audited settlement stands after the dispatch it settles. */
  ghost predicate LogSettles(log: seq<Effect>) {
    forall k :: 0 <= k < |log| && IsSettled(log[k]) ==> exists j :: 0 <= j < k && Settles(log[j], log[k])
  }

  lemma SettlesAppend(log: seq<Effect>, es: seq<Effect>, n: nat)
    requires LogSettles(log) && SettlesOwn(es) && n <= |es|
    ensures LogSettles(log + es[..n])
  {
    var longer := log + es[..n];
    forall k | 0 <= k < |longer| && IsSettled(longer[k]) ensures exists j :: 0 <= j < k && Settles(longer[j], longer[k]) {
      if k < |log| {
        var j :| 0 <= j < k && Settles(log[j], log[k]);
        assert Settles(longer[j], longer[k]);
      } else {
        assert longer[k] == es[k - |log|];
        assert longer[|log| + 1] == es[1];
        assert Settles(longer[|log| + 1], longer[k]);
      }
    }
  }

  lemma {:induction false} AlwaysSettles(env: Env, steps: seq<Step>)
    requires WaveRun(env, steps)
    ensures LogSettles(Exec(env, steps).log)
  {
    hide LogSettles, SettlesOwn, Behave, Inv, PayInv, WaveAction;
    if steps == [] {
      FirstSettles();
    } else {
      var front, step := steps[..|steps| - 1], steps[|steps| - 1];
      WaveFront(env, steps);
      AlwaysSettles(env, front);
      AlwaysInv(env, front);
      AlwaysPays(env, front);
      var s := Exec(env, front);
      var b := Behave(env, s, step.act);
      ActionSettlesOwn(env, s, step.act);
      SettlesAppend(s.log, b.effects, |Left(env, s, step)|);
      assert b.effects[..|b.effects|] == b.effects;
    }
  }

  lemma FirstSettles()
    ensures LogSettles([])
  {
  }

  lemma WaveFront(env: Env, steps: seq<Step>)
    requires WaveRun(env, steps) && steps != []
    ensures WaveRun(env, steps[..|steps| - 1])
    ensures WaveAction(env, Exec(env, steps[..|steps| - 1]), steps[|steps| - 1].act)
  {
    hide WaveAction, Exec;
    var front := steps[..|steps| - 1];
    forall i | 0 <= i < |front| ensures WaveAction(env, Exec(env, front[..i]), front[i].act) {
      assert front[..i] == steps[..i];
    }
  }

  lemma {:induction false} AuditIsLogged(env: Env, steps: seq<Step>)
    ensures forall e :: e in Exec(env, steps).disk.audit ==> Logged(e) in Exec(env, steps).log
  {
    hide Behave;
    if steps != [] {
      var front, step := steps[..|steps| - 1], steps[|steps| - 1];
      AuditIsLogged(env, front);
      AppliedAudit(Exec(env, front).disk, Left(env, Exec(env, front), step));
    }
  }

  lemma {:induction false} AppliedAudit(d: Disk, es: seq<Effect>)
    ensures forall e :: e in ApplyAll(d, es).audit ==> e in d.audit || Logged(e) in es
    decreases |es|
  {
    if es != [] { AppliedAudit(Apply(d, es[0]), es[1..]); }
  }

  /** Over every run against the Wavelength adapter, kills included, a settlement that
      execute audited refers to the payment hash of the payload its intent was
      approved with, and that intent still holds it. */
  lemma SettlementsArePrepared(env: Env, steps: seq<Step>, e: Entry)
    requires WaveRun(env, steps) && e in Exec(env, steps).disk.audit && e.event.EvSettled?
    ensures var recs := Durable(Exec(env, steps).disk);
            && e.intentId in recs && recs[e.intentId].prepared.Some?
            && HashOf(recs[e.intentId].prepared.value) == JStr(e.event.settlementRef)
  {
    hide WaveRun, Exec, HashOf;
    AuditIsLogged(env, steps);
    AlwaysSettles(env, steps);
    AlwaysInv(env, steps);
    var log := Exec(env, steps).log;
    var k :| 0 <= k < |log| && log[k] == Logged(e);
    assert IsSettled(log[k]);
    var j :| 0 <= j < k && Settles(log[j], log[k]);
    assert IsExecute(log[j]);
  }
}
