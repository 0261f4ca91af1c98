/** How often, with which payload and on whose authority an intent is handed to
    the settlement adapter, over every run and every kill. */
module Dispatch {
  import opened StateMachine
  import opened Model
  import opened Store
  import opened Lifecycle
  import opened Committed
  import opened System
  import opened Safety

  predicate ExecutesIntent(e: Effect, id: string) {
    IsExecute(e) && e.call.intentId == id
  }

  /** The number of adapter.execute calls for `id`. */
  function Executions(es: seq<Effect>, id: string): nat {
    if es == [] then 0
    else Executions(es[..|es| - 1], id) + if ExecutesIntent(es[|es| - 1], id) then 1 else 0
  }

  lemma {:induction false} ExecutionsConcat(a: seq<Effect>, b: seq<Effect>, id: string)
    ensures Executions(a + b, id) == Executions(a, id) + Executions(b, id)
    decreases |b|
  {
    if b == [] {
      assert a + b == a;
    } else {
      assert (a + b)[..|a + b| - 1] == a + b[..|b| - 1];
      ExecutionsConcat(a, b[..|b| - 1], id);
    }
  }

  /** When only the second effect can be a dispatch, it decides the count. */
  lemma {:induction false} SecondDecides(es: seq<Effect>, id: string)
    requires forall k :: 0 <= k < |es| && IsExecute(es[k]) ==> k == 1
    ensures Executions(es, id) == if |es| >= 2 && ExecutesIntent(es[1], id) then 1 else 0
  {
    if es != [] {
      SecondDecides(es[..|es| - 1], id);
    }
  }

  /** The step was killed after dispatching `id` and before its snapshot. */
  predicate LosesDispatch(env: Env, s: Sys, step: Step, id: string) {
    && step.Kill?
    && (exists e :: e in Left(env, s, step) && ExecutesIntent(e, id))
    && (forall e :: e in Left(env, s, step) ==> !e.Snapshotted?)
  }

  /** The number of such kills in a run. */
  function LostDispatches(env: Env, steps: seq<Step>, id: string): nat {
    if steps == [] then 0
    else
      var front := steps[..|steps| - 1];
      LostDispatches(env, front, id)
      + if LosesDispatch(env, Exec(env, front), steps[|steps| - 1], id) then 1 else 0
  }

  function DispatchedBit(recs: Records, id: string): nat {
    if id in recs && Dispatched(recs[id].state) then 1 else 0
  }

  lemma OutcomeCounts(recs: Records, store: StoreView, o: Outcome, id: string)
    requires OutcomeOk(recs, store, o) && RecordsOk(recs, store)
    ensures DispatchedBit(o.recs, id) == DispatchedBit(recs, id) + Executions(o.effects, id)
  {
    SecondDecides(o.effects, id);
    if id in recs { assert Keeps(recs[id], o.recs[id]); }
  }

  /** Cut short, the step counts a dispatch exactly when it loses one. */
  lemma PartialCounts(env: Env, s: Sys, step: Step, o: Outcome, id: string)
    requires OutcomeExecutes(Durable(s.disk), o) && OutcomeSaves(s.disk.store, o)
    requires step.Kill? && |Left(env, s, step)| <= |o.effects|
    requires Left(env, s, step) == o.effects[..|Left(env, s, step)|]
    ensures Executions(Left(env, s, step), id) == if LosesDispatch(env, s, step, id) then 1 else 0
  {
    var es := Left(env, s, step);
    SecondDecides(es, id);
    assert forall e :: e in es ==> e in o.effects;
    if |es| >= 2 && ExecutesIntent(es[1], id) { assert es[1] in es; }
  }

  /** Run to its snapshot, a step counts its outcome's dispatches and loses none. */
  lemma WholeCounts(env: Env, s: Sys, step: Step, o: Outcome, m: Memory, id: string)
    requires Left(env, s, step) == o.effects + [Snapshotted(Take(m))]
    ensures Executions(Left(env, s, step), id) == Executions(o.effects, id)
    ensures !LosesDispatch(env, s, step, id)
  {
    var es, snap := Left(env, s, step), [Snapshotted(Take(m))];
    ExecutionsConcat(o.effects, snap, id);
    SecondDecides(snap, id);
    assert es[|o.effects|].Snapshotted?;
    assert es[|o.effects|] in es;
  }

  lemma StepCounts(env: Env, s: Sys, step: Step, id: string)
    requires Inv(s)
    ensures DispatchedBit(Durable(Next(env, s, step).disk), id) + (if LosesDispatch(env, s, step, id) then 1 else 0)
         == DispatchedBit(Durable(s.disk), id) + Executions(Left(env, s, step), id)
  {
    var b := Behave(env, s, step.act);
    var o, snaps := Shape(env, s, step.act);
    var es := Left(env, s, step);
    if snaps {
      OutcomeCounts(Durable(s.disk), s.disk.store, o, id);
      if es == b.effects {
        RunThrough(s, o, b.memory.value);
        WholeCounts(env, s, step, o, b.memory.value, id);
      } else {
        assert es == o.effects[..|es|];
        CutShort(s, o, |es|);
        PartialCounts(env, s, step, o, id);
      }
    }
  }

  /** Conservation of dispatches: over any run with kills anywhere, the adapter
      calls for an intent are exactly the ones lost to a kill between dispatch
      and snapshot, plus one if the durable record says it was dispatched. */
  lemma {:induction false} DispatchCount(env: Env, steps: seq<Step>, id: string)
    ensures var s := Exec(env, steps);
            Executions(s.log, id) == LostDispatches(env, steps, id) + DispatchedBit(Durable(s.disk), id)
  {
    if steps != [] {
      var front, step := steps[..|steps| - 1], steps[|steps| - 1];
      DispatchCount(env, front, id);
      AlwaysInv(env, front);
      StepCounts(env, Exec(env, front), step, id);
      ExecutionsConcat(Exec(env, front).log, Left(env, Exec(env, front), step), id);
    }
  }

  lemma {:induction false} NoKillsLosesNothing(env: Env, steps: seq<Step>, id: string)
    requires NoKills(steps)
    ensures LostDispatches(env, steps, id) == 0
  {
    if steps != [] {
      NoKillsLosesNothing(env, steps[..|steps| - 1], id);
    }
  }

  /** At most once: with restarts only between commands, an intent is handed to
      the adapter at most once, and exactly when its state is EXECUTING,
      RECONCILIATION_REQUIRED or SETTLED. The log only grows, so once handed
      over an intent stays in those states through every continuation. */
  lemma AtMostOnce(env: Env, steps: seq<Step>, id: string)
    requires NoKills(steps)
    ensures var s := Exec(env, steps);
            && Executions(s.log, id) <= 1
            && (Executions(s.log, id) == 1 <==>
                  id in Durable(s.disk) && Dispatched(Durable(s.disk)[id].state))
  {
    DispatchCount(env, steps, id);
    NoKillsLosesNothing(env, steps, id);
  }

  lemma {:induction false} LostGrows(env: Env, steps: seq<Step>, id: string, i: nat)
    requires i <= |steps|
    ensures LostDispatches(env, steps[..i], id) <= LostDispatches(env, steps, id)
    decreases |steps|
  {
    if i < |steps| {
      var front := steps[..|steps| - 1];
      LostGrows(env, front, id, i);
      assert front[..i] == steps[..i];
    } else {
      assert steps[..i] == steps;
    }
  }

  /** What a restart would load tells exactly whether the intent was handed over, and
      then it was once. */
  ghost predicate DispatchShown(s: Sys, id: string) {
    Executions(s.log, id) == DispatchedBit(Durable(s.disk), id)
  }

  /** Exactly when a dispatch always survives: at every moment of a run the durable
      state shows it, if and only if no kill falls between it and its snapshot. */
  lemma DispatchExactly(env: Env, steps: seq<Step>, id: string)
    ensures (forall i :: 0 <= i <= |steps| ==> DispatchShown(Exec(env, steps[..i]), id))
            <==> LostDispatches(env, steps, id) == 0
  {
    hide Executions, DispatchedBit, LostDispatches, Exec;
    forall i | 0 <= i <= |steps|
      ensures DispatchShown(Exec(env, steps[..i]), id) <==> LostDispatches(env, steps[..i], id) == 0
      ensures LostDispatches(env, steps[..i], id) <= LostDispatches(env, steps, id)
    {
      DispatchCount(env, steps[..i], id);
      LostGrows(env, steps, id, i);
    }
    assert steps[..|steps|] == steps;
  }

  /** Every continuation of a run keeps what it logged. */
  lemma {:induction false} LogGrows(env: Env, steps: seq<Step>, more: seq<Step>)
    ensures Exec(env, steps).log <= Exec(env, steps + more).log
    decreases |more|
  {
    if more == [] {
      assert steps + more == steps;
    } else {
      assert (steps + more)[..|steps + more| - 1] == steps + more[..|more| - 1];
      LogGrows(env, steps, more[..|more| - 1]);
    }
  }

  /** Dispatched is for ever: through any clean continuation. */
  lemma DispatchedForever(env: Env, steps: seq<Step>, more: seq<Step>, id: string)
    requires NoKills(steps + more)
    requires id in Durable(Exec(env, steps).disk) && Dispatched(Durable(Exec(env, steps).disk)[id].state)
    ensures var s := Exec(env, steps + more);
            id in Durable(s.disk) && Dispatched(Durable(s.disk)[id].state)
  {
    assert NoKills(steps) by {
      forall i | 0 <= i < |steps| ensures steps[i].Run? { assert (steps + more)[i] == steps[i]; }
    }
    AtMostOnce(env, steps, id);
    AtMostOnce(env, steps + more, id);
    LogGrows(env, steps, more);
    var a, b := Exec(env, steps).log, Exec(env, steps + more).log;
    ExecutionsConcat(a, b[|a|..], id);
    assert a + b[|a|..] == b;
  }

  /** All dispatches of an intent, in any run with any kills, carry one payload,
      hence one send_intent_id. */
  lemma OnePayload(env: Env, steps: seq<Step>, i: nat, j: nat)
    requires var log := Exec(env, steps).log;
             && i < |log| && j < |log| && IsExecute(log[i]) && IsExecute(log[j])
             && log[i].call.intentId == log[j].call.intentId
    ensures var log := Exec(env, steps).log; log[i].call.prepared == log[j].call.prepared
  {
    AlwaysInv(env, steps);
  }

  /** Every dispatch is preceded in the audit trail by an approval of the same
      intent and the same payload hash, and that approval is in the store. */
  lemma ApprovalProvenance(env: Env, steps: seq<Step>, k: nat) returns (j: nat)
    requires var log := Exec(env, steps).log; k < |log| && IsExecute(log[k])
    ensures var s := Exec(env, steps);
            && j < k && IsApproval(s.log[j])
            && ApprovedTriple(s.log[j]).intentId == s.log[k].call.intentId
            && ApprovedTriple(s.log[j]).preparedHash == s.log[k].call.prepared.preparedHash
            && ApprovalKey(ApprovedTriple(s.log[j])) in s.disk.store.approvals
  {
    AlwaysInv(env, steps);
    var log := Exec(env, steps).log;
    assert ApprovedBefore(log, k);
    j :| 0 <= j < k && IsApproval(log[j])
      && ApprovedTriple(log[j]).intentId == log[k].call.intentId
      && ApprovedTriple(log[j]).preparedHash == log[k].call.prepared.preparedHash;
  }

  /** No approval triple is accepted twice, across restarts and kills. */
  lemma NoApprovalReplay(env: Env, steps: seq<Step>, i: nat, j: nat)
    requires var log := Exec(env, steps).log;
             i < j < |log| && IsApproval(log[i]) && IsApproval(log[j])
    ensures var log := Exec(env, steps).log; ApprovedTriple(log[i]) != ApprovedTriple(log[j])
  {
    AlwaysInv(env, steps);
  }

  // ------------------------------------------------------------------
  // The bound is met: a kill does allow a second dispatch
  // ------------------------------------------------------------------

  ghost predicate ReadyToExecute(s: Sys, id: string) {
    s.memory.Some? && id in Durable(s.disk) && Durable(s.disk)[id].state == Approved
  }

  lemma ExecuteApproved(id: string, r: Record, store: StoreView, answer: Answer<ExecuteOutcome>)
    requires RecordOk(id, r, store) && r.state == Approved
    ensures var c := ExecuteChange(r, store, answer); |c.effects| >= 2 && ExecutesIntent(c.effects[1], id)
  {
  }

  /** Executing an APPROVED intent always reaches the adapter. */
  lemma ExecuteShape(env: Env, s: Sys, id: string, answer: Answer<ExecuteOutcome>) returns (o: Outcome)
    requires Inv(s) && ReadyToExecute(s, id)
    ensures Shaped(s, Behave(env, s, Do(CmdExecute(id, answer))), o, true)
    ensures |o.effects| >= 2 && ExecutesIntent(o.effects[1], id)
  {
    var recs, store := Durable(s.disk), s.disk.store;
    ExecuteApproved(id, recs[id], store, answer);
    o := Perform(env, recs, store, CmdExecute(id, answer));
    PerformOk(env, recs, store, CmdExecute(id, answer));
  }

  lemma KilledAfterTwo(env: Env, s: Sys, act: Action, id: string, o: Outcome)
    requires Inv(s) && Shaped(s, Behave(env, s, act), o, true)
    requires |o.effects| >= 2 && ExecutesIntent(o.effects[1], id)
    ensures LosesDispatch(env, s, Kill(act, 2), id)
    ensures Next(env, s, Kill(act, 2)).disk.snapshot == s.disk.snapshot
  {
    hide Inv, Behave, InboxOk, RecordsOk;
    CutShort(s, o, 2);
    var es := Left(env, s, Kill(act, 2));
    assert es == o.effects[..2];
    assert es[1] in es;
    assert forall e :: e in es ==> e in o.effects;
  }

  lemma KilledDispatch(env: Env, s: Sys, id: string, answer: Answer<ExecuteOutcome>)
    requires Inv(s) && ReadyToExecute(s, id)
    ensures var step := Kill(Do(CmdExecute(id, answer)), 2);
            && LosesDispatch(env, s, step, id)
            && Next(env, s, step).disk.snapshot == s.disk.snapshot
  {
    var o := ExecuteShape(env, s, id, answer);
    KilledAfterTwo(env, s, Do(CmdExecute(id, answer)), id, o);
  }

  lemma RestartStaysReady(env: Env, s: Sys, id: string, order: seq<string>)
    requires Inv(s) && id in Durable(s.disk) && Durable(s.disk)[id].state == Approved
    requires Enumerates(order, s.disk.snapshot.records.Keys)
    ensures ReadyToExecute(Next(env, s, Run(Boot(order, map[]))), id)
  {
    RecoverySound(s, order, map[], false);
    NextKeeps(env, s, Run(Boot(order, map[])));
    var o := RecoverRecords(map[], s.disk.store, s.disk.snapshot.records, order, map[]);
    assert o.recs[id] == Durable(s.disk)[id];
  }

  lemma ExecuteGoesOut(env: Env, s: Sys, id: string, answer: Answer<ExecuteOutcome>)
    requires Inv(s) && ReadyToExecute(s, id)
    ensures Executions(Left(env, s, Run(Do(CmdExecute(id, answer)))), id) == 1
  {
    hide Inv, Behave;
    var o := ExecuteShape(env, s, id, answer);
    var es := Left(env, s, Run(Do(CmdExecute(id, answer))));
    SecondDecides(o.effects, id);
    SecondDecides(es[|o.effects|..], id);
    assert es == o.effects + es[|o.effects|..];
    ExecutionsConcat(o.effects, es[|o.effects|..], id);
  }

  /** Killing a dispatch before its snapshot leaves the intent APPROVED on disk;
      after a restart the same intent goes out a second time. */
  lemma KillAllowsResend(env: Env, s: Sys, id: string, order: seq<string>,
                         first: Answer<ExecuteOutcome>, second: Answer<ExecuteOutcome>)
    requires Inv(s) && ReadyToExecute(s, id) && Enumerates(order, s.disk.snapshot.records.Keys)
    ensures var s1 := Next(env, s, Kill(Do(CmdExecute(id, first)), 2));
            var s2 := Next(env, s1, Run(Boot(order, map[])));
            var s3 := Next(env, s2, Run(Do(CmdExecute(id, second))));
            && LosesDispatch(env, s, Kill(Do(CmdExecute(id, first)), 2), id)
            && Executions(s3.log, id) == Executions(s.log, id) + 2
  {
    var kill, boot, run := Kill(Do(CmdExecute(id, first)), 2), Run(Boot(order, map[])), Run(Do(CmdExecute(id, second)));
    var s1 := Next(env, s, kill);
    var s2 := Next(env, s1, boot);
    KilledDispatch(env, s, id, first);
    NextKeeps(env, s, kill);
    StepCounts(env, s, kill, id);
    RestartStaysReady(env, s1, id, order);
    NextKeeps(env, s1, boot);
    StepCounts(env, s1, boot, id);
    ExecuteGoesOut(env, s2, id, second);
    ExecutionsConcat(s.log, Left(env, s, kill), id);
    ExecutionsConcat(s1.log, Left(env, s1, boot), id);
    ExecutionsConcat(s2.log, Left(env, s2, run), id);
  }
}
