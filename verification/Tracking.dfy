/** The idempotency file and the tracked intents: a submit that is killed between
    its save and its snapshot strands the intent for good. */
module Tracking {
  import opened Model
  import opened Store
  import opened Lifecycle
  import opened Committed
  import opened System
  import opened Safety

  /** On disk, the intent is known to the store exactly when it is tracked. */
  ghost predicate TrackedHere(s: Sys, id: string) {
    id in s.disk.store.intents <==> id in Durable(s.disk)
  }

  /** Known to the store, so that every submit is a no-op, but not tracked, so that
      every other call finds no such intent. */
  ghost predicate Stranded(s: Sys, id: string) {
    id in s.disk.store.intents && id !in Durable(s.disk)
  }

  /** The step was killed after saving the new intent and before its snapshot. */
  predicate LosesIntent(env: Env, s: Sys, step: Step, id: string) {
    && step.Kill? && id !in s.disk.store.intents
    && (exists e :: e in Left(env, s, step) && e.Saved? && id in e.store.intents)
    && (forall e :: e in Left(env, s, step) ==> !e.Snapshotted?)
  }

  /** Only submit adds an intent, to store and records alike; one the store knows
      is never added. */
  lemma EngineTracks(env: Env, recs: Records, store: StoreView, cmd: Command, x: string)
    requires RecordsOk(recs, store)
    ensures var o := Perform(env, recs, store, cmd);
            && (x in store.intents ==> x in o.store.intents && (x in o.recs <==> x in recs))
            && (x !in store.intents ==> (x in o.store.intents <==> x in o.recs))
  {
    match cmd
    case CmdSubmit(i, now) => AdmitOk(store, i); assert x in recs ==> RecordOk(x, recs[x], store);
    case CmdCheckExpired(order, only, now) =>
      OverdueOnly(recs, order, only, now);
      ExpireAllOk(recs, OverdueIn(recs, order, only, now));
      assert x in recs ==> RecordOk(x, recs[x], store);
    case _ => CallTracks(env, recs, store, cmd, x);
  }

  lemma CallTracks(env: Env, recs: Records, store: StoreView, cmd: Command, x: string)
    requires RecordsOk(recs, store) && !cmd.CmdSubmit? && !cmd.CmdCheckExpired?
    ensures var o := Perform(env, recs, store, cmd);
            o.store.intents == store.intents && (x in o.recs <==> x in recs) && (x in recs ==> x in store.intents)
  {
    assert x in recs ==> RecordOk(x, recs[x], store);
  }

  /** The outcome of any action, for one intent. */
  lemma OutcomeTracks(env: Env, s: Sys, act: Action, id: string) returns (o: Outcome, snaps: bool)
    requires Inv(s)
    ensures Shaped(s, Behave(env, s, act), o, snaps)
    ensures id in s.disk.store.intents ==> id in o.store.intents && (id in o.recs <==> id in Durable(s.disk))
    ensures id !in s.disk.store.intents ==> (id in o.store.intents <==> id in o.recs) && id !in Durable(s.disk)
  {
    hide Behave, Perform;
    o, snaps := Shape(env, s, act);
    assert id in Durable(s.disk) ==> RecordOk(id, Durable(s.disk)[id], s.disk.store);
    if act.Do? && s.memory.Some? {
      EngineTracks(env, Durable(s.disk), s.disk.store, act.cmd, id);
    }
  }

  lemma CutTracks(env: Env, s: Sys, step: Step, o: Outcome, id: string)
    requires step.Kill? && OutcomeSaves(s.disk.store, o)
    requires |Left(env, s, step)| <= |o.effects| && Left(env, s, step) == o.effects[..|Left(env, s, step)|]
    ensures id !in s.disk.store.intents ==>
              (id in Next(env, s, step).disk.store.intents <==> LosesIntent(env, s, step, id))
    ensures id in s.disk.store.intents ==> id in Next(env, s, step).disk.store.intents
  {
    var es := Left(env, s, step);
    CutStore(s, o, |es|);
    if Saved(o.store) in es {
      assert forall e :: e in es && e.Saved? ==> e.store == o.store;
    } else {
      assert forall e :: e in es ==> !e.Saved?;
    }
  }

  lemma SnapshotLosesNothing(env: Env, s: Sys, step: Step, o: Outcome, m: Memory, id: string)
    requires Left(env, s, step) == o.effects + [Snapshotted(Take(m))]
    ensures !LosesIntent(env, s, step, id)
  {
    var es := Left(env, s, step);
    assert es[|o.effects|].Snapshotted?;
    assert es[|o.effects|] in es;
  }

  lemma SavesOf(s: Sys, o: Outcome)
    requires OutcomeOk(Durable(s.disk), s.disk.store, o)
    ensures OutcomeSaves(s.disk.store, o)
  {
  }

  /** A step, killed or not, strands a new intent if and only if it is killed
      between that intent's save and the snapshot; nothing brings it back. */
  lemma StepTracks(env: Env, s: Sys, step: Step, id: string)
    requires Inv(s)
    ensures TrackedHere(s, id) ==> (TrackedHere(Next(env, s, step), id) <==> !LosesIntent(env, s, step, id))
    ensures Stranded(s, id) ==> Stranded(Next(env, s, step), id)
    ensures LosesIntent(env, s, step, id) ==> Stranded(Next(env, s, step), id)
  {
    hide Behave, Inv, OutcomeOk;
    var b := Behave(env, s, step.act);
    var o, snaps := OutcomeTracks(env, s, step.act, id);
    var es := Left(env, s, step);
    if !snaps {
      assert es == [] && ApplyAll(s.disk, es) == s.disk;
    } else if es == b.effects {
      RunThrough(s, o, b.memory.value);
      SnapshotLosesNothing(env, s, step, o, b.memory.value, id);
    } else {
      assert es == o.effects[..|es|];
      CutShort(s, o, |es|);
      SavesOf(s, o);
      CutTracks(env, s, step, o, id);
    }
  }

  ghost predicate AlwaysTrackedHere(env: Env, steps: seq<Step>, id: string) {
    forall i :: 0 <= i <= |steps| ==> TrackedHere(Exec(env, steps[..i]), id)
  }

  ghost predicate NoIntentLost(env: Env, steps: seq<Step>, id: string) {
    forall i :: 0 <= i < |steps| ==> !LosesIntent(env, Exec(env, steps[..i]), steps[i], id)
  }

  lemma SplitLast(env: Env, steps: seq<Step>, id: string)
    ensures AlwaysTrackedHere(env, steps, id) ==> TrackedHere(Exec(env, steps), id)
    ensures steps == [] ==>
              NoIntentLost(env, steps, id) && (AlwaysTrackedHere(env, steps, id) <==> TrackedHere(Exec(env, steps), id))
    ensures steps != [] ==>
              var front := steps[..|steps| - 1];
              && (AlwaysTrackedHere(env, steps, id) <==> AlwaysTrackedHere(env, front, id) && TrackedHere(Exec(env, steps), id))
              && (NoIntentLost(env, steps, id) <==>
                    NoIntentLost(env, front, id) && !LosesIntent(env, Exec(env, front), steps[|steps| - 1], id))
  {
    hide Exec, TrackedHere, LosesIntent;
    assert steps[..|steps|] == steps;
    if steps != [] {
      var front := steps[..|steps| - 1];
      assert forall i :: 0 <= i <= |front| ==> front[..i] == steps[..i];
      assert forall i :: 0 <= i < |front| ==> front[i] == steps[i];
    } else {
      assert forall i :: 0 <= i <= |steps| ==> steps[..i] == [];
    }
  }

  /** Exactly when the store and the records agree on an intent: at every moment of a
      run, if and only if no kill falls between its save and the snapshot. */
  lemma {:induction false} TrackingExactly(env: Env, steps: seq<Step>, id: string)
    ensures AlwaysTrackedHere(env, steps, id) <==> NoIntentLost(env, steps, id)
  {
    hide LosesIntent, AlwaysTrackedHere, NoIntentLost, Inv, Next;
    SplitLast(env, steps, id);
    if steps == [] {
      assert Durable(FIRST.disk) == map[];
    } else {
      var front := steps[..|steps| - 1];
      TrackingExactly(env, front, id);
      SplitLast(env, front, id);
      AlwaysInv(env, front);
      if TrackedHere(Exec(env, front), id) { StepTracks(env, Exec(env, front), steps[|steps| - 1], id); }
    }
  }

  /** A stranded intent is never tracked, whatever is submitted, restarted or killed
      afterwards. */
  lemma {:induction false} StrandedForever(env: Env, steps: seq<Step>, more: seq<Step>, id: string)
    requires Stranded(Exec(env, steps), id)
    ensures Stranded(Exec(env, steps + more), id)
    decreases |more|
  {
    hide Inv, Next;
    if more == [] {
      assert steps + more == steps;
    } else {
      var front := more[..|more| - 1];
      assert (steps + more)[..|steps + more| - 1] == steps + front;
      StrandedForever(env, steps, front, id);
      AlwaysInv(env, steps + front);
      StepTracks(env, Exec(env, steps + front), more[|more| - 1], id);
    }
  }

  /** Every submit that would have been accepted strands its intent when it is killed
      after its first effect. */
  lemma KilledSubmitStrands(env: Env, s: Sys, intent: Intent, now: int)
    requires Inv(s) && s.memory.Some? && intent.id !in s.disk.store.intents
    requires !PastDeadline(intent.expiresAt, now) && env.recipientOk(intent.recipient)
    ensures LosesIntent(env, s, Kill(Do(CmdSubmit(intent, now)), 1), intent.id)
    ensures Stranded(Next(env, s, Kill(Do(CmdSubmit(intent, now)), 1)), intent.id)
  {
    var step := Kill(Do(CmdSubmit(intent, now)), 1);
    AdmitOk(s.disk.store, intent);
    var es := Left(env, s, step);
    assert es == [Saved(Admit(s.disk.store, intent).store)];
    assert es[0] in es;
    StepTracks(env, s, step, intent.id);
  }
}
