/** Restart recovery, from any reachable durable state, and the inbox across
    restarts and kills. */
module Recovery {
  import opened StateMachine
  import opened Model
  import opened Lifecycle
  import opened Committed
  import opened System
  import opened Safety

  /** While the process is up, what a restart would load is what it holds. */
  lemma MemoryIsDurable(env: Env, steps: seq<Step>)
    ensures var s := Exec(env, steps);
            s.memory.Some? ==> s.memory.value == Memory(Durable(s.disk), s.disk.snapshot.inbox, IdsOf(s.disk.snapshot.inbox))
  {
    AlwaysInv(env, steps);
  }

  /** Snapshot then restart, after any run with any kills: the start succeeds;
      every record comes back unchanged, except that EXECUTING becomes
      RECONCILIATION_REQUIRED and unresolved records carry fresh evidence; the
      inbox comes back whole; and nothing is saved to the idempotency store,
      approved, prepared or dispatched. */
  lemma RestartIsIdentity(env: Env, steps: seq<Step>, order: seq<string>, answers: Answers)
    requires Enumerates(order, Exec(env, steps).disk.snapshot.records.Keys)
    ensures var s := Exec(env, steps);
            var s' := Next(env, s, Run(Boot(order, answers)));
            && s'.memory.Some?
            && s'.memory.value.recs.Keys == Durable(s.disk).Keys
            && (forall id :: id in Durable(s.disk) ==>
                  s'.memory.value.recs[id] == Recovered(Durable(s.disk)[id], AnswerFor(answers, id).outcome))
            && s'.memory.value.inbox == s.disk.snapshot.inbox
            && s'.disk.store == s.disk.store
            && (forall e :: e in Left(env, s, Run(Boot(order, answers))) ==>
                  e.Logged? || e.Snapshotted? || (e.Called? && e.call.CallReconcile?))
  {
    AlwaysInv(env, steps);
    var s := Exec(env, steps);
    RecoverySound(s, order, answers, false);
    RestartStore(s, order, answers);
  }

  lemma RestartStore(s: Sys, order: seq<string>, answers: Answers)
    requires Inv(s) && Enumerates(order, s.disk.snapshot.records.Keys)
    ensures var es := Reload(FRESH, s.disk, order, answers, false).effects;
            && ApplyAll(s.disk, es).store == s.disk.store
            && (forall e :: e in es ==> e.Logged? || e.Snapshotted? || (e.Called? && e.call.CallReconcile?))
  {
    RecoverySound(s, order, answers, false);
    var b := Reload(FRESH, s.disk, order, answers, false);
    forall e | e in b.effects ensures e.Logged? || e.Snapshotted? || (e.Called? && e.call.CallReconcile?) {
      if e in RecoverRecords(map[], s.disk.store, s.disk.snapshot.records, order, answers).effects {
      } else {
        assert e == Snapshotted(Take(b.memory.value));
      }
    }
    NoSaves(s.disk, b.effects);
  }

  lemma {:induction false} NoSaves(d: Disk, es: seq<Effect>)
    requires forall e :: e in es ==> !e.Saved?
    ensures ApplyAll(d, es).store == d.store
    decreases |es|
  {
    if es != [] {
      NoSaves(Apply(d, es[0]), es[1..]);
    }
  }

  /** A second restart changes no state any more. */
  lemma RestartIsIdempotent(env: Env, steps: seq<Step>, order: seq<string>, answers: Answers,
                            order': seq<string>, answers': Answers)
    requires Enumerates(order, Exec(env, steps).disk.snapshot.records.Keys)
    requires Enumerates(order', Exec(env, steps + [Run(Boot(order, answers))]).disk.snapshot.records.Keys)
    ensures var once := Exec(env, steps + [Run(Boot(order, answers))]);
            var twice := Next(env, once, Run(Boot(order', answers')));
            && once.memory.Some? && twice.memory.Some?
            && once.memory.value.recs.Keys == twice.memory.value.recs.Keys
            && (forall id :: id in once.memory.value.recs ==>
                  twice.memory.value.recs[id].state == once.memory.value.recs[id].state)
            && once.memory.value.inbox == twice.memory.value.inbox
  {
    var booted := steps + [Run(Boot(order, answers))];
    assert booted[..|booted| - 1] == steps;
    RestartIsIdentity(env, steps, order, answers);
    MemoryIsDurable(env, booted);
    RestartIsIdentity(env, booted, order', answers');
  }

  /** The engine uses nine of the twelve states: whatever the adapter answers and
      wherever the process is killed, no tracked intent is ever in DRAFT, FAILED
      or EXPIRED, so a payment ends SETTLED, REJECTED or CANCELLED or not at all. */
  lemma UnusedStates(env: Env, steps: seq<Step>, id: string)
    requires id in Durable(Exec(env, steps).disk)
    ensures var state := Durable(Exec(env, steps).disk)[id].state;
            && state != Draft && state != Failed && state != Expired
            && (Terminal(state) ==> state == Settled || state == Rejected || state == Cancelled)
  {
    AlwaysInv(env, steps);
    assert RecordOk(id, Durable(Exec(env, steps).disk)[id], Exec(env, steps).disk.store);
  }

  /** In every run the inbox holds one message per id and the id set is exact. */
  lemma InboxHasOnePerId(env: Env, steps: seq<Step>)
    ensures var s := Exec(env, steps);
            && DistinctIds(s.disk.snapshot.inbox)
            && (s.memory.Some? ==> InboxOk(s.memory.value))
  {
    AlwaysInv(env, steps);
  }

  lemma InboxStep(env: Env, s: Sys, step: Step)
    requires Inv(s)
    ensures s.disk.snapshot.inbox <= Next(env, s, step).disk.snapshot.inbox
  {
    var b := Behave(env, s, step.act);
    var o, snaps := Shape(env, s, step.act);
    var es := Left(env, s, step);
    if snaps {
      BehaveInbox(env, s, step.act);
      if es == b.effects {
        RunThrough(s, o, b.memory.value);
      } else {
        assert es == o.effects[..|es|];
        CutShort(s, o, |es|);
      }
    }
  }

  lemma BehaveInbox(env: Env, s: Sys, act: Action)
    requires Inv(s) && Behave(env, s, act).memory.Some?
    ensures s.disk.snapshot.inbox <= Behave(env, s, act).memory.value.inbox
  {
    if (act.Boot? || (act.Recover? && s.memory.Some?)) && Enumerates(act.order, s.disk.snapshot.records.Keys) {
      RecoverySound(s, act.order, act.answers, act.Recover?);
    } else if act.Receive? && s.memory.Some? {
      AbsorbKeeps(s.memory.value, act.messages);
    }
  }

  /** A message once in the durable inbox stays there, at its place, through
      every continuation with any restarts and kills. */
  lemma {:induction false} InboxNeverDrops(env: Env, steps: seq<Step>, more: seq<Step>)
    ensures Exec(env, steps).disk.snapshot.inbox <= Exec(env, steps + more).disk.snapshot.inbox
    decreases |more|
  {
    hide Inv, Next;
    if more == [] {
      assert steps + more == steps;
    } else {
      var front := more[..|more| - 1];
      assert (steps + more)[..|steps + more| - 1] == steps + front;
      InboxNeverDrops(env, steps, front);
      AlwaysInv(env, steps + front);
      InboxStep(env, Exec(env, steps + front), more[|more| - 1]);
    }
  }
}
