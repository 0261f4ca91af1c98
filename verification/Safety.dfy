/** Safety of whole runs in which the process may be killed between any two
    effects. */
module Safety {
  import opened Wrappers
  import opened StateMachine
  import opened Model
  import opened Store
  import opened Lifecycle
  import opened Committed
  import opened System

  // ------------------------------------------------------------------
  // The inbox
  // ------------------------------------------------------------------

  function IdsOf(inbox: seq<PeerMessage>): set<string> {
    set msg | msg in inbox :: msg.messageId
  }

  ghost predicate DistinctIds(inbox: seq<PeerMessage>) {
    forall i, j :: 0 <= i < j < |inbox| ==> inbox[i].messageId != inbox[j].messageId
  }

  ghost predicate InboxOk(m: Memory) {
    DistinctIds(m.inbox) && m.inboxIds == IdsOf(m.inbox)
  }

  lemma NoIds()
    ensures IdsOf([]) == {}
  {
  }

  lemma IdsSnoc(inbox: seq<PeerMessage>, msg: PeerMessage)
    ensures IdsOf(inbox + [msg]) == IdsOf(inbox) + {msg.messageId}
    ensures forall i :: 0 <= i < |inbox| ==> inbox[i].messageId in IdsOf(inbox)
  {
    assert (inbox + [msg])[|inbox|] == msg;
    forall id | id in IdsOf(inbox) ensures id in IdsOf(inbox + [msg]) {
      var x :| x in inbox && x.messageId == id;
      assert x in inbox + [msg];
    }
  }

  /** Receiving keeps one message per id, drops nothing held, and ends with every
      offered id in the inbox. */
  lemma {:induction false} AbsorbKeeps(m: Memory, messages: seq<PeerMessage>)
    requires InboxOk(m)
    ensures var m' := Absorb(m, messages);
            && InboxOk(m') && m'.recs == m.recs && m.inbox <= m'.inbox
            && m'.inboxIds == m.inboxIds + IdsOf(messages)
  {
    hide IdsOf;
    if messages == [] { NoIds(); }
    if messages != [] {
      var front, msg := messages[..|messages| - 1], messages[|messages| - 1];
      AbsorbKeeps(m, front);
      var before := Absorb(m, front);
      assert messages == front + [msg];
      IdsSnoc(front, msg);
      if msg.messageId !in before.inboxIds { IdsSnoc(before.inbox, msg); }
    }
  }

  /** The first message with a new id is taken as it is, right behind what was taken
      before it; one with a known or repeated id is not taken. */
  lemma {:induction false} AbsorbTakes(m: Memory, messages: seq<PeerMessage>, k: nat)
    requires InboxOk(m) && k < |messages|
    ensures var before, after := Absorb(m, messages[..k]).inbox, Absorb(m, messages).inbox;
            && |before| <= |after|
            && if messages[k].messageId in m.inboxIds || messages[k].messageId in IdsOf(messages[..k])
               then |Absorb(m, messages[..k + 1]).inbox| == |before|
               else |before| < |after| && after[|before|] == messages[k]
  {
    hide IdsOf, DistinctIds;
    var front := messages[..|messages| - 1];
    AbsorbKeeps(m, messages[..k]);
    if k < |front| {
      assert front[..k] == messages[..k] && front[..k + 1] == messages[..k + 1];
      AbsorbTakes(m, front, k);
    } else {
      assert messages[..k] == front && messages[..k + 1] == messages;
    }
  }

  lemma {:induction false} AbsorbKnown(m: Memory, messages: seq<PeerMessage>)
    requires IdsOf(messages) <= m.inboxIds
    ensures Absorb(m, messages) == m
  {
    if messages != [] {
      var front := messages[..|messages| - 1];
      assert messages[|messages| - 1].messageId in IdsOf(messages);
      assert forall msg :: msg in front ==> msg in messages;
      AbsorbKnown(m, front);
    }
  }

  lemma {:induction false} AbsorbFromEmpty(recs: Records, inbox: seq<PeerMessage>)
    requires DistinctIds(inbox)
    ensures Absorb(Memory(recs, [], {}), inbox) == Memory(recs, inbox, IdsOf(inbox))
  {
    if inbox != [] {
      var front, msg := inbox[..|inbox| - 1], inbox[|inbox| - 1];
      AbsorbFromEmpty(recs, front);
      assert inbox == front + [msg];
      assert IdsOf(inbox) == IdsOf(front) + {msg.messageId};
      assert msg.messageId !in IdsOf(front);
    }
  }

  // ------------------------------------------------------------------
  // The invariant
  // ------------------------------------------------------------------

  /** The records a restart would load. */
  function Durable(d: Disk): Records { DecodeAll(d.snapshot.records) }

  ghost predicate MemoryOk(s: Sys) {
    s.memory.Some? ==>
      && s.memory.value.recs == Durable(s.disk)
      && s.memory.value.inbox == s.disk.snapshot.inbox
      && s.memory.value.inboxIds == IdsOf(s.disk.snapshot.inbox)
  }

  /** Whatever was handed to the adapter is still what its record holds. */
  ghost predicate DispatchesOk(recs: Records, log: seq<Effect>) {
    forall k :: 0 <= k < |log| && IsExecute(log[k]) ==>
      var call := log[k].call;
      && call.intentId in recs && recs[call.intentId].prepared == Some(call.prepared)
      && (Authorised(recs[call.intentId].state) || recs[call.intentId].state == Rejected)
  }

  ghost predicate AuthorityLogged(recs: Records, log: seq<Effect>) {
    forall id :: id in recs && Authorised(recs[id].state) ==> ApprovedIn(log, recs[id])
  }

  /** An approval of the same intent and payload hash stands before the dispatch. */
  ghost predicate ApprovedBefore(log: seq<Effect>, k: nat)
    requires k < |log| && IsExecute(log[k])
  {
    exists j :: 0 <= j < k && IsApproval(log[j])
      && ApprovedTriple(log[j]).intentId == log[k].call.intentId
      && ApprovedTriple(log[j]).preparedHash == log[k].call.prepared.preparedHash
  }

  ghost predicate Provenance(log: seq<Effect>) {
    forall k :: 0 <= k < |log| && IsExecute(log[k]) ==> ApprovedBefore(log, k)
  }

  ghost predicate KeysStored(store: StoreView, log: seq<Effect>) {
    forall k :: 0 <= k < |log| && IsApproval(log[k]) ==> ApprovalKey(ApprovedTriple(log[k])) in store.approvals
  }

  ghost predicate ApprovedOnce(log: seq<Effect>) {
    forall i, j :: 0 <= i < j < |log| && IsApproval(log[i]) && IsApproval(log[j]) ==>
      ApprovalKey(ApprovedTriple(log[i])) != ApprovalKey(ApprovedTriple(log[j]))
  }

  ghost predicate LogOk(recs: Records, store: StoreView, log: seq<Effect>) {
    && DispatchesOk(recs, log)
    && AuthorityLogged(recs, log)
    && Provenance(log)
    && KeysStored(store, log)
    && ApprovedOnce(log)
  }

  ghost predicate Inv(s: Sys) {
    && RecordsOk(Durable(s.disk), s.disk.store)
    && DistinctIds(s.disk.snapshot.inbox)
    && MemoryOk(s)
    && LogOk(Durable(s.disk), s.disk.store, s.log)
  }

  // ------------------------------------------------------------------
  // What an action does, in the terms of Committed.OutcomeOk
  // ------------------------------------------------------------------

  lemma Roundtrip(recs: Records, store: StoreView)
    requires RecordsOk(recs, store)
    ensures DecodeAll(EncodeAll(recs)) == recs
  {
  }

  lemma ReencodeSaved(saved: map<string, SavedRecord>)
    ensures EncodeAll(DecodeAll(saved)) == saved
  {
  }

  /** Snapshot then recover: a restart never raises, brings back the inbox as it
      was and every record as Recovered says, and dispatches, approves and saves
      nothing. */
  lemma RecoverySound(s: Sys, order: seq<string>, answers: Answers, live: bool)
    requires Inv(s) && Enumerates(order, s.disk.snapshot.records.Keys)
    requires live ==> s.memory.Some?
    ensures var recs := Durable(s.disk);
            var base := if live then s.memory.value else FRESH;
            var o := RecoverRecords(base.recs, s.disk.store, s.disk.snapshot.records, order, answers);
            var b := Reload(base, s.disk, order, answers, live);
            && o.error.None? && o.store == s.disk.store && Quiet(o.effects)
            && o.recs.Keys == recs.Keys
            && (forall id :: id in recs ==> o.recs[id] == Recovered(recs[id], AnswerFor(answers, id).outcome))
            && b.error.None?
            && b.memory == Some(Memory(o.recs, s.disk.snapshot.inbox, IdsOf(s.disk.snapshot.inbox)))
            && b.effects == o.effects + (if recs == map[] then [] else [Snapshotted(Take(b.memory.value))])
  {
    hide RecordOk, Recovered, LogOk;
    var recs, saved, inbox := Durable(s.disk), s.disk.snapshot.records, s.disk.snapshot.inbox;
    var base := if live then s.memory.value else FRESH;
    forall id | id in saved ensures RecordOk(id, Decode(saved[id]), s.disk.store) {
      assert recs[id] == Decode(saved[id]);
    }
    RecoverAll(base.recs, s.disk.store, saved, order, answers);
    var o := RecoverRecords(base.recs, s.disk.store, saved, order, answers);
    assert o.recs.Keys == recs.Keys;
    var m := base.(recs := o.recs);
    if live {
      AbsorbKnown(m, inbox);
    } else {
      AbsorbFromEmpty(o.recs, inbox);
    }
    assert saved == map[] <==> recs == map[] by { ReencodeSaved(saved); }
  }

  lemma RecoveredKeeps(id: string, r: Record, store: StoreView, outcome: ReconcileOutcome)
    requires RecordOk(id, r, store)
    ensures var n := Recovered(r, outcome);
            RecordOk(id, n, store) && Keeps(r, n)
            && (Authorised(n.state) <==> Authorised(r.state))
            && (Dispatched(n.state) <==> Dispatched(r.state))
  {
  }

  /** An action, seen as an outcome `o` of the durable records followed by one
      snapshot of the resulting memory; `snaps` is false when it changes nothing. */
  ghost predicate Shaped(s: Sys, b: Behaviour, o: Outcome, snaps: bool) {
    && OutcomeOk(Durable(s.disk), s.disk.store, o)
    && (snaps ==>
          && b.memory.Some? && b.memory.value.recs == o.recs && InboxOk(b.memory.value)
          && b.effects == o.effects + [Snapshotted(Take(b.memory.value))])
    && (!snaps ==>
          && b.effects == o.effects == [] && o.recs == Durable(s.disk) && o.store == s.disk.store
          && MemoryOk(s.(memory := b.memory)))
  }

  /** Nothing is saved, and only unresolved executions differ, in state and
      evidence. */
  ghost predicate OnlyRecovers(recs: Records, store: StoreView, o: Outcome) {
    && o.store == store && o.recs.Keys == recs.Keys
    && forall id :: id in recs ==>
         || o.recs[id] == recs[id]
         || ((recs[id].state == Executing || recs[id].state == ReconciliationRequired)
             && o.recs[id] == recs[id].(state := ReconciliationRequired, reconciliation := o.recs[id].reconciliation))
  }

  lemma ReloadOutcome(s: Sys, order: seq<string>, answers: Answers, live: bool)
    requires Inv(s) && Enumerates(order, s.disk.snapshot.records.Keys)
    requires live ==> s.memory.Some?
    ensures var base := if live then s.memory.value else FRESH;
            OutcomeOk(Durable(s.disk), s.disk.store,
                      RecoverRecords(base.recs, s.disk.store, s.disk.snapshot.records, order, answers))
  {
    var recs := Durable(s.disk);
    var base := if live then s.memory.value else FRESH;
    RecoverySound(s, order, answers, live);
    var o := RecoverRecords(base.recs, s.disk.store, s.disk.snapshot.records, order, answers);
    forall id | id in recs
      ensures RecordOk(id, o.recs[id], s.disk.store) && Keeps(recs[id], o.recs[id])
              && (Authorised(o.recs[id].state) <==> Authorised(recs[id].state))
              && (Dispatched(o.recs[id].state) <==> Dispatched(recs[id].state))
    {
      RecoveredKeeps(id, recs[id], s.disk.store, AnswerFor(answers, id).outcome);
    }
    QuietIsOk(recs, s.disk.store, o);
  }

  lemma EmptyOrder(order: seq<string>, keys: set<string>)
    requires Enumerates(order, keys)
    ensures order == [] <==> keys == {}
  {
    if order != [] { assert order[0] in order; }
  }

  lemma ReloadNothing(s: Sys, order: seq<string>)
    requires Enumerates(order, s.disk.snapshot.records.Keys) && Durable(s.disk) == map[]
    ensures order == []
  {
    EmptyOrder(order, s.disk.snapshot.records.Keys);
    assert s.disk.snapshot.records.Keys == Durable(s.disk).Keys;
  }

  lemma ReloadShape(s: Sys, order: seq<string>, answers: Answers, live: bool) returns (o: Outcome, snaps: bool)
    requires Inv(s) && Enumerates(order, s.disk.snapshot.records.Keys)
    requires live ==> s.memory.Some?
    ensures Shaped(s, Reload(if live then s.memory.value else FRESH, s.disk, order, answers, live), o, snaps)
    ensures OnlyRecovers(Durable(s.disk), s.disk.store, o)
  {
    var recs := Durable(s.disk);
    var base := if live then s.memory.value else FRESH;
    RecoverySound(s, order, answers, live);
    ReloadOutcome(s, order, answers, live);
    o := RecoverRecords(base.recs, s.disk.store, s.disk.snapshot.records, order, answers);
    snaps := recs != map[];
    if !snaps {
      ReloadNothing(s, order);
      assert o.recs == recs;
    }
  }

  lemma Shape(env: Env, s: Sys, act: Action) returns (o: Outcome, snaps: bool)
    requires Inv(s)
    ensures Shaped(s, Behave(env, s, act), o, snaps)
    ensures act.Do? && s.memory.Some? ==> o == Perform(env, Durable(s.disk), s.disk.store, act.cmd)
    ensures !(act.Do? && s.memory.Some?) ==> OnlyRecovers(Durable(s.disk), s.disk.store, o)
  {
    var recs, store := Durable(s.disk), s.disk.store;
    var idle := Outcome(recs, store, [], None);
    QuietIsOk(recs, store, idle);
    o, snaps := idle, false;
    if act.Boot? {
      if Enumerates(act.order, s.disk.snapshot.records.Keys) {
        o, snaps := ReloadShape(s, act.order, act.answers, false);
      }
    } else if s.memory.Some? {
      match act
      case Do(cmd) =>
        PerformOk(env, recs, store, cmd);
        o, snaps := Perform(env, recs, store, cmd), true;
      case Receive(messages) =>
        AbsorbKeeps(s.memory.value, messages);
        snaps := true;
      case Recover(order, answers) =>
        if Enumerates(order, s.disk.snapshot.records.Keys) {
          o, snaps := ReloadShape(s, order, answers, true);
        }
    }
  }

  // ------------------------------------------------------------------
  // Steps keep the invariant
  // ------------------------------------------------------------------

  lemma {:induction false} ApplyBody(d: Disk, es: seq<Effect>, store: StoreView)
    requires forall e :: e in es ==> !e.Snapshotted? && (e.Saved? ==> e.store == store)
    ensures var d' := ApplyAll(d, es);
            && d'.snapshot == d.snapshot
            && d'.store == if Saved(store) in es then store else d.store
    decreases |es|
  {
    if es != [] {
      ApplyBody(Apply(d, es[0]), es[1..], store);
      assert forall e :: e in es[1..] ==> e in es;
    }
  }

  /** The store of an action cut short: the outcome's exactly when its save is among
      the effects. */
  lemma CutStore(s: Sys, o: Outcome, n: nat)
    requires OutcomeSaves(s.disk.store, o) && n <= |o.effects|
    ensures var es := o.effects[..n];
            && ApplyAll(s.disk, es).store == (if Saved(o.store) in es then o.store else s.disk.store)
            && (forall e :: e in es ==> !e.Snapshotted? && (e.Saved? ==> e == Saved(o.store)))
  {
    var es := o.effects[..n];
    assert forall e :: e in es ==> e in o.effects;
    ApplyBody(s.disk, es, o.store);
  }

  /** The log invariants survive any prefix of an outcome's effects while the
      durable records stay, with the store as it is on disk by then. */
  lemma LogPrefix(recs: Records, store: StoreView, o: Outcome, log: seq<Effect>, n: nat, store': StoreView)
    requires RecordsOk(recs, store) && OutcomeOk(recs, store, o) && LogOk(recs, store, log)
    requires n <= |o.effects|
    requires store'.approvals == store.approvals || store'.approvals == o.store.approvals
    requires n >= 2 && Saved(o.store) == o.effects[0] ==> store'.approvals == o.store.approvals
    ensures LogOk(recs, store', log + o.effects[..n])
  {
    var longer := log + o.effects[..n];
    forall k | 0 <= k < |longer| && IsExecute(longer[k])
      ensures ApprovedBefore(longer, k)
      ensures longer[k].call.intentId in recs && recs[longer[k].call.intentId].prepared == Some(longer[k].call.prepared)
      ensures Authorised(recs[longer[k].call.intentId].state) || recs[longer[k].call.intentId].state == Rejected
    {
      if k < |log| {
        assert ApprovedBefore(log, k);
        var j :| 0 <= j < k && IsApproval(log[j])
          && ApprovedTriple(log[j]).intentId == log[k].call.intentId
          && ApprovedTriple(log[j]).preparedHash == log[k].call.prepared.preparedHash;
        assert longer[j] == log[j];
      } else {
        var call := o.effects[k - |log|].call;
        assert RecordOk(call.intentId, recs[call.intentId], store);
        assert ApprovedIn(log, recs[call.intentId]);
        var j :| 0 <= j < |log| && IsApproval(log[j]) && ApprovedTriple(log[j]) == TripleOf(recs[call.intentId].approval.value);
        assert longer[j] == log[j];
      }
    }
    ApprovalsPrefix(recs, store, o, log, n, store');
    forall id | id in recs && Authorised(recs[id].state) ensures ApprovedIn(longer, recs[id]) {
      ApprovedInLonger(log, o.effects[..n], recs[id]);
    }
  }

  lemma ApprovedInLonger(log: seq<Effect>, es: seq<Effect>, r: Record)
    requires ApprovedIn(log, r)
    ensures ApprovedIn(log + es, r)
  {
    var j :| 0 <= j < |log| && IsApproval(log[j]) && ApprovedTriple(log[j]) == TripleOf(r.approval.value);
    assert (log + es)[j] == log[j];
  }

  lemma ApprovalsPrefix(recs: Records, store: StoreView, o: Outcome, log: seq<Effect>, n: nat, store': StoreView)
    requires OutcomeOk(recs, store, o) && KeysStored(store, log) && ApprovedOnce(log)
    requires n <= |o.effects|
    requires store'.approvals == store.approvals || store'.approvals == o.store.approvals
    requires n >= 2 && Saved(o.store) == o.effects[0] ==> store'.approvals == o.store.approvals
    ensures KeysStored(store', log + o.effects[..n]) && ApprovedOnce(log + o.effects[..n])
  {
    var longer := log + o.effects[..n];
    forall k | 0 <= k < |longer| && IsApproval(longer[k])
      ensures ApprovalKey(ApprovedTriple(longer[k])) in store'.approvals
      ensures k >= |log| ==> k == |log| + 1 && ApprovalKey(ApprovedTriple(longer[k])) !in store.approvals
      ensures k < |log| ==> longer[k] == log[k] && ApprovalKey(ApprovedTriple(longer[k])) in store.approvals
    {
      if k >= |log| { assert longer[k] == o.effects[k - |log|]; }
    }
  }

  /** The log invariants carry over to the outcome's records. */
  lemma LogMoves(recs: Records, store: StoreView, o: Outcome, log: seq<Effect>)
    requires OutcomeOk(recs, store, o)
    requires LogOk(recs, o.store, log + o.effects)
    ensures LogOk(o.recs, o.store, log + o.effects)
  {
    var longer := log + o.effects;
    forall id | id in o.recs && Authorised(o.recs[id].state) ensures ApprovedIn(longer, o.recs[id]) {
      if id in recs && Authorised(recs[id].state) {
        assert Keeps(recs[id], o.recs[id]);
        assert ApprovedIn(longer, recs[id]);
      } else {
        var k :| 0 <= k < |o.effects| && IsApproval(o.effects[k]) && ApprovedTriple(o.effects[k]) == TripleOf(o.recs[id].approval.value);
        assert longer[|log| + k] == o.effects[k];
      }
    }
    forall k | 0 <= k < |longer| && IsExecute(longer[k])
      ensures var call := longer[k].call;
              && call.intentId in o.recs && o.recs[call.intentId].prepared == Some(call.prepared)
              && (Authorised(o.recs[call.intentId].state) || o.recs[call.intentId].state == Rejected)
    {
      assert Keeps(recs[longer[k].call.intentId], o.recs[longer[k].call.intentId]);
    }
  }

  lemma SnapshotLogged(recs: Records, store: StoreView, log: seq<Effect>, snap: Snapshot)
    requires LogOk(recs, store, log)
    ensures LogOk(recs, store, log + [Snapshotted(snap)])
  {
    var longer := log + [Snapshotted(snap)];
    forall k | 0 <= k < |longer| && IsExecute(longer[k]) ensures ApprovedBefore(longer, k) {
      assert ApprovedBefore(log, k);
      var j :| 0 <= j < k && IsApproval(log[j])
        && ApprovedTriple(log[j]).intentId == log[k].call.intentId
        && ApprovedTriple(log[j]).preparedHash == log[k].call.prepared.preparedHash;
      assert longer[j] == log[j];
    }
    forall id | id in recs && Authorised(recs[id].state) ensures ApprovedIn(longer, recs[id]) {
      ApprovedInLonger(log, [Snapshotted(snap)], recs[id]);
    }
  }

  lemma StoreGrowsKeeps(recs: Records, a: StoreView, b: StoreView)
    requires RecordsOk(recs, a) && Grows(a, b)
    ensures RecordsOk(recs, b)
  {
  }

  /** Cut short before its snapshot. */
  lemma CutShort(s: Sys, o: Outcome, n: nat)
    requires Inv(s) && OutcomeOk(Durable(s.disk), s.disk.store, o) && n <= |o.effects|
    ensures var d := ApplyAll(s.disk, o.effects[..n]);
            && d.snapshot == s.disk.snapshot
            && (d.store == s.disk.store || d.store == o.store)
            && (n == |o.effects| ==> d.store == o.store)
            && Inv(Sys(None, d, s.log + o.effects[..n]))
  {
    var es := o.effects[..n];
    assert forall e :: e in es ==> e in o.effects;
    ApplyBody(s.disk, es, o.store);
    if n >= 2 && Saved(o.store) == o.effects[0] { assert es[0] in es; }
    if n == |o.effects| { assert es == o.effects; }
    var d := ApplyAll(s.disk, es);
    StoreGrowsKeeps(Durable(s.disk), s.disk.store, d.store);
    LogPrefix(Durable(s.disk), s.disk.store, o, s.log, n, d.store);
  }

  /** Run to the end, snapshot included. */
  lemma RunThrough(s: Sys, o: Outcome, m: Memory)
    requires Inv(s) && OutcomeOk(Durable(s.disk), s.disk.store, o)
    requires m.recs == o.recs && InboxOk(m)
    ensures var es := o.effects + [Snapshotted(Take(m))];
            var d := ApplyAll(s.disk, es);
            && Durable(d) == o.recs && d.store == o.store && d.snapshot == Take(m)
            && Inv(Sys(Some(m), d, s.log + es))
  {
    var snap := Snapshotted(Take(m));
    var es := o.effects + [snap];
    CutShort(s, o, |o.effects|);
    assert o.effects[..|o.effects|] == o.effects;
    var d1 := ApplyAll(s.disk, o.effects);
    ApplyConcat(s.disk, o.effects, [snap]);
    assert ApplyAll(d1, [snap]) == Apply(d1, snap);
    Roundtrip(o.recs, o.store);
    LogMoves(Durable(s.disk), s.disk.store, o, s.log);
    SnapshotLogged(o.recs, o.store, s.log + o.effects, Take(m));
    assert s.log + es == s.log + o.effects + [snap];
  }

  lemma NextKeeps(env: Env, s: Sys, step: Step)
    requires Inv(s)
    ensures Inv(Next(env, s, step))
  {
    var b := Behave(env, s, step.act);
    var o, snaps := Shape(env, s, step.act);
    var es := Left(env, s, step);
    if !snaps {
      assert es == [] && s.log + es == s.log;
    } else {
      RunThrough(s, o, b.memory.value);
      if es != b.effects {
        var n := |es|;
        assert es == o.effects[..n];
        CutShort(s, o, n);
      } else {
        assert es == o.effects + [Snapshotted(Take(b.memory.value))];
      }
    }
  }

  /** The invariant holds after any steps whatsoever. */
  lemma {:induction false} AlwaysInv(env: Env, steps: seq<Step>)
    ensures Inv(Exec(env, steps))
  {
    if steps == [] {
      assert Durable(FIRST.disk) == map[];
    } else {
      AlwaysInv(env, steps[..|steps| - 1]);
      NextKeeps(env, Exec(env, steps[..|steps| - 1]), steps[|steps| - 1]);
    }
  }
}
