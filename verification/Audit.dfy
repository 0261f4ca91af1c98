/** The audit trail as a second copy of the lifecycle: in runs whose restarts
    fall between commands, replaying it gives the current states, step by step
    along the automaton. */
module Audit {
  import opened Wrappers
  import opened StateMachine
  import opened Model
  import opened Store
  import opened Lifecycle
  import opened Committed
  import opened System

  /** An intent that is not tracked counts as DRAFT. */
  function StateOf(recs: Records, id: string): State {
    if id in recs then recs[id].state else Draft
  }

  /** The last audited state of an intent. */
  function Audited(audit: seq<Entry>, id: string): State {
    if audit == [] then Draft
    else
      var last := audit[|audit| - 1];
      if last.intentId == id then last.state else Audited(audit[..|audit| - 1], id)
  }

  /** An entry repeats the state before it or follows an edge from it. */
  ghost predicate Follows(before: State, after: State) {
    (before == after && before != Draft) || Edge(before, after)
  }

  ghost predicate FollowsAutomaton(audit: seq<Entry>) {
    forall k :: 0 <= k < |audit| ==> Follows(Audited(audit[..k], audit[k].intentId), audit[k].state)
  }

  lemma AuditAppend(audit: seq<Entry>, e: Entry)
    requires FollowsAutomaton(audit) && Follows(Audited(audit, e.intentId), e.state)
    ensures FollowsAutomaton(audit + [e])
    ensures forall id :: Audited(audit + [e], id) == if id == e.intentId then e.state else Audited(audit, id)
  {
    var longer := audit + [e];
    assert longer[..|audit|] == audit;
    forall k | 0 <= k < |longer| ensures Follows(Audited(longer[..k], longer[k].intentId), longer[k].state) {
      if k < |audit| { assert longer[..k] == audit[..k]; }
    }
  }

  /** Effects that audit one intent from state `s` to state `t`. */
  ghost predicate Traces(es: seq<Effect>, id: string, s: State, t: State)
    decreases |es|
  {
    if es == [] then s == t
    else if es[0].Logged? then
      var e := es[0].entry;
      && e.intentId == id && Follows(s, e.state)
      && Traces(es[1..], id, e.state, t)
    else Traces(es[1..], id, s, t)
  }

  ghost predicate TracesChange(id: string, r: Record, c: Change) {
    Traces(c.effects, id, r.state, c.rec.state)
  }

  /** Splits a trace of up to four effects for the solver. */
  lemma TracesSteps(es: seq<Effect>, id: string, s: State, t: State)
    ensures es == [] ==> (Traces(es, id, s, t) <==> s == t)
    ensures |es| == 1 ==> (Traces(es, id, s, t) <==> After(es[0], id, s) && StateAfter(es[0], s) == t)
    ensures |es| >= 2 ==> (Traces(es, id, s, t) <==>
              After(es[0], id, s) && After(es[1], id, StateAfter(es[0], s))
              && Traces(es[2..], id, StateAfter(es[1], StateAfter(es[0], s)), t))
  {
    hide Follows;
    if |es| >= 1 { TracesStep(es, id, s, t); }
    if |es| >= 2 {
      assert es[1..][1..] == es[2..];
      TracesStep(es[1..], id, StateAfter(es[0], s), t);
    }
  }

  lemma TracesStep(es: seq<Effect>, id: string, s: State, t: State)
    requires es != []
    ensures Traces(es, id, s, t) <==> After(es[0], id, s) && Traces(es[1..], id, StateAfter(es[0], s), t)
  {
  }

  ghost predicate After(e: Effect, id: string, s: State) {
    e.Logged? ==> e.entry.intentId == id && Follows(s, e.entry.state)
  }

  function StateAfter(e: Effect, s: State): State {
    if e.Logged? then e.entry.state else s
  }

  lemma TransitionIsEdge(s: State, t: Trigger)
    requires Transition(s, t).ok
    ensures Edge(s, Transition(s, t).state)
  {
    TerminalMeansStuck(s);
  }

  lemma QuoteTraces(id: string, r: Record, store: StoreView, quote: Quote, now: int)
    requires RecordOk(id, r, store)
    ensures TracesChange(id, r, QuoteChange(r, store, quote, now))
  {
    var c := QuoteChange(r, store, quote, now);
    TracesSteps(c.effects, id, r.state, c.rec.state);
    if c.error.None? { TransitionIsEdge(r.state, OnQuoteReceived); }
  }

  lemma PrepareTraces(env: Env, id: string, r: Record, store: StoreView, answer: Answer<PrepareOutcome>, now: int)
    requires RecordOk(id, r, store)
    ensures TracesChange(id, r, PrepareChange(env, r, store, answer, now))
  {
    var c := PrepareChange(env, r, store, answer, now);
    TracesSteps(c.effects, id, r.state, c.rec.state);
    if c.error.None? { TransitionIsEdge(r.state, OnPrepared); }
  }

  lemma ApproveTraces(id: string, r: Record, store: StoreView, a: Approval)
    requires RecordOk(id, r, store)
    ensures TracesChange(id, r, ApproveChange(r, store, a))
  {
    var c := ApproveChange(r, store, a);
    TracesSteps(c.effects, id, r.state, c.rec.state);
    if c.error.None? { TransitionIsEdge(r.state, OnApproved); }
  }

  lemma ExecuteTraces(id: string, r: Record, store: StoreView, answer: Answer<ExecuteOutcome>)
    requires RecordOk(id, r, store)
    ensures TracesChange(id, r, ExecuteChange(r, store, answer))
  {
    var c := ExecuteChange(r, store, answer);
    TracesSteps(c.effects, id, r.state, c.rec.state);
    if |c.effects| >= 2 {
      TransitionIsEdge(Approved, OnExecuting);
      TransitionIsEdge(Executing, OnSettled);
      TransitionIsEdge(Executing, OnAdapterError);
      assert StateAfter(c.effects[1], StateAfter(c.effects[0], r.state)) == Executing;
      TracesSteps(c.effects[2..], id, Executing, c.rec.state);
    }
  }

  lemma ReceiptTraces(id: string, r: Record, store: StoreView, receipt: Receipt, answer: Answer<VerifyOutcome>)
    requires RecordOk(id, r, store)
    ensures TracesChange(id, r, ReceiptChange(r, store, receipt, answer))
  {
    var c := ReceiptChange(r, store, receipt, answer);
    TracesSteps(c.effects, id, r.state, c.rec.state);
    if |c.effects| == 3 {
      TransitionIsEdge(r.state, OnReceiptReceived);
      TracesSteps(c.effects[2..], id, r.state, c.rec.state);
    }
    if |c.effects| == 2 { TracesSteps(c.effects[2..], id, r.state, c.rec.state); }
  }

  lemma ConfirmTraces(id: string, r: Record, store: StoreView)
    requires RecordOk(id, r, store)
    ensures TracesChange(id, r, ConfirmChange(r, store, id))
  {
    var c := ConfirmChange(r, store, id);
    TracesSteps(c.effects, id, r.state, c.rec.state);
    if c.error.None? { TransitionIsEdge(r.state, OnConfirmSettled); }
  }

  lemma ReconcileTraces(id: string, r: Record, store: StoreView, answer: Answer<ReconcileOutcome>)
    requires RecordOk(id, r, store)
    ensures TracesChange(id, r, ReconcileChange(r, store, answer))
  {
    var c := ReconcileChange(r, store, answer);
    TracesSteps(c.effects, id, r.state, c.rec.state);
  }

  lemma MoveTraces(id: string, r: Record, store: StoreView, trigger: Trigger, event: Event)
    requires RecordOk(id, r, store)
    ensures TracesChange(id, r, MoveChange(r, store, trigger, event))
  {
    var c := MoveChange(r, store, trigger, event);
    TracesSteps(c.effects, id, r.state, c.rec.state);
    if c.error.None? { TransitionIsEdge(r.state, trigger); }
  }

  lemma RecoverTraces(id: string, r: Record, store: StoreView, answer: Answer<ReconcileOutcome>)
    requires RecordOk(id, r, store)
    ensures TracesChange(id, r, RecoverChange(id, Encode(r), store, answer))
  {
    assert Decode(Encode(r)) == r;
    var c := RecoverChange(id, Encode(r), store, answer);
    TracesSteps(c.effects, id, r.state, c.rec.state);
    if r.state == Executing {
      TransitionIsEdge(Executing, OnExpired);
      TracesSteps(c.effects[2..], id, ReconciliationRequired, c.rec.state);
    }
  }

  // ------------------------------------------------------------------
  // From effects to the audit file
  // ------------------------------------------------------------------

  /** The audit file agrees with the records. */
  ghost predicate AuditOk(audit: seq<Entry>, recs: Records) {
    FollowsAutomaton(audit) && forall id :: Audited(audit, id) == StateOf(recs, id)
  }

  /** A trace for one intent moves exactly its audited state. */
  lemma {:induction false} TraceApplied(d: Disk, es: seq<Effect>, id: string, t: State)
    requires FollowsAutomaton(d.audit) && Traces(es, id, Audited(d.audit, id), t)
    ensures var audit := ApplyAll(d, es).audit;
            && FollowsAutomaton(audit)
            && forall x :: Audited(audit, x) == if x == id then t else Audited(d.audit, x)
    decreases |es|
  {
    if es != [] {
      if es[0].Logged? { AuditAppend(d.audit, es[0].entry); }
      TraceApplied(Apply(d, es[0]), es[1..], id, t);
    }
  }

  /** A change to one record, new or tracked, keeps the audit file in agreement. */
  lemma ChangeAudited(d: Disk, recs: Records, id: string, c: Change)
    requires AuditOk(d.audit, recs) && Traces(c.effects, id, StateOf(recs, id), c.rec.state)
    ensures AuditOk(ApplyAll(d, c.effects).audit, recs[id := c.rec])
  {
    TraceApplied(d, c.effects, id, c.rec.state);
  }

  lemma AdmitAudited(d: Disk, recs: Records, store: StoreView, intent: Intent)
    requires AuditOk(d.audit, recs) && intent.id !in recs
    ensures AuditOk(ApplyAll(d, Admit(store, intent).effects).audit, With(recs, intent.id, Admit(store, intent)).recs)
  {
    AdmitOk(store, intent);
    var c := Admit(store, intent);
    TracesSteps(c.effects, intent.id, Draft, Submitted);
    TransitionIsEdge(Draft, OnSubmit);
    ChangeAudited(d, recs, intent.id, c);
  }

  lemma {:induction false} ExpiryAudited(d: Disk, recs: Records, ids: seq<string>)
    requires AuditOk(d.audit, recs)
    requires forall id :: id in ids && id in recs ==> recs[id].state == Executing
    ensures var (recs', es) := ExpireAll(recs, ids); AuditOk(ApplyAll(d, es).audit, recs')
  {
    if ids != [] {
      var front, id := ids[..|ids| - 1], ids[|ids| - 1];
      ExpiryAudited(d, recs, front);
      var (recs1, es1) := ExpireAll(recs, front);
      if id in recs1 && Transition(recs1[id].state, OnExpired).ok {
        TransitionIsEdge(recs1[id].state, OnExpired);
        ExpiryStep(d, es1, recs1, id, Transition(recs1[id].state, OnExpired).state);
      } else {
        assert es1 + [] == es1;
      }
    }
  }

  lemma EntryAudited(audit: seq<Entry>, recs: Records, e: Entry, rec: Record)
    requires AuditOk(audit, recs) && Follows(StateOf(recs, e.intentId), e.state) && rec.state == e.state
    ensures AuditOk(audit + [e], recs[e.intentId := rec])
  {
    AuditAppend(audit, e);
  }

  lemma ExpiryStep(d: Disk, es: seq<Effect>, recs: Records, id: string, t: State)
    requires AuditOk(ApplyAll(d, es).audit, recs) && id in recs && Edge(recs[id].state, t)
    ensures AuditOk(ApplyAll(d, es + [Logged(Entry(EvExpiredDuringExecution, id, t))]).audit, recs[id := recs[id].(state := t)])
  {
    var d1, e := ApplyAll(d, es), Entry(EvExpiredDuringExecution, id, t);
    EntryAudited(d1.audit, recs, e, recs[id].(state := t));
    LoggedLast(d, es, e);
  }

  lemma LoggedLast(d: Disk, es: seq<Effect>, e: Entry)
    ensures ApplyAll(d, es + [Logged(e)]).audit == ApplyAll(d, es).audit + [e]
  {
    ApplyConcat(d, es, [Logged(e)]);
    var d1 := ApplyAll(d, es);
    assert ApplyAll(d1, [Logged(e)]) == Apply(d1, Logged(e));
  }

  lemma SweepAudited(d: Disk, recs: Records, store: StoreView, order: seq<string>, only: Option<set<string>>, now: int)
    requires AuditOk(d.audit, recs)
    ensures var o := CheckExpired(recs, store, order, only, now); AuditOk(ApplyAll(d, o.effects).audit, o.recs)
  {
    OverdueOnly(recs, order, only, now);
    ExpiryAudited(d, recs, OverdueIn(recs, order, only, now));
  }

  /** The audited state after recovering the records in `order`: only an
      interrupted execution moves. */
  function StateAfterRecovery(recs: Records, order: seq<string>, id: string): State {
    if id in order && StateOf(recs, id) == Executing then ReconciliationRequired else StateOf(recs, id)
  }

  ghost predicate RecoveredTo(audit: seq<Entry>, recs: Records, order: seq<string>) {
    FollowsAutomaton(audit) && forall id :: Audited(audit, id) == StateAfterRecovery(recs, order, id)
  }

  lemma RecoveryStep(d: Disk, recs: Records, front: seq<string>, id: string, es: seq<Effect>, more: seq<Effect>, t: State)
    requires id !in front && RecoveredTo(ApplyAll(d, es).audit, recs, front)
    requires Traces(more, id, StateOf(recs, id), t) && t == StateAfterRecovery(recs, [id], id)
    ensures RecoveredTo(ApplyAll(d, es + more).audit, recs, front + [id])
  {
    TraceApplied(ApplyAll(d, es), more, id, t);
    ApplyConcat(d, es, more);
  }

  /** Recovering the records in `order` moves exactly their audited states. */
  lemma {:induction false} RecoveryAudited(d: Disk, recs: Records, store: StoreView, base: Records,
                                           saved: map<string, SavedRecord>, order: seq<string>, answers: Answers)
    requires RecordsOk(recs, store) && saved == EncodeAll(recs) && AuditOk(d.audit, recs)
    requires forall id :: id in order ==> id in saved
    requires forall i, j :: 0 <= i < j < |order| ==> order[i] != order[j]
    ensures RecoveredTo(ApplyAll(d, RecoverRecords(base, store, saved, order, answers).effects).audit, recs, order)
  {
    hide RecordOk, TracesChange;
    if order != [] {
      var front, id := order[..|order| - 1], order[|order| - 1];
      RecoveryAudited(d, recs, store, base, saved, front, answers);
      RecoverNever(recs, store, base, saved, front, answers);
      var before := RecoverRecords(base, store, saved, front, answers);
      var answer := AnswerFor(answers, id);
      RecoverOne(id, recs[id], store, answer);
      RecoverTraces(id, recs[id], store, answer);
      var c := RecoverChange(id, saved[id], store, answer);
      assert order == front + [id];
      RecoveryStep(d, recs, front, id, before.effects, c.effects, c.rec.state);
    }
  }

  lemma RecoverNever(recs: Records, store: StoreView, base: Records,
                     saved: map<string, SavedRecord>, order: seq<string>, answers: Answers)
    requires RecordsOk(recs, store) && saved == EncodeAll(recs)
    requires forall id :: id in order ==> id in saved
    ensures RecoverRecords(base, store, saved, order, answers).error.None?
  {
    forall x | x in saved ensures RecordOk(x, Decode(saved[x]), store) {
      RecoverOne(x, recs[x], store, AnswerFor(answers, x));
    }
    RecoverAll(base, store, saved, order, answers);
  }

  lemma EngineAudited(env: Env, d: Disk, recs: Records, store: StoreView, cmd: Command)
    requires RecordsOk(recs, store) && AuditOk(d.audit, recs)
    ensures var o := Perform(env, recs, store, cmd); AuditOk(ApplyAll(d, o.effects).audit, o.recs)
  {
    hide AuditOk;
    match cmd
    case CmdSubmit(i, now) =>
      assert i.id in recs ==> i.id in store.intents;
      if i.id !in recs { AdmitAudited(d, recs, store, i); }
    case CmdCheckExpired(order, only, now) => SweepAudited(d, recs, store, order, only, now);
    case CmdStatus =>
    case _ => CallAudited(env, d, recs, store, cmd);
  }

  /** The record a single-record command works on. */
  function Target(cmd: Command): string
    requires !cmd.CmdSubmit? && !cmd.CmdCheckExpired? && !cmd.CmdStatus?
  {
    match cmd
    case CmdReceiveQuote(q, _) => q.intentId
    case CmdPrepare(pick, _, _) => pick
    case CmdApprove(a) => a.intentId
    case CmdExecute(pick, _) => pick
    case CmdReceiveReceipt(r, _) => r.intentId
    case CmdConfirmSettled(id) => id
    case CmdReconcile(id, _) => id
    case CmdCancel(id) => id
    case CmdReject(id) => id
  }

  lemma Untracked(env: Env, recs: Records, store: StoreView, cmd: Command)
    requires !cmd.CmdSubmit? && !cmd.CmdCheckExpired? && !cmd.CmdStatus?
    requires Target(cmd) !in recs
    ensures var o := Perform(env, recs, store, cmd); o.recs == recs && o.store == store && o.effects == []
  {
  }

  lemma CallAudited(env: Env, d: Disk, recs: Records, store: StoreView, cmd: Command)
    requires !cmd.CmdSubmit? && !cmd.CmdCheckExpired? && !cmd.CmdStatus?
    requires RecordsOk(recs, store) && AuditOk(d.audit, recs)
    ensures var o := Perform(env, recs, store, cmd); AuditOk(ApplyAll(d, o.effects).audit, o.recs)
  {
    var id := Target(cmd);
    if id in recs {
      var c := CallTraces(env, recs, store, cmd);
      ChangeAudited(d, recs, id, c);
    } else {
      Untracked(env, recs, store, cmd);
    }
  }

  lemma CallTraces(env: Env, recs: Records, store: StoreView, cmd: Command) returns (c: Change)
    requires !cmd.CmdSubmit? && !cmd.CmdCheckExpired? && !cmd.CmdStatus?
    requires RecordsOk(recs, store) && Target(cmd) in recs
    ensures Perform(env, recs, store, cmd) == With(recs, Target(cmd), c)
    ensures TracesChange(Target(cmd), recs[Target(cmd)], c)
  {
    var id := Target(cmd);
    var r := recs[id];
    match cmd
    case CmdReceiveQuote(q, now) => c := QuoteChange(r, store, q, now); QuoteTraces(id, r, store, q, now);
    case CmdPrepare(_, a, now) => c := PrepareChange(env, r, store, a, now); PrepareTraces(env, id, r, store, a, now);
    case CmdApprove(a) => c := ApproveChange(r, store, a); ApproveTraces(id, r, store, a);
    case CmdExecute(_, a) => c := ExecuteChange(r, store, a); ExecuteTraces(id, r, store, a);
    case CmdReceiveReceipt(x, a) => c := ReceiptChange(r, store, x, a); ReceiptTraces(id, r, store, x, a);
    case CmdConfirmSettled(_) => c := ConfirmChange(r, store, id); ConfirmTraces(id, r, store);
    case CmdReconcile(_, a) => c := ReconcileChange(r, store, a); ReconcileTraces(id, r, store, a);
    case CmdCancel(_) => c := MoveChange(r, store, OnCancel, EvCancelled); MoveTraces(id, r, store, OnCancel, EvCancelled);
    case CmdReject(_) => c := MoveChange(r, store, OnRejected, EvRejected); MoveTraces(id, r, store, OnRejected, EvRejected);
  }

  // ------------------------------------------------------------------
  // Refinement to the automaton
  // ------------------------------------------------------------------

  /** A walk of zero or more edges. */
  ghost predicate Path(s: State, t: State) {
    exists walk: seq<State> :: Walk(walk, s, t)
  }

  ghost predicate Walk(walk: seq<State>, s: State, t: State) {
    && |walk| > 0 && walk[0] == s && walk[|walk| - 1] == t
    && forall i :: 0 <= i < |walk| - 1 ==> Edge(walk[i], walk[i + 1])
  }

  lemma Stay(s: State)
    ensures Path(s, s)
  {
    assert Walk([s], s, s);
  }

  lemma EdgeThenPath(s: State, m: State, t: State)
    requires Edge(s, m) && Path(m, t)
    ensures Path(s, t)
  {
    var walk :| Walk(walk, m, t);
    var longer := [s] + walk;
    forall i | 0 <= i < |longer| - 1 ensures Edge(longer[i], longer[i + 1]) {
      if i > 0 { assert Edge(walk[i - 1], walk[i]); }
    }
    assert Walk(longer, s, t);
  }

  lemma {:induction false} TracesArePath(es: seq<Effect>, id: string, s: State, t: State)
    requires Traces(es, id, s, t)
    ensures Path(s, t)
    decreases |es|
  {
    if es == [] {
      Stay(s);
    } else if es[0].Logged? {
      TracesArePath(es[1..], id, es[0].entry.state, t);
      if s != es[0].entry.state { EdgeThenPath(s, es[0].entry.state, t); }
    } else {
      TracesArePath(es[1..], id, s, t);
    }
  }

  /** Every call, returning or raising, moves states only along edges of the
      automaton, and outside the expiry sweep only its own intent's. */
  lemma EngineFollowsEdges(env: Env, recs: Records, store: StoreView, cmd: Command, x: string)
    requires RecordsOk(recs, store)
    ensures var o := Perform(env, recs, store, cmd);
            && Path(StateOf(recs, x), StateOf(o.recs, x))
            && (StateOf(recs, x) != StateOf(o.recs, x) ==>
                  match cmd
                  case CmdSubmit(i, _) => x == i.id
                  case CmdCheckExpired(_, _, _) => StateOf(recs, x) == Executing
                  case CmdStatus => false
                  case _ => x == Target(cmd))
  {
    match cmd
    case CmdSubmit(i, now) =>
      assert i.id in recs ==> i.id in store.intents;
      AdmitOk(store, i);
      Stay(StateOf(recs, x));
      SubmittedPath();
    case CmdCheckExpired(order, only, now) => SweepFollowsEdges(recs, store, order, only, now, x);
    case CmdStatus => Stay(StateOf(recs, x));
    case _ => CallFollowsEdges(env, recs, store, cmd, x);
  }

  lemma SweepFollowsEdges(recs: Records, store: StoreView, order: seq<string>, only: Option<set<string>>, now: int, x: string)
    ensures var o := CheckExpired(recs, store, order, only, now);
            && Path(StateOf(recs, x), StateOf(o.recs, x))
            && (StateOf(recs, x) != StateOf(o.recs, x) ==> StateOf(recs, x) == Executing)
  {
    OverdueOnly(recs, order, only, now);
    ExpireAllOk(recs, OverdueIn(recs, order, only, now));
    Stay(StateOf(recs, x));
    ExecutingPath();
  }

  lemma CallFollowsEdges(env: Env, recs: Records, store: StoreView, cmd: Command, x: string)
    requires !cmd.CmdSubmit? && !cmd.CmdCheckExpired? && !cmd.CmdStatus? && RecordsOk(recs, store)
    ensures var o := Perform(env, recs, store, cmd);
            && Path(StateOf(recs, x), StateOf(o.recs, x))
            && (StateOf(recs, x) != StateOf(o.recs, x) ==> x == Target(cmd))
  {
    hide Path;
    Stay(StateOf(recs, x));
    if Target(cmd) in recs {
      var c := CallTraces(env, recs, store, cmd);
      TracesArePath(c.effects, Target(cmd), recs[Target(cmd)].state, c.rec.state);
    } else {
      Untracked(env, recs, store, cmd);
    }
  }

  lemma SubmittedPath()
    ensures Path(Draft, Submitted)
  {
    TransitionIsEdge(Draft, OnSubmit);
    Stay(Submitted);
    EdgeThenPath(Draft, Submitted, Submitted);
  }

  lemma ExecutingPath()
    ensures Path(Executing, ReconciliationRequired)
  {
    TransitionIsEdge(Executing, OnExpired);
    Stay(ReconciliationRequired);
    EdgeThenPath(Executing, ReconciliationRequired, ReconciliationRequired);
  }

  /** So does restart recovery, although it assigns the state directly. */
  lemma RecoveryFollowsEdges(r: Record, outcome: ReconcileOutcome)
    ensures Path(r.state, Recovered(r, outcome).state)
  {
    Stay(r.state);
    ExecutingPath();
  }
}
