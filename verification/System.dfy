/** One Hermes process over its whole life: commands, received messages, restarts
    and kills at any point between two externally visible effects. */
module System {
  import opened Wrappers
  import opened Model
  import opened Store
  import opened Lifecycle

  /** Volatile state of a running process. */
  datatype Memory = Memory(recs: Records, inbox: seq<PeerMessage>, inboxIds: set<string>)

  /** Durable state: the process snapshot, the idempotency file, the audit file.
      Between calls the store in memory equals its file (Store.IdempotencyStore). */
  datatype Disk = Disk(snapshot: Snapshot, store: StoreView, audit: seq<Entry>)

  /** `memory` is None while the process is down; `log` is every effect so far. */
  datatype Sys = Sys(memory: Option<Memory>, disk: Disk, log: seq<Effect>)

  const FRESH := Memory(map[], [], {})
  const FIRST := Sys(None, Disk(Snapshot(map[], []), EMPTY_STORE, []), [])

  function Apply(d: Disk, e: Effect): Disk {
    match e
    case Saved(s) => d.(store := s)
    case Logged(en) => d.(audit := d.audit + [en])
    case Snapshotted(s) => d.(snapshot := s)
    case Called(_, _) => d
  }

  function ApplyAll(d: Disk, es: seq<Effect>): Disk
    decreases |es|
  {
    if es == [] then d else ApplyAll(Apply(d, es[0]), es[1..])
  }

  datatype Action =
    | Do(cmd: Command)
    | Receive(messages: seq<PeerMessage>)
    | Recover(order: seq<string>, answers: Answers)   // one round of the recover command
    | Boot(order: seq<string>, answers: Answers)      // start, or restart, from disk

  /** An action runs to its end, or the process is killed after its first
      `effects` effects. */
  datatype Step = Run(act: Action) | Kill(act: Action, effects: nat)

  datatype Behaviour = Behaviour(effects: seq<Effect>, memory: Option<Memory>, error: Option<Error>)

  function Take(m: Memory): Snapshot { Snapshot(EncodeAll(m.recs), m.inbox) }

  /** Append the messages whose id is not yet known, in order. */
  function Absorb(m: Memory, messages: seq<PeerMessage>): Memory {
    if messages == [] then m
    else
      var before := Absorb(m, messages[..|messages| - 1]);
      var msg := messages[|messages| - 1];
      if msg.messageId in before.inboxIds then before
      else before.(inbox := before.inbox + [msg], inboxIds := before.inboxIds + {msg.messageId})
  }

  predicate Enumerates(order: seq<string>, keys: set<string>) {
    && (forall id :: id in order ==> id in keys) && (forall id :: id in keys ==> id in order)
    && (forall i, j :: 0 <= i < j < |order| ==> order[i] != order[j])
  }

  /** _maybe_recover from the snapshot on disk into memory `m`. */
  function Reload(m: Memory, d: Disk, order: seq<string>, answers: Answers, live: bool): Behaviour
    requires Enumerates(order, d.snapshot.records.Keys)
  {
    var o := RecoverRecords(m.recs, d.store, d.snapshot.records, order, answers);
    if o.error.Some? then
      // Starting up fails; the recover command still writes its final snapshot.
      var m' := m.(recs := o.recs);
      if live then Behaviour(o.effects + [Snapshotted(Take(m'))], Some(m'), o.error)
      else Behaviour(o.effects, None, o.error)
    else
      var m' := Absorb(m.(recs := o.recs), d.snapshot.inbox);
      Behaviour(o.effects + if d.snapshot.records == map[] then [] else [Snapshotted(Take(m'))], Some(m'), None)
  }

  function Behave(env: Env, s: Sys, act: Action): Behaviour {
    match act
    case Boot(order, answers) =>
      if !Enumerates(order, s.disk.snapshot.records.Keys) then Behaviour([], s.memory, None)
      else Reload(FRESH, s.disk, order, answers, false)
    case _ =>
      if s.memory.None? then Behaviour([], None, None)
      else
        var m := s.memory.value;
        match act
        case Do(cmd) =>
          var o := Perform(env, m.recs, s.disk.store, cmd);
          var m' := m.(recs := o.recs);
          Behaviour(o.effects + [Snapshotted(Take(m'))], Some(m'), o.error)
        case Receive(messages) =>
          var m' := Absorb(m, messages);
          Behaviour([Snapshotted(Take(m'))], Some(m'), None)
        case Recover(order, answers) =>
          if !Enumerates(order, s.disk.snapshot.records.Keys) then Behaviour([], s.memory, None)
          else Reload(m, s.disk, order, answers, true)
  }

  function Min(a: nat, b: nat): nat { if a < b then a else b }

  /** The effects a step leaves behind. */
  function Left(env: Env, s: Sys, step: Step): seq<Effect> {
    var b := Behave(env, s, step.act);
    match step
    case Run(_) => b.effects
    case Kill(_, n) => b.effects[..Min(n, |b.effects|)]
  }

  function Next(env: Env, s: Sys, step: Step): Sys {
    var es := Left(env, s, step);
    Sys(if step.Run? then Behave(env, s, step.act).memory else None,
        ApplyAll(s.disk, es), s.log + es)
  }

  /** The process after any sequence of steps from its first start. */
  function Exec(env: Env, steps: seq<Step>): Sys {
    if steps == [] then FIRST
    else Next(env, Exec(env, steps[..|steps| - 1]), steps[|steps| - 1])
  }

  /** Restarts happen only between commands. */
  ghost predicate NoKills(steps: seq<Step>) {
    forall i :: 0 <= i < |steps| ==> steps[i].Run?
  }

  lemma {:induction false} ApplyConcat(d: Disk, a: seq<Effect>, b: seq<Effect>)
    ensures ApplyAll(d, a + b) == ApplyAll(ApplyAll(d, a), b)
    decreases |a|
  {
    if a == [] {
      assert a + b == b;
    } else {
      assert (a + b)[1..] == a[1..] + b;
      ApplyConcat(Apply(d, a[0]), a[1..], b);
    }
  }
}
