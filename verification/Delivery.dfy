/** The receive cursor and the process inbox together: what restarts, kills and a
    raising receive can and cannot lose. */
module Delivery {
  import opened Wrappers
  import opened Model
  import opened System
  import opened Safety
  import opened Buzz

  /** A transport's seen ids beside the process memory that absorbs its messages.
      The memory is the one on disk too: every command ends with a snapshot
      (Recovery.MemoryIsDurable). */
  datatype Endpoint = Endpoint(seen: set<string>, memory: Memory)

  const NEWBORN := Endpoint({}, FRESH)

  /** A receive command on the relay's view; a restart between commands; or a
      receive killed before its snapshot, and the restart after it. A restart
      brings the inbox back whole (Recovery.RestartIsIdentity) and the seen ids as
      far as the cursor file has them. */
  datatype Turn =
    | Take(view: seq<RawEvent>, limit: Option<int>)
    | Restart(cursor: set<string>)
    | Killed(view: seq<RawEvent>, limit: Option<int>, cursor: set<string>)

  /** What the receive of a turn does; a refused limit does nothing. */
  function PollOf(c: Channel, e: Endpoint, view: seq<RawEvent>, limit: Option<int>): Polled {
    match Poll(c, e.seen, view, limit)
    case None => Polled([], e.seen, false)
    case Some(p) => p
  }

  function TurnOn(c: Channel, e: Endpoint, t: Turn): Endpoint {
    match t
    case Take(view, limit) =>
      var p := PollOf(c, e, view, limit);
      if p.raised then e.(seen := p.seen) else Endpoint(p.seen, Absorb(e.memory, p.messages))
    case Restart(cursor) => e.(seen := cursor)
    case Killed(_, _, cursor) => e.(seen := cursor)
  }

  function Live(c: Channel, e: Endpoint, turns: seq<Turn>): Endpoint {
    if turns == [] then e else TurnOn(c, Live(c, e, turns[..|turns| - 1]), turns[|turns| - 1])
  }

  /** Polls see prefixes of `view`, and a cursor holds ids marked by then. */
  ghost predicate TurnOk(c: Channel, e: Endpoint, t: Turn, view: seq<RawEvent>) {
    match t
    case Take(v, _) => v <= view
    case Restart(cursor) => cursor <= e.seen
    case Killed(v, limit, cursor) => v <= view && cursor <= PollOf(c, e, v, limit).seen
  }

  ghost predicate Orderly(c: Channel, e: Endpoint, turns: seq<Turn>, view: seq<RawEvent>) {
    forall i :: 0 <= i < |turns| ==> TurnOk(c, Live(c, e, turns[..i]), turns[i], view)
  }

  /** Event `i` is the first with its id and is foreign and valid. */
  predicate Due(c: Channel, view: seq<RawEvent>, i: nat)
    requires i < |view|
  {
    view[i].id !in IdsIn(view[..i]) && Judge(c, view[i]).Deliver?
  }

  /** Whatever is marked as seen and is due is in the inbox. */
  ghost predicate Kept(c: Channel, e: Endpoint, view: seq<RawEvent>) {
    && InboxOk(e.memory)
    && forall i :: 0 <= i < |view| && view[i].id in e.seen && Due(c, view, i) ==> view[i].id in e.memory.inboxIds
  }

  /** What a turn collected and did not hand to the inbox. */
  function Unabsorbed(c: Channel, e: Endpoint, t: Turn): seq<PeerMessage> {
    match t
    case Take(view, limit) => if PollOf(c, e, view, limit).raised then PollOf(c, e, view, limit).messages else []
    case Restart(_) => []
    case Killed(view, limit, _) => PollOf(c, e, view, limit).messages
  }

  /** The turn raises, or is killed with the cursor written, holding a message that
      the inbox does not have. */
  ghost predicate Forgets(c: Channel, e: Endpoint, t: Turn) {
    exists m :: m in Unabsorbed(c, e, t) && m.messageId in TurnOn(c, e, t).seen && m.messageId !in e.memory.inboxIds
  }

  // ------------------------------------------------------------------
  // One receive
  // ------------------------------------------------------------------

  lemma {:induction false} FilterHasDue(c: Channel, start: set<string>, view: seq<RawEvent>, i: nat)
    requires i < |view| && Due(c, view, i) && view[i].id !in start
    ensures view[i].id in IdsOf(Filter(c, start, view))
  {
    var front, last := view[..|view| - 1], view[|view| - 1];
    var f := Filter(c, start, view);
    if i < |front| {
      assert front[..i] == view[..i];
      FilterHasDue(c, start, front, i);
      var m :| m in Filter(c, start, front) && m.messageId == view[i].id;
      assert m in f;
    } else {
      assert view[..i] == front;
      assert f[|f| - 1] == Judge(c, last).message;
    }
  }

  /** Every offer is a due event. */
  lemma {:induction false} FilterIsDue(c: Channel, start: set<string>, view: seq<RawEvent>, m: PeerMessage) returns (i: nat)
    requires m in Filter(c, start, view)
    ensures i < |view| && Due(c, view, i) && view[i].id == m.messageId && view[i].id !in start
  {
    var front, last := view[..|view| - 1], view[|view| - 1];
    if m in Filter(c, start, front) {
      i := FilterIsDue(c, start, front, m);
      assert front[..i] == view[..i];
    } else {
      i := |front|;
      assert view[..i] == front;
    }
  }

  lemma IdsGrow(view: seq<RawEvent>, n: nat, i: nat)
    requires n <= i <= |view|
    ensures IdsIn(view[..n]) <= IdsIn(view[..i])
  {
    assert view[..i] == view[..n] + view[n..i];
    IdsConcat(view[..n], view[n..i]);
  }

  /** The first event with an id found among the first `n` is itself among them. */
  lemma DueIsScanned(c: Channel, view: seq<RawEvent>, i: nat, n: nat)
    requires i < |view| && n <= |view| && Due(c, view, i) && view[i].id in IdsIn(view[..n])
    ensures i < n && Due(c, view[..n], i)
  {
    if n <= i {
      IdsGrow(view, n, i);
    } else {
      assert view[..n][..i] == view[..i];
    }
  }

  /** What a receive on a prefix of `view` collects are exactly the due events it
      newly marks. */
  lemma PollTakesDue(c: Channel, e: Endpoint, v: seq<RawEvent>, limit: Option<int>, view: seq<RawEvent>)
    requires v <= view
    ensures var p := PollOf(c, e, v, limit);
            && e.seen <= p.seen
            && (forall i :: 0 <= i < |view| && Due(c, view, i) && view[i].id !in e.seen ==>
                  (view[i].id in p.seen <==> view[i].id in IdsOf(p.messages)))
            && (forall m :: m in p.messages ==>
                  && m.messageId !in e.seen && m.messageId in p.seen
                  && (exists i :: 0 <= i < |view| && Due(c, view, i) && view[i].id == m.messageId))
            && (!p.raised && v == view && (limit.None? || |p.messages| < limit.value) ==> IdsIn(view) <= p.seen)
  {
    hide Judge, IdsOf, Scan;
    if limit.None? || limit.value > 0 {
      var p := PollOf(c, e, v, limit);
      var n := ScanIsFilter(c, e.seen, v, if limit.None? then None else Some(limit.value));
      assert v[..n] == view[..n];
      forall i | 0 <= i < |view| && Due(c, view, i) && view[i].id !in e.seen
        ensures view[i].id in p.seen <==> view[i].id in IdsOf(p.messages)
      {
        if view[i].id in p.seen {
          DueIsScanned(c, view, i, n);
          FilterHasDue(c, e.seen, view[..n], i);
        }
        if view[i].id in IdsOf(p.messages) { OffersAreMarked(c, e.seen, view[..n], view[i].id); }
      }
      forall m | m in p.messages
        ensures m.messageId !in e.seen && m.messageId in p.seen
                && exists i :: 0 <= i < |view| && Due(c, view, i) && view[i].id == m.messageId
      {
        var i := FilterIsDue(c, e.seen, view[..n], m);
        assert view[..n][..i] == view[..i] && view[..n][i] == view[i] && view[i] in view[..n];
        assert Due(c, view, i);
      }
      if v == view && n == |view| { assert view[..n] == view; }
    } else {
      NoMessages();
    }
  }

  lemma NoMessages()
    ensures IdsOf([]) == {}
  {
  }

  lemma OffersAreMarked(c: Channel, start: set<string>, view: seq<RawEvent>, id: string)
    requires id in IdsOf(Filter(c, start, view))
    ensures id in IdsIn(view)
  {
    FilterIds(c, start, view);
  }

  /** For any endpoint, after a receive of the whole view that returns with room
      left, a due message is in the inbox exactly when it was there before or was
      not marked as seen. */
  lemma DeliversExactly(c: Channel, e: Endpoint, view: seq<RawEvent>, limit: Option<int>, i: nat)
    requires InboxOk(e.memory) && i < |view| && Due(c, view, i)
    requires var p := PollOf(c, e, view, limit); !p.raised && (limit.None? || |p.messages| < limit.value)
    ensures view[i].id in TurnOn(c, e, Take(view, limit)).memory.inboxIds
            <==> view[i].id in e.memory.inboxIds || view[i].id !in e.seen
  {
    hide Due, IdsOf, Scan;
    var p := PollOf(c, e, view, limit);
    PollTakesDue(c, e, view, limit, view);
    AbsorbKeeps(e.memory, p.messages);
    assert view[i].id in IdsIn(view) by { assert view[i] in view; }
    if view[i].id in IdsOf(p.messages) { HasMessage(p.messages, view[i].id); }
  }

  lemma HasMessage(messages: seq<PeerMessage>, id: string)
    requires id in IdsOf(messages)
    ensures exists m :: m in messages && m.messageId == id
  {
  }

  // ------------------------------------------------------------------
  // Whole lives
  // ------------------------------------------------------------------

  /** A turn keeps every marked due message in the inbox exactly when it forgets
      none. */
  lemma TurnKeeps(c: Channel, e: Endpoint, t: Turn, view: seq<RawEvent>)
    requires Kept(c, e, view) && TurnOk(c, e, t, view)
    ensures Kept(c, TurnOn(c, e, t), view) <==> !Forgets(c, e, t)
  {
    hide Due, IdsOf, DistinctIds, PollOf;
    if !t.Restart? {
      var p := PollOf(c, e, t.view, t.limit);
      PollTakesDue(c, e, t.view, t.limit, view);
      AbsorbKeeps(e.memory, p.messages);
      forall i | 0 <= i < |view| && view[i].id in IdsOf(p.messages)
        ensures exists m :: m in p.messages && m.messageId == view[i].id
      {
        HasMessage(p.messages, view[i].id);
      }
    }
  }

  lemma OrderlyFront(c: Channel, e: Endpoint, turns: seq<Turn>, view: seq<RawEvent>)
    requires Orderly(c, e, turns, view) && turns != []
    ensures Orderly(c, e, turns[..|turns| - 1], view)
  {
    var front := turns[..|turns| - 1];
    forall i | 0 <= i < |front| ensures TurnOk(c, Live(c, e, front[..i]), front[i], view) {
      assert front[..i] == turns[..i];
    }
  }

  ghost predicate AlwaysKept(c: Channel, e: Endpoint, turns: seq<Turn>, view: seq<RawEvent>) {
    forall i :: 0 <= i <= |turns| ==> Kept(c, Live(c, e, turns[..i]), view)
  }

  ghost predicate NeverForgets(c: Channel, e: Endpoint, turns: seq<Turn>) {
    forall i :: 0 <= i < |turns| ==> !Forgets(c, Live(c, e, turns[..i]), turns[i])
  }

  /** Nothing is dropped, exactly as long as no turn forgets: through polls with any
      limits, restarts however much of the cursor was lost, kills and raising
      receives, every due message that was marked as seen is in the inbox, which
      holds one message per id, at every moment, if and only if no receive that
      raises or is killed after its cursor write held a message new to the inbox. */
  lemma {:induction false} NothingDropped(c: Channel, e: Endpoint, turns: seq<Turn>, view: seq<RawEvent>)
    requires Kept(c, e, view) && Orderly(c, e, turns, view)
    ensures AlwaysKept(c, e, turns, view) <==> NeverForgets(c, e, turns)
    decreases |turns|
  {
    hide Kept, Forgets, TurnOk, AlwaysKept, NeverForgets, TurnOn;
    SplitLast(c, e, turns, view);
    if turns != [] {
      var front, last := turns[..|turns| - 1], turns[|turns| - 1];
      OrderlyFront(c, e, turns, view);
      NothingDropped(c, e, front, view);
      SplitLast(c, e, front, view);
      assert TurnOk(c, Live(c, e, turns[..|front|]), turns[|front|], view);
      if Kept(c, Live(c, e, front), view) { TurnKeeps(c, Live(c, e, front), last, view); }
    }
  }

  lemma SplitLast(c: Channel, e: Endpoint, turns: seq<Turn>, view: seq<RawEvent>)
    ensures AlwaysKept(c, e, turns, view) ==> Kept(c, Live(c, e, turns), view)
    ensures turns == [] ==> NeverForgets(c, e, turns) && (AlwaysKept(c, e, turns, view) <==> Kept(c, e, view))
    ensures turns != [] ==>
              var front := turns[..|turns| - 1];
              && (AlwaysKept(c, e, turns, view) <==> AlwaysKept(c, e, front, view) && Kept(c, Live(c, e, turns), view))
              && (NeverForgets(c, e, turns) <==>
                    NeverForgets(c, e, front) && !Forgets(c, Live(c, e, front), turns[|turns| - 1]))
  {
    hide Kept, Forgets, TurnOn;
    assert turns[..|turns|] == turns;
    if turns != [] {
      var front := turns[..|turns| - 1];
      assert forall i :: 0 <= i <= |front| ==> front[..i] == turns[..i];
      assert forall i :: 0 <= i < |front| ==> front[i] == turns[i];
    } else {
      assert forall i :: 0 <= i <= |turns| ==> turns[..i] == [];
    }
  }

  /** All is delivered: after a life in which no turn forgot, a poll of the whole
      view that returns with room left has every due message in the inbox, once. */
  lemma AllDelivered(c: Channel, turns: seq<Turn>, view: seq<RawEvent>, limit: Option<int>, i: nat)
    requires Orderly(c, NEWBORN, turns, view) && NeverForgets(c, NEWBORN, turns)
    requires var p := PollOf(c, Live(c, NEWBORN, turns), view, limit);
             !p.raised && (limit.None? || |p.messages| < limit.value)
    requires i < |view| && Due(c, view, i)
    ensures var e := Live(c, NEWBORN, turns + [Take(view, limit)]);
            DistinctIds(e.memory.inbox) && view[i].id in IdsOf(e.memory.inbox)
  {
    hide Due, PollOf, Forgets;
    NothingDropped(c, NEWBORN, turns, view);
    var e, t := Live(c, NEWBORN, turns), Take(view, limit);
    assert turns[..|turns|] == turns;
    assert Kept(c, e, view);
    DeliversExactly(c, e, view, limit, i);
    AbsorbKeeps(e.memory, PollOf(c, e, view, limit).messages);
    assert (turns + [t])[..|turns|] == turns;
  }

  /** An id marked but not in the inbox is never delivered as long as every cursor
      keeps it. */
  lemma {:induction false} LostForGood(c: Channel, e: Endpoint, turns: seq<Turn>, id: string)
    requires id in e.seen && id !in e.memory.inboxIds && InboxOk(e.memory)
    requires forall i :: 0 <= i < |turns| && !turns[i].Take? ==> id in turns[i].cursor
    ensures var e' := Live(c, e, turns); id in e'.seen && id !in e'.memory.inboxIds && InboxOk(e'.memory)
  {
    hide Scan, IdsOf, DistinctIds;
    if turns != [] {
      var front, last := turns[..|turns| - 1], turns[|turns| - 1];
      LostForGood(c, e, front, id);
      var before := Live(c, e, front);
      if last.Take? {
        var p := PollOf(c, before, last.view, last.limit);
        PollTakesDue(c, before, last.view, last.limit, last.view);
        AbsorbKeeps(before.memory, p.messages);
        if id in IdsOf(p.messages) { HasMessage(p.messages, id); }
      }
    }
  }

  /** A receive that would deliver a due message forgets it when it is killed after
      the cursor write. */
  lemma KillForgets(c: Channel, e: Endpoint, view: seq<RawEvent>, i: nat)
    requires InboxOk(e.memory) && i < |view| && Due(c, view, i)
    requires view[i].id !in e.seen && view[i].id !in e.memory.inboxIds
    requires !PollOf(c, e, view, None).raised
    ensures var t := Killed(view, None, PollOf(c, e, view, None).seen);
            && TurnOk(c, e, t, view) && Forgets(c, e, t)
            && view[i].id in TurnOn(c, e, t).seen && view[i].id !in TurnOn(c, e, t).memory.inboxIds
    ensures view[i].id in TurnOn(c, e, Take(view, None)).memory.inboxIds
  {
    hide Due, Scan, IdsOf;
    var p := PollOf(c, e, view, None);
    PollTakesDue(c, e, view, None, view);
    assert view[i].id in IdsIn(view) by { assert view[i] in view; }
    HasMessage(p.messages, view[i].id);
    DeliversExactly(c, e, view, None, i);
  }
}
