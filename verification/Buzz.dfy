/** The Buzz receive path: validation of relay events, the de-duplicating and
    limit-respecting poll, and its persisted cursor. */
module Buzz {
  import opened Wrappers
  import opened Model

  datatype RawEvent = RawEvent(
    id: string, pubkey: string, kind: int, content: string, tags: seq<seq<string>>, createdAt: int)

  const WIRE_KIND := 9
  const CURSOR_CAPACITY := 10000

  /** What the envelope codec makes of an event's content. It refuses with
      ValueError; what else escapes it, such as the TypeError for an envelope
      whose type is a list, nobody on the receive path catches. */
  datatype Decoding = Refuses | Escapes | Decodes(message: Message)

  /** An endpoint's fixed surroundings. `decode` stands for the envelope codec,
      `now` for the clock while a view is polled. */
  datatype Channel = Channel(
    uuid: string, localPubkey: Option<string>, decode: string -> Decoding, now: int)

  /** The first h-tag. */
  function ChannelFromTags(tags: seq<seq<string>>): string {
    if tags == [] then ""
    else if |tags[0]| >= 2 && tags[0][0] == "h" then tags[0][1]
    else ChannelFromTags(tags[1..])
  }

  /** Receipts carry no expiry; zero means none. */
  predicate Expired(m: Message, now: int) {
    match m
    case IntentMessage(i) => i.expiresAt != 0 && now > i.expiresAt
    case QuoteMessage(q) => q.expiresAt != 0 && now > q.expiresAt
    case _ => false
  }

  /** What the receive loop does with a new event. */
  datatype Verdict = Skip | Raise | Deliver(message: PeerMessage)

  /** The local filter and validate_received_event. Only a foreign event of the
      right kind and channel gets as far as the codec, which knows no approval
      type. */
  function Judge(c: Channel, e: RawEvent): Verdict {
    if c.localPubkey == Some(e.pubkey) then Skip
    else if e.kind != WIRE_KIND || ChannelFromTags(e.tags) != c.uuid then Skip
    else match c.decode(e.content)
      case Refuses => Skip
      case Escapes => Raise
      case Decodes(m) =>
        if Expired(m, c.now) || MessageAuthor(m) != Some(e.pubkey) then Skip
        else Deliver(PeerMessage(e.id, m, e.pubkey, e.createdAt))
  }

  /** A tag that can name a channel. */
  ghost predicate IsChannelTag(tag: seq<string>) { |tag| >= 2 && tag[0] == "h" }

  /** The first such tag names this channel; where there is none, the channel must
      have the empty name. */
  ghost predicate OnChannel(tags: seq<seq<string>>, uuid: string) {
    || (exists k :: 0 <= k < |tags| && IsChannelTag(tags[k]) && tags[k][1] == uuid && forall j :: 0 <= j < k ==> !IsChannelTag(tags[j]))
    || (uuid == "" && forall k :: 0 <= k < |tags| ==> !IsChannelTag(tags[k]))
  }

  lemma {:induction false} FirstTagNames(tags: seq<seq<string>>, uuid: string)
    ensures ChannelFromTags(tags) == uuid <==> OnChannel(tags, uuid)
  {
    if tags != [] && !IsChannelTag(tags[0]) {
      FirstTagNames(tags[1..], uuid);
      if OnChannel(tags, uuid) && !(uuid == "" && forall k :: 0 <= k < |tags| ==> !IsChannelTag(tags[k])) {
        var k :| 0 <= k < |tags| && IsChannelTag(tags[k]) && tags[k][1] == uuid && forall j :: 0 <= j < k ==> !IsChannelTag(tags[j]);
        assert tags[1..][k - 1] == tags[k];
        assert forall j :: 0 <= j < k - 1 ==> tags[1..][j] == tags[j + 1];
      }
      if OnChannel(tags[1..], uuid) { TagInFront(tags, uuid); }
    } else if tags != [] {
      assert IsChannelTag(tags[0]);
    }
  }

  lemma TagInFront(tags: seq<seq<string>>, uuid: string)
    requires tags != [] && !IsChannelTag(tags[0]) && OnChannel(tags[1..], uuid)
    ensures OnChannel(tags, uuid)
  {
    var rest := tags[1..];
    assert forall j :: 0 <= j < |rest| ==> rest[j] == tags[j + 1];
    if k :| 0 <= k < |rest| && IsChannelTag(rest[k]) && rest[k][1] == uuid && forall j :: 0 <= j < k ==> !IsChannelTag(rest[j]) {
      forall j | 0 <= j < k + 1 ensures !IsChannelTag(tags[j]) { assert j > 0 ==> tags[j] == rest[j - 1]; }
      assert tags[k + 1] == rest[k];
    } else {
      forall j | 0 <= j < |tags| ensures !IsChannelTag(tags[j]) { assert j > 0 ==> tags[j] == rest[j - 1]; }
    }
  }

  /** Published by whoever the message says: an intent by its sender, a quote and a
      receipt by the recipient of the payment. */
  ghost predicate SignedBy(m: Message, key: string) {
    || (m.IntentMessage? && m.intent.sender == key)
    || (m.QuoteMessage? && m.quote.recipient == key)
    || (m.ReceiptMessage? && m.receipt.recipient == key)
  }

  /** No deadline, or one that has not passed. */
  ghost predicate Unexpired(m: Message, now: int) {
    && (m.IntentMessage? ==> m.intent.expiresAt == 0 || now <= m.intent.expiresAt)
    && (m.QuoteMessage? ==> m.quote.expiresAt == 0 || now <= m.quote.expiresAt)
  }

  /** An event of another key, of the payment kind, on this channel. */
  ghost predicate Relevant(c: Channel, e: RawEvent) {
    c.localPubkey != Some(e.pubkey) && e.kind == 9 && OnChannel(e.tags, c.uuid)
  }

  ghost predicate Authentic(c: Channel, e: RawEvent) {
    && Relevant(c, e) && c.decode(e.content).Decodes?
    && Unexpired(c.decode(e.content).message, c.now) && SignedBy(c.decode(e.content).message, e.pubkey)
  }

  /** The message an event carries. */
  ghost function Carried(c: Channel, e: RawEvent): PeerMessage
    requires c.decode(e.content).Decodes?
  {
    PeerMessage(e.id, c.decode(e.content).message, e.pubkey, e.createdAt)
  }

  /** What is delivered was published on this channel, as a payment kind, under
      the key of the payment message's own author, unexpired, and not by
      ourselves, and everything of that kind is; what raises is what got to the
      codec and escaped it. */
  lemma OfferedIsAuthentic(c: Channel, e: RawEvent)
    ensures Judge(c, e).Deliver? <==> Authentic(c, e)
    ensures Authentic(c, e) ==> Judge(c, e) == Deliver(Carried(c, e))
    ensures Judge(c, e).Raise? <==> Relevant(c, e) && c.decode(e.content).Escapes?
  {
    hide OnChannel;
    FirstTagNames(e.tags, c.uuid);
  }

  // ------------------------------------------------------------------
  // One poll, and one big filter
  // ------------------------------------------------------------------

  function IdsIn(view: seq<RawEvent>): set<string> {
    set e | e in view :: e.id
  }

  /** The offers of a view: foreign valid events at the first occurrence of their
      id, in order, leaving out the ids in `start`. */
  function Filter(c: Channel, start: set<string>, view: seq<RawEvent>): seq<PeerMessage> {
    if view == [] then []
    else
      var front, last := view[..|view| - 1], view[|view| - 1];
      if last.id in start || last.id in IdsIn(front) || !Judge(c, last).Deliver? then Filter(c, start, front)
      else Filter(c, start, front) + [Judge(c, last).message]
  }

  /** What a receive collected, which ids it marked, and whether it raised: then
      its caller gets nothing, but the marks stay. */
  datatype Polled = Polled(messages: seq<PeerMessage>, seen: set<string>, raised: bool)

  /** The receive loop over `events`, with room for `room` more messages. */
  function Scan(c: Channel, seen: set<string>, events: seq<RawEvent>, room: Option<nat>): Polled
    decreases |events|
  {
    if events == [] then Polled([], seen, false)
    else if events[0].id in seen then Scan(c, seen, events[1..], room)
    else
      var seen' := seen + {events[0].id};
      match Judge(c, events[0])
      case Skip => Scan(c, seen', events[1..], room)
      case Raise => Polled([], seen', true)
      case Deliver(m) =>
        if room.Some? && room.value <= 1 then Polled([m], seen', false)
        else
          var rest := Scan(c, seen', events[1..], if room.None? then None else Some(room.value - 1));
          rest.(messages := [m] + rest.messages)
  }

  /** _receive_peer_messages without the cursor file; None is ValueError. */
  function Poll(c: Channel, seen: set<string>, view: seq<RawEvent>, limit: Option<int>): Option<Polled> {
    if limit.Some? && limit.value < 0 then None
    else if limit == Some(0) then Some(Polled([], seen, false))
    else Some(Scan(c, seen, view, if limit.None? then None else Some(limit.value)))
  }

  /** Event `k` is the first with its id, beyond the ids in `seen`. */
  predicate New(seen: set<string>, view: seq<RawEvent>, k: nat)
    requires k < |view|
  {
    view[k].id !in seen && view[k].id !in IdsIn(view[..k])
  }

  /** The first new event that makes the codec raise is `k`, and the limit is not
      met before it. */
  ghost predicate Blocks(c: Channel, seen: set<string>, view: seq<RawEvent>, limit: Option<int>, k: nat) {
    && k < |view| && New(seen, view, k) && Judge(c, view[k]).Raise?
    && (forall j :: 0 <= j < k && New(seen, view, j) ==> !Judge(c, view[j]).Raise?)
    && (limit.Some? ==> |Filter(c, seen, view[..k])| < limit.value)
  }

  /** A receive call that raises after it has collected something. */
  ghost predicate Loses(c: Channel, seen: set<string>, view: seq<RawEvent>, limit: Option<int>) {
    exists k: nat :: Blocks(c, seen, view, limit, k) && Filter(c, seen, view[..k]) != []
  }

  lemma {:induction false} FilterCons(c: Channel, start: set<string>, e: RawEvent, rest: seq<RawEvent>)
    ensures Filter(c, start, [e] + rest) ==
              (if e.id in start || !Judge(c, e).Deliver? then [] else [Judge(c, e).message]) + Filter(c, start + {e.id}, rest)
    decreases |rest|
  {
    if rest == [] {
      assert [e] + rest == [e];
      assert [e][..0] == [];
    } else {
      var front, last := rest[..|rest| - 1], rest[|rest| - 1];
      assert ([e] + rest)[..|[e] + rest| - 1] == [e] + front;
      FilterCons(c, start, e, front);
      assert last.id in IdsIn([e] + front) <==> last.id == e.id || last.id in IdsIn(front) by {
        if last.id in IdsIn(front) { var x :| x in front && x.id == last.id; assert x in [e] + front; }
        if last.id == e.id { assert ([e] + front)[0] in [e] + front; }
      }
    }
  }

  lemma IdsCons(e: RawEvent, rest: seq<RawEvent>)
    ensures IdsIn([e] + rest) == {e.id} + IdsIn(rest)
  {
    assert ([e] + rest)[0] == e;
  }

  lemma NoIds()
    ensures IdsIn([]) == {}
  {
  }

  /** The first occurrences after `e`. */
  lemma NewCons(seen: set<string>, e: RawEvent, rest: seq<RawEvent>, j: nat)
    requires j < |rest|
    ensures New(seen, [e] + rest, j + 1) <==> New(seen + {e.id}, rest, j)
  {
    assert ([e] + rest)[..j + 1] == [e] + rest[..j];
    IdsCons(e, rest[..j]);
  }

  /** What a scan that looked at the first `n` events did: it collected what the
      filter makes of them, marked exactly their ids, raised at the last of them
      or passed no new event that raises, and else stopped early only when the
      room was used. */
  ghost predicate Scanned(c: Channel, seen: set<string>, events: seq<RawEvent>, room: Option<nat>, p: Polled, n: nat) {
    && n <= |events|
    && p.messages == Filter(c, seen, events[..n]) && p.seen == seen + IdsIn(events[..n])
    && (forall j :: 0 <= j < n && New(seen, events, j) && Judge(c, events[j]).Raise? ==> p.raised && j == n - 1)
    && (p.raised ==> n >= 1 && New(seen, events, n - 1) && Judge(c, events[n - 1]).Raise?)
    && (room.Some? ==> |p.messages| <= room.value)
    && (p.raised && room.Some? ==> |p.messages| < room.value)
    && (!p.raised && (room.None? || |p.messages| < room.value) ==> n == |events|)
  }

  lemma NewShifts(seen: set<string>, e: RawEvent, rest: seq<RawEvent>)
    ensures forall j :: 0 <= j < |rest| + 1 ==>
              (New(seen, [e] + rest, j) <==> if j == 0 then e.id !in seen else New(seen + {e.id}, rest, j - 1))
  {
    var events := [e] + rest;
    forall j | 0 <= j < |events| ensures New(seen, events, j) <==> if j == 0 then e.id !in seen else New(seen + {e.id}, rest, j - 1) {
      if j > 0 { NewCons(seen, e, rest, j - 1); } else { assert events[..0] == []; NoIds(); }
    }
  }

  /** A scan goes on after one event `e`. */
  lemma ScanOn(c: Channel, seen: set<string>, e: RawEvent, rest: seq<RawEvent>, room: Option<nat>, left: Option<nat>, p: Polled, m: nat)
    requires Scanned(c, seen + {e.id}, rest, left, p, m)
    requires e.id in seen || !Judge(c, e).Raise?
    requires var got := e.id !in seen && Judge(c, e).Deliver?;
             left == if got && room.Some? then Some(if room.value > 0 then room.value - 1 else 0) else room
    requires room.Some? ==> room.value >= 1
    ensures var got := if e.id !in seen && Judge(c, e).Deliver? then [Judge(c, e).message] else [];
            Scanned(c, seen, [e] + rest, room, p.(messages := got + p.messages), m + 1)
  {
    hide Judge, New, IdsIn, Filter;
    var events := [e] + rest;
    assert events[..m + 1] == [e] + rest[..m];
    FilterCons(c, seen, e, rest[..m]);
    IdsCons(e, rest[..m]);
    assert (seen + {e.id}) + IdsIn(rest[..m]) == seen + ({e.id} + IdsIn(rest[..m]));
    NewShifts(seen, e, rest);
    forall j | 0 <= j < m + 1 && New(seen, events, j) && Judge(c, events[j]).Raise?
      ensures p.raised && j == m
    {
      assert j > 0 && New(seen + {e.id}, rest, j - 1) && rest[j - 1] == events[j];
    }
  }

  lemma ScanEnds(c: Channel, seen: set<string>, e: RawEvent, rest: seq<RawEvent>, room: Option<nat>, p: Polled)
    requires e.id !in seen && p.seen == seen + {e.id} && (room.Some? ==> room.value >= 1)
    requires (Judge(c, e).Raise? && p.raised && p.messages == [])
             || (Judge(c, e).Deliver? && !p.raised && p.messages == [Judge(c, e).message] && room == Some(1))
    ensures Scanned(c, seen, [e] + rest, room, p, 1)
  {
    hide Judge;
    var events := [e] + rest;
    assert events[..1] == [e] + [] && events[..0] == [];
    FilterCons(c, seen, e, []);
    IdsCons(e, []);
    NoIds();
  }

  lemma {:induction false} ScanIsFilter(c: Channel, seen: set<string>, events: seq<RawEvent>, room: Option<nat>) returns (n: nat)
    requires room.Some? ==> room.value >= 1
    ensures Scanned(c, seen, events, room, Scan(c, seen, events, room), n)
    decreases |events|
  {
    hide Judge, IdsIn;
    if events == [] { NoIds(); return 0; }
    var e, rest := events[0], events[1..];
    assert events == [e] + rest;
    var seen' := seen + {e.id};
    if e.id in seen { assert seen' == seen; }
    if e.id !in seen && (Judge(c, e).Raise? || (Judge(c, e).Deliver? && room == Some(1))) {
      n := 1;
      ScanEnds(c, seen, e, rest, room, Scan(c, seen, events, room));
    } else {
      var left := if e.id in seen || Judge(c, e).Skip? || room.None? then room else Some(room.value - 1);
      var m := ScanIsFilter(c, seen', rest, left);
      n := m + 1;
      ScanOn(c, seen, e, rest, room, left, Scan(c, seen', rest, left), m);
    }
  }

  /** A receive raises exactly when some event blocks it; then it has marked
      everything up to that event and collected the offers before it. */
  lemma RaisesExactly(c: Channel, seen: set<string>, view: seq<RawEvent>, limit: Option<int>)
    requires limit.Some? ==> limit.value > 0
    ensures var p := Poll(c, seen, view, limit).value;
            && (p.raised <==> exists k: nat :: Blocks(c, seen, view, limit, k))
            && (forall k: nat :: Blocks(c, seen, view, limit, k) ==>
                  p.messages == Filter(c, seen, view[..k]) && p.seen == seen + IdsIn(view[..k + 1]))
            && (p.raised && p.messages != [] <==> Loses(c, seen, view, limit))
  {
    hide Judge, IdsIn;
    var p := Poll(c, seen, view, limit).value;
    var n := ScanIsFilter(c, seen, view, if limit.None? then None else Some(limit.value));
    if p.raised {
      var k := n - 1;
      assert view[..n][..k] == view[..k];
      assert Blocks(c, seen, view, limit, k);
    }
    forall k: nat | Blocks(c, seen, view, limit, k)
      ensures p.raised && k == n - 1 && p.messages == Filter(c, seen, view[..k])
    {
      if n <= k { FilterGrows(c, seen, view, n, k); }
      assert view[..n][..n - 1] == view[..n - 1];
    }
  }

  lemma FilterGrows(c: Channel, start: set<string>, view: seq<RawEvent>, n: nat, k: nat)
    requires n <= k <= |view|
    ensures |Filter(c, start, view[..n])| <= |Filter(c, start, view[..k])|
  {
    assert view[..k] == view[..n] + view[n..k];
    FilterSplit(c, start, view[..n], view[n..k]);
  }

  /** Filtering in two parts, the second knowing the ids of the first. */
  lemma {:induction false} FilterSplit(c: Channel, start: set<string>, a: seq<RawEvent>, b: seq<RawEvent>)
    ensures Filter(c, start, a + b) == Filter(c, start, a) + Filter(c, start + IdsIn(a), b)
    decreases |b|
  {
    if b == [] {
      assert a + b == a;
    } else {
      var front, last := b[..|b| - 1], b[|b| - 1];
      assert (a + b)[..|a + b| - 1] == a + front;
      FilterSplit(c, start, a, front);
      assert last.id in IdsIn(a + front) <==> last.id in IdsIn(a) || last.id in IdsIn(front) by {
        IdsConcat(a, front);
      }
    }
  }

  lemma IdsConcat(a: seq<RawEvent>, b: seq<RawEvent>)
    ensures IdsIn(a + b) == IdsIn(a) + IdsIn(b)
  {
    forall id | id in IdsIn(a) + IdsIn(b) ensures id in IdsIn(a + b) {
      if id in IdsIn(a) { var e :| e in a && e.id == id; assert e in a + b; }
      else { var e :| e in b && e.id == id; assert e in a + b; }
    }
  }

  /** Events whose ids are all known add nothing. */
  lemma {:induction false} FilterKnown(c: Channel, start: set<string>, view: seq<RawEvent>)
    requires IdsIn(view) <= start
    ensures Filter(c, start, view) == []
  {
    if view != [] {
      var front := view[..|view| - 1];
      assert view[|view| - 1].id in IdsIn(view);
      assert forall e :: e in front ==> e in view;
      FilterKnown(c, start, front);
    }
  }

  /** How many events of a view are new and authentic. */
  ghost function Offered(c: Channel, start: set<string>, view: seq<RawEvent>): nat {
    if view == [] then 0
    else Offered(c, start, view[..|view| - 1]) + if New(start, view, |view| - 1) && Authentic(c, view[|view| - 1]) then 1 else 0
  }

  /** Each new authentic event has its own place among the offers, in the order of the
      view, and there is nothing else. */
  lemma {:induction false} OfferedInPlace(c: Channel, start: set<string>, view: seq<RawEvent>, k: nat)
    requires k < |view| && New(start, view, k) && Authentic(c, view[k])
    ensures |Filter(c, start, view)| == Offered(c, start, view)
    ensures |Filter(c, start, view[..k])| == Offered(c, start, view[..k]) < Offered(c, start, view)
    ensures Filter(c, start, view)[Offered(c, start, view[..k])] == Carried(c, view[k])
    decreases |view|
  {
    hide Authentic, Judge, Carried, IdsIn;
    var front, last := view[..|view| - 1], view[|view| - 1];
    OfferedIsAuthentic(c, last);
    OfferedCount(c, start, front);
    if k < |front| {
      assert front[..k] == view[..k];
      OfferedInPlace(c, start, front, k);
    } else {
      assert view[..k] == front;
    }
  }

  lemma {:induction false} OfferedCount(c: Channel, start: set<string>, view: seq<RawEvent>)
    ensures |Filter(c, start, view)| == Offered(c, start, view)
  {
    hide Authentic, Judge, IdsIn;
    if view != [] {
      OfferedCount(c, start, view[..|view| - 1]);
      OfferedIsAuthentic(c, view[|view| - 1]);
    }
  }

  /** An unlimited receive that does not raise returns exactly the new authentic events
      of the view, each once and in order, and marks all of it as seen; it raises
      exactly when a new relevant event escapes the codec. */
  lemma ReceivedExactly(c: Channel, seen: set<string>, view: seq<RawEvent>)
    ensures var p := Poll(c, seen, view, None).value;
            && (p.raised <==> exists k: nat :: k < |view| && New(seen, view, k)
                                && Relevant(c, view[k]) && c.decode(view[k].content).Escapes?)
            && (!p.raised ==>
                  && p.seen == seen + IdsIn(view) && |p.messages| == Offered(c, seen, view)
                  && forall k: nat :: k < |view| && New(seen, view, k) && Authentic(c, view[k]) ==>
                       && Offered(c, seen, view[..k]) < |p.messages|
                       && p.messages[Offered(c, seen, view[..k])] == Carried(c, view[k]))
  {
    hide Relevant, Unexpired, SignedBy, Judge, New, Filter, Offered, Carried, IdsIn;
    var n := ScanIsFilter(c, seen, view, None);
    assert view[..|view|] == view;
    forall k: nat | k < |view| ensures Judge(c, view[k]).Raise? <==> Relevant(c, view[k]) && c.decode(view[k].content).Escapes? {
      OfferedIsAuthentic(c, view[k]);
    }
    OfferedCount(c, seen, view);
    forall k: nat | k < |view| && New(seen, view, k) && Authentic(c, view[k])
      ensures Offered(c, seen, view[..k]) < Offered(c, seen, view)
      ensures Filter(c, seen, view)[Offered(c, seen, view[..k])] == Carried(c, view[k])
    {
      OfferedInPlace(c, seen, view, k);
    }
  }

  /** A limited receive that does not raise returns the first offers of the view, as
      many as the limit allows; only a negative limit is refused, and a limit of zero
      touches nothing. */
  lemma TakesTheFirst(c: Channel, seen: set<string>, view: seq<RawEvent>, limit: int)
    ensures Poll(c, seen, view, Some(limit)).None? <==> limit < 0
    ensures limit == 0 ==> Poll(c, seen, view, Some(limit)) == Some(Polled([], seen, false))
    ensures limit > 0 && !Poll(c, seen, view, Some(limit)).value.raised ==>
              var p, all := Poll(c, seen, view, Some(limit)).value, Filter(c, seen, view);
              p.messages <= all && |p.messages| == if limit < |all| then limit else |all|
  {
    hide Judge, Filter, New, IdsIn;
    if limit > 0 {
      var n := ScanIsFilter(c, seen, view, Some(limit));
      assert view == view[..n] + view[n..];
      FilterSplit(c, seen, view[..n], view[n..]);
      assert view[..|view|] == view;
    }
  }

  // ------------------------------------------------------------------
  // Any sequence of polls
  // ------------------------------------------------------------------

  /** One receive call: what the relay shows at that time, and the limit. */
  datatype Call = Call(view: seq<RawEvent>, limit: Option<int>)

  /** The relay only appends. */
  ghost predicate AppendOnly(calls: seq<Call>) {
    forall i, j :: 0 <= i <= j < |calls| ==> calls[i].view <= calls[j].view
  }

  /** What the calls returned, which ids are marked, and what raising calls had
      collected. A negative limit is refused and does nothing. */
  datatype History = History(messages: seq<PeerMessage>, seen: set<string>, lost: seq<PeerMessage>)

  function Receives(c: Channel, start: set<string>, calls: seq<Call>): History {
    if calls == [] then History([], start, [])
    else
      var before := Receives(c, start, calls[..|calls| - 1]);
      var last := calls[|calls| - 1];
      match Poll(c, before.seen, last.view, last.limit)
      case None => before
      case Some(p) =>
        if p.raised then History(before.messages, p.seen, before.lost + p.messages)
        else History(before.messages + p.messages, p.seen, before.lost)
  }

  /** The last call returned with room left: no limit, or fewer than the limit. */
  predicate Drained(c: Channel, start: set<string>, calls: seq<Call>)
    requires calls != []
  {
    var last := calls[|calls| - 1];
    match Poll(c, Receives(c, start, calls[..|calls| - 1]).seen, last.view, last.limit)
    case None => false
    case Some(p) => !p.raised && (last.limit.None? || |p.messages| < last.limit.value)
  }

  /** No call raises after it has collected something. */
  ghost predicate Lossless(c: Channel, start: set<string>, calls: seq<Call>) {
    forall i :: 0 <= i < |calls| ==> !Loses(c, Receives(c, start, calls[..i]).seen, calls[i].view, calls[i].limit)
  }

  lemma {:induction false} PollContinues(c: Channel, start: set<string>, k: nat, view: seq<RawEvent>, limit: Option<int>) returns (n: nat)
    requires k <= |view| && (limit.Some? ==> limit.value > 0)
    ensures k <= n <= |view|
    ensures var p := Poll(c, start + IdsIn(view[..k]), view, limit).value;
            && Filter(c, start, view[..k]) + p.messages == Filter(c, start, view[..n])
            && p.seen == start + IdsIn(view[..n])
            && (!p.raised && (limit.None? || |p.messages| < limit.value) ==> n == |view|)
  {
    hide Judge;
    var seen := start + IdsIn(view[..k]);
    n := ScanIsFilter(c, seen, view, if limit.None? then None else Some(limit.value));
    if n < k { NothingNew(c, seen, view, n, k); }
    assert view[..n] == view[..k] + view[k..n];
    FilterAgain(c, start, view[..k], view[k..n]);
  }

  /** An early stop within the known part is impossible: nothing is offered there
      and nothing new can raise. */
  lemma NothingNew(c: Channel, seen: set<string>, view: seq<RawEvent>, n: nat, k: nat)
    requires n <= k <= |view| && IdsIn(view[..k]) <= seen
    ensures Filter(c, seen, view[..n]) == []
    ensures n > 0 ==> !New(seen, view, n - 1)
  {
    assert forall e :: e in view[..n] ==> e in view[..k];
    FilterKnown(c, seen, view[..n]);
    if n > 0 { assert view[..k][n - 1] == view[n - 1]; }
  }

  /** Scanning again from the start, knowing the ids of `a`, adds what a filter
      over everything adds after `a`. */
  lemma FilterAgain(c: Channel, start: set<string>, a: seq<RawEvent>, b: seq<RawEvent>)
    ensures Filter(c, start, a) + Filter(c, start + IdsIn(a), a + b) == Filter(c, start, a + b)
    ensures (start + IdsIn(a)) + IdsIn(a + b) == start + IdsIn(a + b)
  {
    var seen := start + IdsIn(a);
    FilterSplit(c, start, a, b);
    FilterSplit(c, seen, a, b);
    FilterKnown(c, seen, a);
    assert seen + IdsIn(a) == seen;
    IdsConcat(a, b);
  }

  /** One more call after a history `h` that marked the first `k` events. */
  ghost predicate Accounts(c: Channel, start: set<string>, view: seq<RawEvent>, n: nat, h: History) {
    && n <= |view| && h.seen == start + IdsIn(view[..n])
    && multiset(h.messages) + multiset(h.lost) == multiset(Filter(c, start, view[..n]))
    && (h.lost == [] ==> h.messages == Filter(c, start, view[..n]))
  }

  lemma AccountsNone(c: Channel, start: set<string>, view: seq<RawEvent>)
    ensures Accounts(c, start, view, 0, History([], start, []))
  {
    assert start + IdsIn(view[..0]) == start;
  }

  lemma CallAccounts(c: Channel, start: set<string>, calls: seq<Call>, k: nat) returns (n: nat)
    requires calls != []
    requires var last := calls[|calls| - 1];
             && (last.limit.Some? ==> last.limit.value > 0)
             && Accounts(c, start, last.view, k, Receives(c, start, calls[..|calls| - 1]))
    ensures Accounts(c, start, calls[|calls| - 1].view, n, Receives(c, start, calls))
    ensures Drained(c, start, calls) ==> n == |calls[|calls| - 1].view|
  {
    hide IdsIn;
    var before, last := Receives(c, start, calls[..|calls| - 1]), calls[|calls| - 1];
    n := PollContinues(c, start, k, last.view, last.limit);
    var p := Poll(c, before.seen, last.view, last.limit).value;
    assert multiset(before.messages + p.messages) == multiset(before.messages) + multiset(p.messages);
    assert multiset(before.lost + p.messages) == multiset(before.lost) + multiset(p.messages);
    assert multiset(Filter(c, start, last.view[..k]) + p.messages) == multiset(Filter(c, start, last.view[..k])) + multiset(p.messages);
    if p.raised && before.lost + p.messages == [] { assert p.messages == [] && before.lost == []; }
  }

  /** Something is lost exactly when some call raises after collecting. */
  lemma {:induction false} LostExactly(c: Channel, start: set<string>, calls: seq<Call>)
    ensures Receives(c, start, calls).lost == [] <==> Lossless(c, start, calls)
  {
    hide Loses, Filter, Scan;
    if calls != [] {
      var front, last := calls[..|calls| - 1], calls[|calls| - 1];
      LostExactly(c, start, front);
      LosslessSnoc(c, start, calls);
      var before := Receives(c, start, front);
      if last.limit.None? || last.limit.value > 0 {
        RaisesExactly(c, before.seen, last.view, last.limit);
      } else {
        RefusedLosesNothing(c, before.seen, last.view, last.limit);
      }
    }
  }

  lemma LosslessSnoc(c: Channel, start: set<string>, calls: seq<Call>)
    requires calls != []
    ensures var front, last := calls[..|calls| - 1], calls[|calls| - 1];
            Lossless(c, start, calls) <==>
              Lossless(c, start, front) && !Loses(c, Receives(c, start, front).seen, last.view, last.limit)
  {
    hide Loses, Receives;
    var front := calls[..|calls| - 1];
    assert forall i :: 0 <= i < |front| ==> front[..i] == calls[..i] && front[i] == calls[i];
  }

  lemma RefusedLosesNothing(c: Channel, seen: set<string>, view: seq<RawEvent>, limit: Option<int>)
    requires limit.Some? && limit.value <= 0
    ensures !Loses(c, seen, view, limit)
  {
  }

  /** Limited polling is one big filter, exactly as long as nothing is lost. Over
      an append-only view, whatever the limits, the marked ids are those of a
      prefix of the view, and what was returned and what was lost are together the
      filter of that prefix, of the whole view once a call returned with room left.
      What was returned is that filter, in order, if and only if no call raised
      after it had collected something. */
  lemma {:induction false} LimitedPollingIsOneFilter(c: Channel, start: set<string>, calls: seq<Call>) returns (n: nat)
    requires calls != [] && AppendOnly(calls)
    ensures var view, h := calls[|calls| - 1].view, Receives(c, start, calls);
            && Accounts(c, start, view, n, h)
            && (h.messages == Filter(c, start, view[..n]) <==> Lossless(c, start, calls))
            && (Drained(c, start, calls) ==> n == |view|)
  {
    hide Filter, IdsIn, Lossless, Poll, Accounts;
    var front, last := calls[..|calls| - 1], calls[|calls| - 1];
    var k: nat := 0;
    AccountsNone(c, start, last.view);
    if front != [] {
      assert AppendOnly(front);
      k := LimitedPollingIsOneFilter(c, start, front);
      assert calls[|front| - 1].view <= last.view;
      AccountsOn(c, start, front[|front| - 1].view, last.view, k, Receives(c, start, front));
    }
    n := k;
    if last.limit.None? || last.limit.value > 0 {
      n := CallAccounts(c, start, calls, k);
    } else {
      IdleCall(c, start, calls);
    }
    LostExactly(c, start, calls);
    AccountsDecides(c, start, last.view, n, Receives(c, start, calls));
  }

  lemma IdleCall(c: Channel, start: set<string>, calls: seq<Call>)
    requires calls != [] && calls[|calls| - 1].limit.Some? && calls[|calls| - 1].limit.value <= 0
    ensures Receives(c, start, calls) == Receives(c, start, calls[..|calls| - 1]) && !Drained(c, start, calls)
  {
  }

  lemma AccountsOn(c: Channel, start: set<string>, a: seq<RawEvent>, b: seq<RawEvent>, n: nat, h: History)
    requires Accounts(c, start, a, n, h) && a <= b
    ensures Accounts(c, start, b, n, h)
  {
    assert a[..n] == b[..n];
  }

  lemma AccountsDecides(c: Channel, start: set<string>, view: seq<RawEvent>, n: nat, h: History)
    requires Accounts(c, start, view, n, h)
    ensures h.messages == Filter(c, start, view[..n]) <==> h.lost == []
  {
    if h.messages == Filter(c, start, view[..n]) {
      assert |multiset(h.messages)| + |multiset(h.lost)| == |multiset(h.messages)|;
    }
  }

  lemma {:induction false} FilterIds(c: Channel, start: set<string>, view: seq<RawEvent>)
    ensures forall m :: m in Filter(c, start, view) ==> m.messageId in IdsIn(view) && m.messageId !in start
    ensures forall i, j :: 0 <= i < j < |Filter(c, start, view)| ==>
              Filter(c, start, view)[i].messageId != Filter(c, start, view)[j].messageId
  {
    if view != [] {
      var front, last := view[..|view| - 1], view[|view| - 1];
      FilterIds(c, start, front);
      assert view == front + [last];
      IdsConcat(front, [last]);
      assert last.id in IdsIn([last]);
      var f := Filter(c, start, front);
      forall i | 0 <= i < |f| ensures f[i].messageId in IdsIn(front) {
        assert f[i] in f;
      }
    }
  }

  /** No event id is ever returned twice, nor one the cursor already held,
      whatever the relay shows from call to call. */
  lemma {:induction false} NeverTwice(c: Channel, start: set<string>, calls: seq<Call>)
    ensures var h := Receives(c, start, calls);
            && start <= h.seen
            && (forall i, j :: 0 <= i < j < |h.messages| ==> h.messages[i].messageId != h.messages[j].messageId)
            && (forall m :: m in h.messages ==> m.messageId !in start && m.messageId in h.seen)
  {
    if calls != [] {
      var front, last := calls[..|calls| - 1], calls[|calls| - 1];
      NeverTwice(c, start, front);
      var before := Receives(c, start, front);
      if last.limit.None? || last.limit.value > 0 {
        var n := ScanIsFilter(c, before.seen, last.view, if last.limit.None? then None else Some(last.limit.value));
        var p := Poll(c, before.seen, last.view, last.limit).value;
        FilterIds(c, before.seen, last.view[..n]);
        forall i | 0 <= i < |p.messages| ensures p.messages[i].messageId !in before.seen {
          assert p.messages[i] in p.messages;
        }
        forall i | 0 <= i < |before.messages| ensures before.messages[i].messageId in before.seen {
          assert before.messages[i] in before.messages;
        }
      }
    }
  }

  // ------------------------------------------------------------------
  // Losing a message without any kill
  // ------------------------------------------------------------------

  const PAID := ReceiptMessage(Receipt("i", "q", "bob", "ref", 1000, 1, Lightning))

  /** A codec that decodes one content and is escaped by another. */
  const SPOILED := Channel("room", None, Spoil, 0)

  function Spoil(content: string): Decoding {
    if content == "v" then Decodes(PAID) else if content == "p" then Escapes else Refuses
  }

  const GOOD := RawEvent("1", "bob", 9, "v", [["h", "room"]], 0)
  const POISON := RawEvent("2", "eve", 9, "p", [["h", "room"]], 0)

  /** A valid event followed by one that escapes the codec: the first receive
      raises, the second returns nothing with room left, and the message is gone. */
  lemma PoisonedPoll()
    ensures var calls := [Call([GOOD, POISON], None), Call([GOOD, POISON], None)];
            && AppendOnly(calls) && Drained(SPOILED, {}, calls)
            && |Filter(SPOILED, {}, [GOOD, POISON])| == 1
            && Receives(SPOILED, {}, calls).messages == []
  {
    var view := [GOOD, POISON];
    var m := Judge(SPOILED, GOOD).message;
    assert "p"[0] != "v"[0];
    assert Spoil("p") == Escapes;
    assert view[1..] == [POISON] && view[1..][1..] == [] && view[..1] == [GOOD] && [GOOD][..0] == [];
    assert Judge(SPOILED, GOOD) == Deliver(m) && Judge(SPOILED, POISON) == Raise;
    assert Scan(SPOILED, {"1"}, [POISON], None) == Polled([], {"1", "2"}, true);
    assert Scan(SPOILED, {}, view, None) == Polled([m], {"1", "2"}, true);
    assert Scan(SPOILED, {"1", "2"}, [POISON], None) == Scan(SPOILED, {"1", "2"}, [], None);
    assert Scan(SPOILED, {"1", "2"}, view, None) == Polled([], {"1", "2"}, false);
    var call := Call(view, None);
    var calls := [call, call];
    assert calls[..1] == [call] && [call][..0] == [];
    assert Receives(SPOILED, {}, []) == History([], {}, []);
    assert Receives(SPOILED, {}, [call]) == History([], {"1", "2"}, [m]);
    assert Filter(SPOILED, {}, [GOOD]) == [m];
    assert GOOD in [GOOD];
  }

  // ------------------------------------------------------------------
  // The cursor file and the transport
  // ------------------------------------------------------------------

  /** What a cursor file can hold: nothing, bytes that are no UTF-8 text, text that
      is no JSON, or a JSON document. */
  datatype CursorFile = Missing | NotText | NotJson | Document(json: Json)

  /** The strings among the items of a list. */
  function Strings(items: seq<Json>): set<string> {
    set j | j in items && j.JStr? :: j.text
  }

  /** The ids a cursor file gives; None where loading it raises. What is no JSON is
      caught; bytes that are no text are not, nor is asking a document that is no
      object for its ids. */
  function LoadCursor(f: CursorFile): Option<set<string>> {
    match f
    case Missing => Some({})
    case NotText => None
    case NotJson => Some({})
    case Document(json) =>
      if !json.JObj? then None
      else if "event_ids" !in json.fields || !json.fields["event_ids"].JList? then Some({})
      else Some(Strings(json.fields["event_ids"].items))
  }

  /** Loading raises exactly on a file that is no text or a document that is no object,
      and else gives exactly the texts listed under event_ids. */
  lemma LoadsExactly(f: CursorFile)
    ensures LoadCursor(f).None? <==> f == NotText || (f.Document? && !f.json.JObj?)
    ensures LoadCursor(f).Some? ==> forall id :: id in LoadCursor(f).value <==>
              && f.Document? && "event_ids" in f.json.fields && f.json.fields["event_ids"].JList?
              && JStr(id) in f.json.fields["event_ids"].items
  {
  }

  /** The document that lists the given ids. */
  function CursorOf(ids: seq<string>): CursorFile {
    Document(JObj(map["event_ids" := JList(seq(|ids|, i requires 0 <= i < |ids| => JStr(ids[i])))]))
  }

  /** Written from the ids in some order, keeping the last ones. */
  ghost predicate SavedFrom(f: CursorFile, ids: seq<string>, seen: set<string>) {
    && f == CursorOf(ids) && (forall id :: id in ids ==> id in seen)
    && |ids| == (if |seen| <= CURSOR_CAPACITY then |seen| else CURSOR_CAPACITY)
    && (forall i, j :: 0 <= i < j < |ids| ==> ids[i] != ids[j])
  }

  ghost predicate Saves(f: CursorFile, seen: set<string>) {
    exists ids :: SavedFrom(f, ids, seen)
  }

  lemma CursorRoundtrip(ids: seq<string>)
    ensures LoadCursor(CursorOf(ids)) == Some(set id | id in ids)
  {
    var items := CursorOf(ids).json.fields["event_ids"].items;
    forall id ensures id in Strings(items) <==> id in ids {
      if id in ids {
        var i :| 0 <= i < |ids| && ids[i] == id;
        assert items[i] == JStr(id);
      }
      if id in Strings(items) {
        var i :| 0 <= i < |items| && items[i] == JStr(id);
        assert ids[i] == id;
      }
    }
    assert Strings(items) == (set id | id in ids);
  }

  lemma {:induction false} DistinctCount(ids: seq<string>)
    requires forall i, j :: 0 <= i < j < |ids| ==> ids[i] != ids[j]
    ensures |(set id | id in ids)| == |ids|
  {
    if ids != [] {
      var front, last := ids[..|ids| - 1], ids[|ids| - 1];
      DistinctCount(front);
      assert (set id | id in ids) == (set id | id in front) + {last};
    }
  }

  lemma SubsetOfEqualSize(a: set<string>, b: set<string>)
    requires a <= b && |a| == |b|
    ensures a == b
  {
    if a != b {
      var x :| x in b && x !in a;
      assert |b - {x}| == |b| - 1;
      SubsetSize(a, b - {x});
    }
  }

  lemma {:induction false} SubsetSize(a: set<string>, b: set<string>)
    requires a <= b
    ensures |a| <= |b|
    decreases |a|
  {
    if a != {} {
      var x :| x in a;
      SubsetSize(a - {x}, b - {x});
    }
  }

  /** Reloading a saved cursor gives ids that were seen: all of them up to the
      capacity, and never a made-up one. */
  lemma ReloadedCursor(f: CursorFile, seen: set<string>)
    requires Saves(f, seen)
    ensures LoadCursor(f).Some? && LoadCursor(f).value <= seen
    ensures LoadCursor(f).value == seen <==> |seen| <= CURSOR_CAPACITY
  {
    var ids :| SavedFrom(f, ids, seen);
    CursorRoundtrip(ids);
    DistinctCount(ids);
    if |seen| <= CURSOR_CAPACITY { SubsetOfEqualSize(LoadCursor(f).value, seen); }
  }

  /** How a receive ends: ValueError for the limit, an exception nobody catches, or
      messages. */
  datatype Reception = LimitRefused | CodecRaised | Received(messages: seq<PeerMessage>)

  class BuzzTransport {
    const channel: Channel
    const persistent: bool          // a cursor path was configured
    var seen: set<string>
    var cursor: CursorFile

    constructor (channel: Channel, persistent: bool, file: CursorFile, loaded: set<string>)
      ensures this.channel == channel && this.persistent == persistent && cursor == file && seen == loaded
    {
      this.channel, this.persistent, cursor, seen := channel, persistent, file, loaded;
    }

    /** Creating a transport loads its cursor; None where that raises. */
    static method Open(channel: Channel, persistent: bool, file: CursorFile) returns (t: Option<BuzzTransport>)
      ensures t.None? <==> persistent && (file.NotText? || (file.Document? && !file.json.JObj?))
      ensures t.Some? ==>
                && fresh(t.value) && t.value.channel == channel && t.value.persistent == persistent && t.value.cursor == file
                && Some(t.value.seen) == LoadCursor(if persistent then file else Missing)
    {
      var loaded := LoadCursor(if persistent then file else Missing);
      if loaded.None? { return None; }
      var transport := new BuzzTransport(channel, persistent, file, loaded.value);
      t := Some(transport);
    }

    /** _save_cursor */
    method SaveCursor()
      modifies this`cursor
      ensures if persistent then Saves(cursor, seen) else cursor == old(cursor)
    {
      if !persistent { return; }
      var ids: seq<string> := [];
      var left := seen;
      while left != {}
        invariant left <= seen && |ids| + |left| == |seen|
        invariant forall id :: id in ids ==> id in seen && id !in left
        invariant forall i, j :: 0 <= i < j < |ids| ==> ids[i] != ids[j]
        decreases left
      {
        var id :| id in left;
        ids, left := ids + [id], left - {id};
      }
      ids := if |ids| > CURSOR_CAPACITY then ids[|ids| - CURSOR_CAPACITY..] else ids;
      cursor := CursorOf(ids);
      assert SavedFrom(cursor, ids, seen);
    }

    /** _receive_peer_messages on the relay's current view. The cursor file is
        rewritten exactly when the call returns and an id was added; a call that
        raises keeps its marks in memory only. */
    method ReceivePeerMessages(view: seq<RawEvent>, limit: Option<int>) returns (received: Reception)
      modifies this
      ensures received.LimitRefused? <==> limit.Some? && limit.value < 0
      ensures match Poll(channel, old(seen), view, limit)
              case None => received == LimitRefused && seen == old(seen)
              case Some(p) => received == (if p.raised then CodecRaised else Received(p.messages)) && seen == p.seen
      ensures if seen == old(seen) || !persistent || received.CodecRaised? then cursor == old(cursor) else Saves(cursor, seen)
    {
      hide Judge, Saves;
      if limit.Some? && limit.value < 0 { return LimitRefused; }
      if limit == Some(0) { return Received([]); }
      var messages: seq<PeerMessage> := [];
      var changed := false;
      ghost var start, room := seen, if limit.None? then None else Some(limit.value);
      for i := 0 to |view|
        invariant limit.Some? ==> |messages| < limit.value
        invariant start <= seen && (changed <==> seen != start)
        invariant var rest := Scan(channel, seen, view[i..], if limit.None? then None else Some(limit.value - |messages|));
                  Scan(channel, start, view, room) == rest.(messages := messages + rest.messages)
        invariant cursor == old(cursor)
      {
        var event := view[i];
        assert view[i..][0] == event && view[i..][1..] == view[i + 1..];
        if event.id in seen { continue; }
        seen := seen + {event.id};
        changed := true;
        var verdict := Judge(channel, event);
        if verdict.Skip? { continue; }
        if verdict.Raise? { return CodecRaised; }
        messages := messages + [verdict.message];
        if limit.Some? && |messages| >= limit.value {
          assert Scan(channel, start, view, room) == Polled(messages, seen, false);
          break;
        }
      }
      assert Scan(channel, start, view, room) == Polled(messages, seen, false);
      if changed { SaveCursor(); }
      received := Received(messages);
    }
  }
}
