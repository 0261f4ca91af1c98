/** The in-memory transport hub: one FIFO inbox per connected peer. */
module Hub {
  import opened Wrappers
  import opened Model

  /** One successful send, as the history of the hub remembers it. */
  datatype Sending = Sending(peerId: string, message: PeerMessage)

  /** What the others sent, in send order. */
  function Others(sent: seq<Sending>, peerId: string): seq<PeerMessage> {
    if sent == [] then []
    else
      var last := sent[|sent| - 1];
      Others(sent[..|sent| - 1], peerId) + if last.peerId != peerId then [last.message] else []
  }

  /** The messages a peer sent itself. */
  function Own(sent: seq<Sending>, peerId: string): nat {
    if sent == [] then 0
    else Own(sent[..|sent| - 1], peerId) + if sent[|sent| - 1].peerId == peerId then 1 else 0
  }

  /** Each message of another peer stands at its own place, in send order, and
      there is nothing else: no loss, no repetition, no echo. */
  lemma {:induction false} OthersAt(sent: seq<Sending>, peerId: string, k: nat)
    requires k < |sent| && sent[k].peerId != peerId
    ensures |Others(sent[..k], peerId)| < |Others(sent, peerId)|
    ensures Others(sent, peerId)[|Others(sent[..k], peerId)|] == sent[k].message
    ensures |Others(sent, peerId)| == |sent| - Own(sent, peerId)
  {
    var front := sent[..|sent| - 1];
    OthersLength(front, peerId);
    if k < |front| {
      assert front[..k] == sent[..k];
      OthersAt(front, peerId, k);
    } else {
      assert sent[..k] == front;
    }
  }

  lemma {:induction false} OthersLength(sent: seq<Sending>, peerId: string)
    ensures |Others(sent, peerId)| + Own(sent, peerId) == |sent|
  {
    if sent != [] { OthersLength(sent[..|sent| - 1], peerId); }
  }

  /** What a peer was given, then what waits for it, is exactly what the others
      sent since it connected, in that order. */
  ghost predicate Conserved(given: seq<PeerMessage>, waiting: seq<PeerMessage>, sent: seq<Sending>, since: nat, peerId: string) {
    since <= |sent| && given + waiting == Others(sent[since..], peerId)
  }

  lemma ConservedAtConnect(sent: seq<Sending>, peerId: string)
    ensures Conserved([], [], sent, |sent|, peerId)
  {
  }

  lemma ConservedAfterSend(given: seq<PeerMessage>, waiting: seq<PeerMessage>, sent: seq<Sending>, since: nat, peerId: string, s: Sending)
    requires Conserved(given, waiting, sent, since, peerId)
    ensures Conserved(given, if s.peerId == peerId then waiting else waiting + [s.message], sent + [s], since, peerId)
  {
    assert (sent + [s])[since..] == sent[since..] + [s];
    assert (sent[since..] + [s])[..|sent[since..]|] == sent[since..];
    assert given + (waiting + [s.message]) == given + waiting + [s.message];
  }

  lemma ConservedAfterReceive(given: seq<PeerMessage>, waiting: seq<PeerMessage>, sent: seq<Sending>, since: nat, peerId: string, n: nat)
    requires Conserved(given, waiting, sent, since, peerId) && n <= |waiting|
    ensures Conserved(given + waiting[..n], waiting[n..], sent, since, peerId)
  {
    assert waiting == waiting[..n] + waiting[n..];
    assert given + (waiting[..n] + waiting[n..]) == given + waiting[..n] + waiting[n..];
  }

  class InMemoryTransportHub {
    const digest: (string, nat, Message) -> string   // SHA-256 over peer, counter and message id
    var inboxes: map<string, seq<PeerMessage>>
    var counter: nat
    ghost var sent: seq<Sending>                          // every successful send
    ghost var joined: map<string, nat>                    // how many there were at connect
    ghost var received: map<string, seq<PeerMessage>>     // everything each peer has been given

    /** Conservation, for every connected peer. */
    ghost predicate Valid()
      reads this
    {
      && joined.Keys == received.Keys == inboxes.Keys
      && counter == |sent|
      && (forall p :: p in inboxes ==> Conserved(received[p], inboxes[p], sent, joined[p], p))
    }

    constructor (digest: (string, nat, Message) -> string)
      ensures Valid() && inboxes == map[] && sent == []
    {
      this.digest := digest;
      inboxes, counter := map[], 0;
      sent, joined, received := [], map[], map[];
    }

    /** False stands for ValueError. */
    method Connect(peerId: string) returns (ok: bool)
      requires Valid()
      modifies this
      ensures Valid() && ok == (peerId != "" && peerId !in old(inboxes))
      ensures ok ==> inboxes == old(inboxes)[peerId := []] && joined == old(joined)[peerId := |sent|]
                     && received == old(received)[peerId := []]
      ensures !ok ==> inboxes == old(inboxes) && joined == old(joined) && received == old(received)
      ensures sent == old(sent) && counter == old(counter)
    {
      if peerId == "" || peerId in inboxes { return false; }
      inboxes := inboxes[peerId := []];
      joined, received := joined[peerId := |sent|], received[peerId := []];
      ConservedAtConnect(sent, peerId);
      ok := true;
    }

    /** Only the author of a transportable message may send it; a refused send
        changes nothing, an accepted one reaches every other inbox at its end. */
    method Send(peerId: string, identity: string, message: Message, now: int) returns (messageId: Option<string>)
      requires Valid()
      modifies this
      ensures Valid() && joined == old(joined) && received == old(received)
      ensures messageId.Some? <==>
                || (message.IntentMessage? && message.intent.sender == identity)
                || (message.QuoteMessage? && message.quote.recipient == identity)
                || (message.ReceiptMessage? && message.receipt.recipient == identity)
      ensures messageId.None? ==> inboxes == old(inboxes) && sent == old(sent)
      ensures messageId.Some? ==>
                var delivered := PeerMessage(messageId.value, message, identity, now);
                && messageId.value == digest(peerId, old(counter), message)
                && sent == old(sent) + [Sending(peerId, delivered)]
                && inboxes.Keys == old(inboxes).Keys
                && forall p :: p in inboxes ==>
                     inboxes[p] == if p == peerId then old(inboxes)[p] else old(inboxes)[p] + [delivered]
    {
      hide Conserved;
      var author := MessageAuthor(message);
      if author != Some(identity) { return None; }
      var id := digest(peerId, counter, message);
      counter := counter + 1;
      var delivered := PeerMessage(id, message, identity, now);
      Deliver(peerId, delivered);
      forall p | p in inboxes
        ensures Conserved(received[p], inboxes[p], sent + [Sending(peerId, delivered)], joined[p], p)
      {
        ConservedAfterSend(received[p], old(inboxes)[p], sent, joined[p], p, Sending(peerId, delivered));
      }
      sent := sent + [Sending(peerId, delivered)];
      messageId := Some(id);
    }

    /** Append to every inbox but the sender's. */
    method Deliver(peerId: string, delivered: PeerMessage)
      modifies this`inboxes
      ensures inboxes.Keys == old(inboxes).Keys
      ensures forall p :: p in inboxes ==>
                inboxes[p] == if p == peerId then old(inboxes)[p] else old(inboxes)[p] + [delivered]
    {
      var left := inboxes.Keys;
      while left != {}
        invariant left <= inboxes.Keys == old(inboxes).Keys
        invariant forall p :: p in inboxes ==>
          inboxes[p] == if p == peerId || p in left then old(inboxes)[p] else old(inboxes)[p] + [delivered]
        decreases left
      {
        var p :| p in left;
        left := left - {p};
        if p != peerId { inboxes := inboxes[p := inboxes[p] + [delivered]]; }
      }
    }

    /** The oldest messages of the inbox, at most `limit` of them; None stands for
        ValueError, and then nothing changes. */
    method Receive(peerId: string, limit: Option<int>) returns (selected: Option<seq<PeerMessage>>)
      requires Valid() && peerId in inboxes
      modifies this
      ensures Valid() && sent == old(sent) && joined == old(joined) && counter == old(counter)
      ensures selected.None? <==> limit.Some? && limit.value < 0
      ensures selected.None? ==> inboxes == old(inboxes) && received == old(received)
      ensures selected.Some? ==>
                && |selected.value| == (if limit.Some? && limit.value < |old(inboxes)[peerId]| then limit.value else |old(inboxes)[peerId]|)
                && selected.value + inboxes[peerId] == old(inboxes)[peerId]
                && inboxes == old(inboxes)[peerId := inboxes[peerId]]
                && received == old(received)[peerId := old(received)[peerId] + selected.value]
    {
      hide Conserved;
      if limit.Some? && limit.value < 0 { return None; }
      var inbox := inboxes[peerId];
      if limit == Some(0) {
        assert received[peerId] + [] == received[peerId];
        return Some([]);
      }
      var taken := if limit.Some? && limit.value < |inbox| then limit.value else |inbox|;
      inboxes := inboxes[peerId := inbox[taken..]];
      received := received[peerId := received[peerId] + inbox[..taken]];
      ConservedAfterReceive(old(received)[peerId], inbox, sent, joined[peerId], peerId, taken);
      assert inbox[..taken] + inbox[taken..] == inbox;
      selected := Some(inbox[..taken]);
    }
  }
}
