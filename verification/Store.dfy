/** IdempotencyStore and AuditLog: the two durable files of the policy engine. */
module Store {
  import opened StateMachine
  import opened Model

  /** What the store holds, in memory and in its JSON file. */
  datatype StoreView = StoreView(
    intents: set<string>, approvals: set<string>, receipts: map<string, string>)

  const EMPTY_STORE := StoreView({}, {}, map[])

  // ------------------------------------------------------------------
  // The approval key
  // ------------------------------------------------------------------

  datatype Triple = Triple(intentId: string, quoteId: string, preparedHash: string)

  function ApprovalKey(t: Triple): string {
    t.intentId + ":" + t.quoteId + ":" + t.preparedHash
  }

  predicate NoColon(s: string) { ':' !in s }

  /** Positions in a key: the intent id, a colon, the quote id, a colon, the hash. */
  lemma KeyLayout(t: Triple, k: nat)
    requires k < |ApprovalKey(t)|
    ensures |ApprovalKey(t)| == |t.intentId| + |t.quoteId| + |t.preparedHash| + 2
    ensures k < |t.intentId| ==> ApprovalKey(t)[k] == t.intentId[k]
    ensures k == |t.intentId| ==> ApprovalKey(t)[k] == ':'
    ensures k == |t.intentId| + 1 + |t.quoteId| ==> ApprovalKey(t)[k] == ':'
    ensures k > |t.intentId| + 1 + |t.quoteId| ==>
              ApprovalKey(t)[k] == t.preparedHash[k - |t.intentId| - |t.quoteId| - 2]
  {
  }

  lemma FirstColonFixesIntent(a: Triple, b: Triple)
    requires NoColon(b.intentId)
    requires ApprovalKey(a) == ApprovalKey(b)
    ensures |b.intentId| <= |a.intentId|
  {
    KeyLayout(a, |a.intentId|);
    forall k: nat | k < |b.intentId| ensures ApprovalKey(b)[k] != ':' {
      KeyLayout(b, k);
      assert b.intentId[k] in b.intentId;
    }
  }

  lemma LastColonFixesHash(a: Triple, b: Triple)
    requires NoColon(b.preparedHash)
    requires ApprovalKey(a) == ApprovalKey(b)
    ensures |b.preparedHash| <= |a.preparedHash|
  {
    KeyLayout(a, |a.intentId| + 1 + |a.quoteId|);
    var key := ApprovalKey(b);
    forall k | |key| - |b.preparedHash| <= k < |key| ensures key[k] != ':' {
      KeyLayout(b, k);
      assert key[k] in b.preparedHash;
    }
  }

  /** The colon-joined key is injective when intent id and hash hold no colon,
      whatever the quote id is. */
  lemma ApprovalKeyInjective(a: Triple, b: Triple)
    requires NoColon(a.intentId) && NoColon(b.intentId)
    requires NoColon(a.preparedHash) && NoColon(b.preparedHash)
    requires ApprovalKey(a) == ApprovalKey(b)
    ensures a == b
  {
    FirstColonFixesIntent(a, b);
    FirstColonFixesIntent(b, a);
    LastColonFixesHash(a, b);
    LastColonFixesHash(b, a);
    var n, m := |a.intentId|, |a.preparedHash|;
    var key := ApprovalKey(a);
    KeyLayout(a, n);
    KeyLayout(b, n);
    assert key[..n] == a.intentId && key[..n] == b.intentId;
    assert key[|key| - m..] == a.preparedHash && key[|key| - m..] == b.preparedHash;
    assert key[n + 1..|key| - m - 1] == a.quoteId && key[n + 1..|key| - m - 1] == b.quoteId;
  }

  /** Without that condition two different triples can share a key, so an
      approval that was never given reads as a replay. */
  lemma ApprovalKeyCollides()
    ensures exists a: Triple, b: Triple :: a != b && ApprovalKey(a) == ApprovalKey(b)
  {
    var a := Triple("i", "q:r", "h");
    var b := Triple("i:q", "r", "h");
    assert ApprovalKey(a) == ApprovalKey(b) == "i:q:r:h";
    assert a.intentId != b.intentId;
  }

  ghost predicate ColonFree(ts: set<Triple>) {
    forall t :: t in ts ==> NoColon(t.intentId) && NoColon(t.preparedHash)
  }

  function KeysOf(ts: set<Triple>): set<string> {
    set t | t in ts :: ApprovalKey(t)
  }

  /** The stored key set answers membership exactly as the set of approved
      triples would, and recording keeps it so. */
  lemma KeySetRefinesTriples(ts: set<Triple>, t: Triple)
    requires ColonFree(ts + {t})
    ensures ApprovalKey(t) in KeysOf(ts) <==> t in ts
    ensures KeysOf(ts) + {ApprovalKey(t)} == KeysOf(ts + {t})
  {
    if ApprovalKey(t) in KeysOf(ts) {
      var u :| u in ts && ApprovalKey(u) == ApprovalKey(t);
      ApprovalKeyInjective(u, t);
    }
    assert forall u :: u in ts + {t} ==> u in ts || u == t;
  }

  // ------------------------------------------------------------------
  // Audit entries
  // ------------------------------------------------------------------

  datatype Event =
    | EvSubmit | EvQuoteReceived(quoteId: string) | EvPrepared(preparedHash: string)
    | EvApproved(quoteId: string, preparedHash: string)
    | EvExecuting | EvAdapterAmbiguous | EvAdapterError | EvSettled(settlementRef: string)
    | EvReceiptMismatch | EvVerificationFailed | EvReceiptConfirmed(settlementRef: string)
    | EvConfirmSettled | EvReconciled(status: ReconcileStatus)
    | EvCancelled | EvRejected | EvExpiredDuringExecution | EvRecoveredExecuting

  /** An audit entry without its sequence number and timestamp. */
  datatype Entry = Entry(event: Event, intentId: string, state: State)

  datatype AuditLine = AuditLine(seqNo: int, entry: Entry)

  /** _load_seq: one past the largest number in the file, and at least 0. */
  function NextSeq(file: seq<AuditLine>): (n: int) {
    if file == [] then 0
    else
      var rest := NextSeq(file[..|file| - 1]);
      var last := file[|file| - 1].seqNo + 1;
      if rest < last then last else rest
  }

  /** Lines are numbered 0, 1, 2, ... in file order. */
  ghost predicate Numbered(file: seq<AuditLine>) {
    forall i :: 0 <= i < |file| ==> file[i].seqNo == i
  }

  /** Reopening a numbered file resumes exactly where it stopped. */
  lemma {:induction false} ReopenResumes(file: seq<AuditLine>)
    requires Numbered(file)
    ensures NextSeq(file) == |file|
  {
    if file != [] {
      ReopenResumes(file[..|file| - 1]);
    }
  }

  class AuditLog {
    var file: seq<AuditLine>
    var seqNo: int

    ghost var entries: seq<Entry>   // the file without its numbers
    ghost const gapless: bool       // it was numbered 0, 1, 2, ... when opened

    ghost predicate Valid()
      reads this
    {
      && seqNo == NextSeq(file) && |file| == |entries|
      && (gapless ==> Numbered(file))
      && forall i :: 0 <= i < |file| ==> file[i].entry == entries[i]
    }

    /** Open an existing file and load the next sequence number from it. */
    constructor (existing: seq<AuditLine>)
      ensures Valid() && file == existing && gapless == Numbered(existing)
    {
      file, gapless := existing, Numbered(existing);
      entries := seq(|existing|, i requires 0 <= i < |existing| => existing[i].entry);
      var n := 0;
      for i := 0 to |existing|
        invariant n == NextSeq(existing[..i])
      {
        assert existing[..i + 1][..i] == existing[..i];
        var next := existing[i].seqNo + 1;
        if n < next { n := next; }
      }
      assert existing[..|existing|] == existing;
      seqNo := n;
    }

    method Append(e: Entry)
      requires Valid()
      modifies this
      ensures Valid() && entries == old(entries) + [e]
      ensures file == old(file) + [AuditLine(NextSeq(old(file)), e)]
      ensures gapless ==> file == old(file) + [AuditLine(|old(file)|, e)]
    {
      if gapless { ReopenResumes(file); }
      file := file + [AuditLine(seqNo, e)];
      seqNo := seqNo + 1;
      entries := entries + [e];
    }
  }

  class IdempotencyStore {
    var intents: set<string>
    var approvals: set<string>
    var receipts: map<string, string>
    var disk: StoreView          // the file, replaced atomically by Save

    function View(): StoreView
      reads this
    {
      StoreView(intents, approvals, receipts)
    }

    /** Memory and file agree, as they do between calls. */
    ghost predicate Valid() reads this { disk == View() }

    constructor (existing: StoreView)
      ensures Valid() && View() == existing
    {
      intents, approvals, receipts := existing.intents, existing.approvals, existing.receipts;
      disk := existing;
    }

    method Save()
      modifies this`disk
      ensures Valid()
    {
      disk := View();
    }

    method RecordIntent(intentId: string)
      modifies this
      ensures Valid()
      ensures View() == old(View()).(intents := old(intents) + {intentId})
    {
      intents := intents + {intentId};
      Save();
    }

    predicate HasApproval(t: Triple)
      reads this
    {
      ApprovalKey(t) in approvals
    }

    method RecordApproval(t: Triple)
      modifies this
      ensures Valid()
      ensures View() == old(View()).(approvals := old(approvals) + {ApprovalKey(t)})
    {
      approvals := approvals + {ApprovalKey(t)};
      Save();
    }

    method RecordReceipt(intentId: string, settlementRef: string)
      modifies this
      ensures Valid()
      ensures View() == old(View()).(receipts := old(receipts)[intentId := settlementRef])
    {
      receipts := receipts[intentId := settlementRef];
      Save();
    }
  }
}
