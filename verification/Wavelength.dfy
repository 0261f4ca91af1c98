/** The Wavelength adapter: the four adapter calls as functions of one daemon reply,
    what they make of that reply, and the imperative adapter proved against them. */
module Wavelength {
  import opened Wrappers
  import opened Model
  import opened Parsing
  import opened Replies

  // ------------------------------------------------------------------
  // prepare
  // ------------------------------------------------------------------

  /** What the executor returned: parsed JSON, or an exception. */
  datatype Reply = ReplyJson(data: Json) | ReplyAdapterError | ReplyOtherError

  function PayloadFields(p: Preview, invoice: string, maxFeeSat: nat): Fields {
    map["send_intent_id" := p.sendIntentId, "amount_sat" := JInt(p.amountSat), "fee_sat" := JInt(p.feeSat),
        "total_outflow_sat" := JInt(p.totalSat), "payment_hash" := JStr(p.paymentHash),
        "expires_at_unix" := JInt(p.expiresAt), "rail" := p.rail, "quote_status" := p.quoteStatus,
        "invoice" := JStr(invoice), "max_fee_sat" := JInt(maxFeeSat)]
  }

  /** What prepare makes of the daemon's reply at wall-clock time `wall`. */
  function PrepareFrom(env: Env, invoice: string, amountSat: int, maxFeeSat: nat, wall: int, reply: Reply): PrepareOutcome {
    if !reply.ReplyJson? then PrepareAdapterError
    else match ParsePrepare(reply.data)
      case None => PrepareAdapterError
      case Some(p) =>
        if p.expiresAt <= wall || p.amountSat != amountSat || p.feeSat > maxFeeSat || p.totalSat != p.amountSat + p.feeSat
        then PrepareAdapterError
        else
          var payload := JsonText(JObj(PayloadFields(p, invoice, maxFeeSat)));
          PrepareOk(PrepareResult(p.feeSat, env.sha(payload), Lightning, payload))
  }

  function PrepareAnswer(env: Env, instruction: Instruction, amountSat: int, maxFeeSat: nat, wall: int, reply: Reply)
      : Answer<PrepareOutcome> {
    if instruction.invoice.None? || instruction.invoice.value == "" then Answer([], PrepareAdapterError)
    else
      var invoice := instruction.invoice.value;
      Answer([PrepareSend(invoice, maxFeeSat)], PrepareFrom(env, invoice, amountSat, maxFeeSat, wall, reply))
  }

  /** A prepared payload binds amount, fee, total outflow, token and hash. */
  ghost predicate WellPrepared(env: Env, p: PrepareResult, amountSat: int, maxFeeSat: int) {
    && p.payload.JsonText? && p.payload.tree.JObj?
    && var f := p.payload.tree.fields;
    && {"send_intent_id", "amount_sat", "fee_sat", "total_outflow_sat", "payment_hash", "expires_at_unix"} <= f.Keys
    && Truthy(f["send_intent_id"])
    && f["amount_sat"] == JInt(amountSat)
    && f["fee_sat"] == JInt(p.feeSat)
    && f["total_outflow_sat"] == JInt(amountSat + p.feeSat)
    && f["payment_hash"].JStr? && f["payment_hash"].text != ""
    && f["expires_at_unix"].JInt?
    && p.feeSat <= maxFeeSat
    && p.preparedHash == env.sha(p.payload)
  }

  lemma PayloadBinds(p: Preview, invoice: string, maxFeeSat: nat)
    ensures var f := PayloadFields(p, invoice, maxFeeSat);
            && {"send_intent_id", "amount_sat", "fee_sat", "total_outflow_sat", "payment_hash", "expires_at_unix"} <= f.Keys
            && f["send_intent_id"] == p.sendIntentId && f["amount_sat"] == JInt(p.amountSat)
            && f["fee_sat"] == JInt(p.feeSat) && f["total_outflow_sat"] == JInt(p.totalSat)
            && f["payment_hash"] == JStr(p.paymentHash) && f["expires_at_unix"] == JInt(p.expiresAt)
  {
  }

  /** prepare calls PrepareSend at most once, never Send, and what it returns is
      bound to the requested amount and fee limit. */
  lemma PrepareSound(env: Env, instruction: Instruction, amountSat: int, maxFeeSat: nat, wall: int, reply: Reply)
    ensures var a := PrepareAnswer(env, instruction, amountSat, maxFeeSat, wall, reply);
            && |a.rpcs| <= 1 && (forall r :: r in a.rpcs ==> r.PrepareSend?)
            && (a.outcome.PrepareOk? ==> WellPrepared(env, a.outcome.result, amountSat, maxFeeSat))
  {
    if reply.ReplyJson? && ParsePrepare(reply.data).Some? && instruction.invoice.Some? {
      PayloadBinds(ParsePrepare(reply.data).value, instruction.invoice.value, maxFeeSat);
    }
  }

  /** prepare succeeds exactly on an unexpired preview for the requested amount, with
      a fee within the limit and an outflow of amount plus fee; any other reply is an
      AdapterError. What it then seals is that preview and the invoice. */
  lemma PrepareExactly(env: Env, instruction: Instruction, amountSat: int, maxFeeSat: nat, wall: int, reply: Reply)
    ensures var a := PrepareAnswer(env, instruction, amountSat, maxFeeSat, wall, reply);
            && a.rpcs == (if instruction.invoice.Some? && instruction.invoice.value != ""
                          then [PrepareSend(instruction.invoice.value, maxFeeSat)] else [])
            && (a.outcome.PrepareOk? <==>
                  && a.rpcs != [] && reply.ReplyJson?
                  && exists fee, expires :: fee <= maxFeeSat && expires > wall
                       && Previews(reply.data, amountSat, fee, expires))
            && !a.outcome.PrepareOtherError?
            && (a.outcome.PrepareOk? ==>
                  var r := a.outcome.result;
                  && r.rail == Lightning && r.preparedHash == env.sha(r.payload)
                  && exists expires :: expires > wall
                       && Previews(reply.data, amountSat, r.feeSat, expires)
                       && Seals(r.payload, reply.data, instruction.invoice.value, amountSat, r.feeSat, maxFeeSat, expires))
  {
    hide ParsePrepare, Previews, PayloadFields;
    if reply.ReplyJson? {
      forall fee: int, expires: int
        ensures Previews(reply.data, amountSat, fee, expires) <==>
                  && ParsePrepare(reply.data).Some?
                  && var p := ParsePrepare(reply.data).value;
                     p.amountSat == amountSat && p.feeSat == fee && p.totalSat == amountSat + fee && p.expiresAt == expires
      {
        PreviewRead(reply.data, amountSat, fee, expires);
      }
      PreviewRead(reply.data, 0, 0, 0);
      var a := PrepareAnswer(env, instruction, amountSat, maxFeeSat, wall, reply);
      if a.outcome.PrepareOk? {
        var p := ParsePrepare(reply.data).value;
        assert Previews(reply.data, amountSat, p.feeSat, p.expiresAt);
        PayloadSeals(reply.data, p, instruction.invoice.value, maxFeeSat);
      }
    }
  }

  /** The payload holds the preview's token and hash, the invoice, and the numbers. */
  ghost predicate Seals(payload: Payload, data: Json, invoice: string, amount: int, fee: int, maxFee: int, expires: int) {
    && payload.JsonText?
    && Field(payload.tree, "send_intent_id") == Field(data, "send_intent_id")
    && Field(payload.tree, "payment_hash") == Field(data, "payment_hash")
    && Field(payload.tree, "invoice") == JStr(invoice)
    && Field(payload.tree, "amount_sat") == JInt(amount)
    && Field(payload.tree, "fee_sat") == JInt(fee)
    && Field(payload.tree, "total_outflow_sat") == JInt(amount + fee)
    && Field(payload.tree, "max_fee_sat") == JInt(maxFee)
    && Field(payload.tree, "expires_at_unix") == JInt(expires)
  }

  lemma PayloadSeals(data: Json, p: Preview, invoice: string, maxFeeSat: nat)
    requires p.sendIntentId == Field(data, "send_intent_id") && JStr(p.paymentHash) == Field(data, "payment_hash")
    requires p.totalSat == p.amountSat + p.feeSat
    ensures Seals(JsonText(JObj(PayloadFields(p, invoice, maxFeeSat))), data, invoice, p.amountSat, p.feeSat, maxFeeSat, p.expiresAt)
  {
    PayloadBinds(p, invoice, maxFeeSat);
    var f := PayloadFields(p, invoice, maxFeeSat);
    assert "invoice" in f && "max_fee_sat" in f && f["invoice"] == JStr(invoice) && f["max_fee_sat"] == JInt(maxFeeSat);
  }

  // ------------------------------------------------------------------
  // execute
  // ------------------------------------------------------------------

  /** Python's equality between a number and a JSON value. */
  predicate IntEquals(n: int, j: Json) { AsInt(j) == Some(n) }

  /** Checks before the Send; the token when they pass. */
  datatype Check = Go(sendIntentId: Json, fields: Fields) | Stop(outcome: ExecuteOutcome)

  function BeforeSend(env: Env, payload: Payload, preparedHash: string, wall: int): Check {
    if env.sha(payload) != preparedHash then Stop(ExecuteAdapterError)
    else if payload.NotJson? then Stop(ExecuteAdapterError)
    else if !payload.tree.JObj? then Stop(ExecuteOtherError)   // AttributeError on .get
    else
      var f := payload.tree.fields;
      var sid := Get(f, "send_intent_id", JStr(""));
      var expires := AsInt(Get(f, "expires_at_unix", JInt(0)));
      if !Truthy(sid) then Stop(ExecuteAdapterError)
      else if expires.None? || expires.value <= wall then Stop(ExecuteAdapterError)
      else Go(sid, f)
  }

  /** What execute makes of the Send reply. FAILED and PENDING put the entry id
      through the text redaction, which raises on anything but a string. A
      settlement reference that is not a string (never produced by prepare) fails
      receipt validation upstream. */
  function AfterSend(env: Env, f: Fields, reply: Reply): ExecuteOutcome {
    if !reply.ReplyJson? then ExecuteAmbiguous
    else
      var r := ParseSend(env, reply.data);
      match r
      case SendAdapterError => ExecuteAdapterError
      case SendRaised => ExecuteOtherError
      case SendReply(entryId, hash, amount, fee, status) =>
        var bound := Get(f, "payment_hash", JNull);
        if (status == "FAILED" || status == "PENDING") && !entryId.JStr? then ExecuteOtherError
        else if status == "FAILED" then ExecuteAdapterError
        else if status != "COMPLETE" then ExecuteAmbiguous
        else if !Truthy(hash) then ExecuteAmbiguous
        else if !IntEquals(amount, Get(f, "amount_sat", JNull)) then ExecuteAmbiguous
        else if entryId != bound || hash != bound then ExecuteAmbiguous
        else if !hash.JStr? then ExecuteOtherError
        else ExecuteOk(hash.text, amount, fee, Lightning)
  }

  function ExecuteAnswer(env: Env, payload: Payload, preparedHash: string, wall: int, reply: Reply): Answer<ExecuteOutcome> {
    match BeforeSend(env, payload, preparedHash, wall)
    case Stop(o) => Answer([], o)
    case Go(sid, f) => Answer([Send(sid)], AfterSend(env, f, reply))
  }

  /** The reply confirms a payment: an entry whose id is the hash and that carries
      no other hash, COMPLETE, for the amount, with a fee that can be read. */
  ghost predicate Confirms(env: Env, data: Json, hash: Json, amount: int) {
    var entry := Field(data, "entry");
    && HasEntry(data) && Field(entry, "id") == hash && hash.JStr?
    && SendSays(entry, "COMPLETE", 2)
    && Moved(data, amount) && Readable(entry, "fee_sat")
    && (HashIs(env, entry, hash.text) || HashIs(env, entry, ""))
  }

  /** FAILED or PENDING, whose message prints the entry id: that takes a text. */
  ghost predicate Names(data: Json, word: string, code: int) {
    HasEntry(data) && HasNumbers(data) && SendSays(Field(data, "entry"), word, code)
  }

  lemma AfterSendIs(env: Env, p: PrepareResult, amountSat: int, data: Json)
    requires WellPrepared(env, p, amountSat, p.feeSat)
    ensures var hash := p.payload.tree.fields["payment_hash"];
            var id := Field(Field(data, "entry"), "id");
            var o := AfterSend(env, p.payload.tree.fields, ReplyJson(data));
            && (o.ExecuteOk? <==> Confirms(env, data, hash, amountSat))
            && (o.ExecuteAdapterError? <==> !HasEntry(data) || (Names(data, "FAILED", 3) && id.JStr?))
            && (o.ExecuteOtherError? <==>
                  HasEntry(data) && (!HasNumbers(data) || ((Names(data, "FAILED", 3) || Names(data, "PENDING", 1)) && !id.JStr?)))
            && (o.ExecuteOk? ==>
                  && JStr(o.settlementRef) == hash && o.amountSat == amountSat && o.rail == Lightning
                  && Reads(Field(data, "entry"), "fee_sat", o.feeSat))
  {
    hide ParseSend, HasEntry, SendSays, Moved, Reads, HashIs, ExtractHash;
    var f := p.payload.tree.fields;
    var hash := f["payment_hash"];
    SendRead(env, data);
    var r := ParseSend(env, data);
    assert StatusWord("FAILED", 3) && StatusWord("PENDING", 1) && StatusWord("COMPLETE", 2);
    DistinctWords();
    if r.SendReply? {
      BlankIsFalsy(hash);
      BlankIsFalsy(r.paymentHash);
      assert Get(f, "payment_hash", JNull) == hash && Get(f, "amount_sat", JNull) == JInt(amountSat);
      EntryIsObject(data);
      assert HashIs(env, Field(data, "entry"), hash.text) <==> ExtractHash(env, Field(data, "entry").fields) == hash.text;
    }
  }

  lemma EntryIsObject(data: Json)
    requires HasEntry(data)
    ensures Field(data, "entry").JObj?
  {
  }

  lemma DistinctWords()
    ensures "FAILED" != "PENDING" && "FAILED" != "COMPLETE" && "PENDING" != "COMPLETE"
  {
    assert "FAILED"[0] != "PENDING"[0] && "FAILED"[0] != "COMPLETE"[0] && "PENDING"[0] != "COMPLETE"[0];
  }

  /** execute issues at most one Send, of the prepared token, and no PrepareSend, and
      its outcome is decided by the reply: it succeeds exactly when the payload is
      unexpired and the reply confirms the preview, with the prepared hash as the
      settlement reference; a FAILED entry is an AdapterError, as is a reply without
      an entry; and all that is left, PENDING and a failed call included, is
      ambiguous. */
  lemma ExecuteSound(env: Env, p: PrepareResult, amountSat: int, wall: int, reply: Reply)
    requires WellPrepared(env, p, amountSat, p.feeSat)
    ensures var a := ExecuteAnswer(env, p.payload, p.preparedHash, wall, reply);
            var f := p.payload.tree.fields;
            && (a.rpcs == [] || a.rpcs == [Send(f["send_intent_id"])])
            && (a.rpcs == [] <==> f["expires_at_unix"].number <= wall)
            && (a.rpcs == [] ==> a.outcome.ExecuteAdapterError?)
            && (a.outcome.ExecuteOk? <==> a.rpcs != [] && reply.ReplyJson? && Confirms(env, reply.data, f["payment_hash"], amountSat))
            && (a.outcome.ExecuteOk? ==>
                  && JStr(a.outcome.settlementRef) == f["payment_hash"] && a.outcome.amountSat == amountSat
                  && a.outcome.rail == Lightning && Reads(Field(reply.data, "entry"), "fee_sat", a.outcome.feeSat))
            && (a.rpcs != [] && !reply.ReplyJson? ==> a.outcome.ExecuteAmbiguous?)
            && (a.rpcs != [] && reply.ReplyJson? ==>
                  var id := Field(Field(reply.data, "entry"), "id");
                  && (a.outcome.ExecuteAdapterError? <==>
                        !HasEntry(reply.data) || (Names(reply.data, "FAILED", 3) && id.JStr?))
                  && (a.outcome.ExecuteOtherError? <==>
                        && HasEntry(reply.data)
                        && (!HasNumbers(reply.data)
                            || ((Names(reply.data, "FAILED", 3) || Names(reply.data, "PENDING", 1)) && !id.JStr?))))
  {
    hide AfterSend, Confirms, Names, HasEntry, HasNumbers, Reads;
    if reply.ReplyJson? { AfterSendIs(env, p, amountSat, reply.data); } else { NoReplyIsAmbiguous(env, p.payload.tree.fields, reply); }
  }

  lemma NoReplyIsAmbiguous(env: Env, f: Fields, reply: Reply)
    requires !reply.ReplyJson?
    ensures AfterSend(env, f, reply) == ExecuteAmbiguous
  {
  }

  /** The codes of the protocol: 2 settles what 1 leaves ambiguous and 3 fails. */
  lemma CodesDecide(env: Env, p: PrepareResult, amountSat: int, wall: int, entry: Fields, code: int)
    requires WellPrepared(env, p, amountSat, p.feeSat) && p.payload.tree.fields["expires_at_unix"].number > wall
    requires "id" in entry && entry["id"] == p.payload.tree.fields["payment_hash"] && HashIs(env, JObj(entry), "")
    requires "status" in entry && entry["status"] == JInt(code) && Reads(JObj(entry), "amount_sat", amountSat) && Readable(JObj(entry), "fee_sat")
    ensures var o := ExecuteAnswer(env, p.payload, p.preparedHash, wall, ReplyJson(JObj(map["entry" := JObj(entry)]))).outcome;
            && (o.ExecuteOk? <==> code == 2) && (o.ExecuteAdapterError? <==> code == 3)
            && (o.ExecuteAmbiguous? <==> code != 2 && code != 3)
  {
    hide AfterSend, HashIs, Readable, ExecuteAnswer;
    var data := JObj(map["entry" := JObj(entry)]);
    assert Field(data, "entry") == JObj(entry) && Field(JObj(entry), "id") == p.payload.tree.fields["payment_hash"];
    assert Field(JObj(entry), "status") == JInt(code);
    assert Reads(data, "actual_amount_sat", 0);
    assert Moved(data, amountSat);
    ExecuteSound(env, p, amountSat, wall, ReplyJson(data));
  }

  /** Whatever the payload, the Send goes out exactly when it hashes to the approved
      hash, decodes to an object with a token, and carries an expiry still ahead; and
      it carries that token. */
  lemma SendsExactly(env: Env, payload: Payload, preparedHash: string, wall: int, reply: Reply)
    ensures var rpcs := ExecuteAnswer(env, payload, preparedHash, wall, reply).rpcs;
            if env.sha(payload) == preparedHash && payload.JsonText? && Ahead(payload.tree, wall)
            then rpcs == [Send(Field(payload.tree, "send_intent_id"))] else rpcs == []
  {
    hide AfterSend;
    if payload.JsonText? && payload.tree.JObj? {
      BlankIsFalsy(Get(payload.tree.fields, "send_intent_id", JStr("")));
      var expires := AsInt(Get(payload.tree.fields, "expires_at_unix", JInt(0)));
      if expires.Some? { assert Reads(payload.tree, "expires_at_unix", expires.value); }
    }
  }

  ghost predicate Ahead(tree: Json, wall: int) {
    && !Blank(Field(tree, "send_intent_id")) && !Field(tree, "expires_at_unix").JStr?
    && exists expires :: Reads(tree, "expires_at_unix", expires) && expires > wall
  }

  /** A payload that does not hash to the approved hash is never sent. */
  lemma TamperedIsNeverSent(env: Env, payload: Payload, preparedHash: string, wall: int, reply: Reply)
    requires env.sha(payload) != preparedHash
    ensures ExecuteAnswer(env, payload, preparedHash, wall, reply) == Answer([], ExecuteAdapterError)
  {
  }

  // ------------------------------------------------------------------
  // Activity: one normalized view of every envelope
  // ------------------------------------------------------------------

  /** The list `l` under the key the reader looks at first. */
  ghost predicate Carries(o: Fields, l: seq<Json>) {
    || ("entries" in o && o["entries"] == JList(l))
    || ("entries" !in o && "items" in o && o["items"] == JList(l))
    || ("entries" !in o && "items" !in o && "recent" in o && o["recent"] == JList(l))
  }

  /** Every envelope shape yields the same entries as the bare list, at top level
      or under `activity`; an empty list must not come beside a single `entry`,
      and that condition is exact. */
  lemma EnvelopesAgree(o: Fields, l: seq<Json>)
    requires Carries(o, l)
    ensures "activity" !in o || !o["activity"].JObj? ==>
              ((Entries(JObj(o)) == Entries(JList(l))) <==> (l != [] || !Get(o, "entry", JNull).JObj?))
    ensures (Entries(JObj(map["activity" := JObj(o)])) == Entries(JList(l)))
            <==> (l != [] || !Get(o, "entry", JNull).JObj?)
  {
    var wrapped: Fields := map["activity" := JObj(o)];
    assert Get(wrapped, "activity", JNull) == JObj(o);
    var single := Get(o, "entry", JNull);
    if l == [] && single.JObj? {
      assert Objects([single]) == [single.fields] by { assert [single][..0] == []; }
    }
  }

  // ------------------------------------------------------------------
  // The two activity scans
  // ------------------------------------------------------------------

  function Abs(n: int): nat { if n < 0 then -n else n }

  /** The verdict of _verify_activity on the entry with the hash: status first,
      then amount. */
  function VerifyEntry(e: Parsed, ref: string, expected: int, kind: ActivityKind): VerifyResult
    requires e.Parsed?
  {
    var amount := if kind == SendKind then Abs(e.amountSat) else e.amountSat;
    if e.status != "COMPLETE" then VerifyResult(false, ref, amount, e.feeSat)
    else if amount != expected then VerifyResult(false, ref, amount, e.feeSat)
    else VerifyResult(true, ref, amount, e.feeSat)
  }

  /** The verdict of reconcile_settlement: amount first, then status. */
  function ReconcileEntry(e: Parsed, hash: string, expected: int): ReconcileResult
    requires e.Parsed?
  {
    var amount := Abs(e.amountSat);
    if amount != expected then ReconcileResult(UNKNOWN, hash, amount, e.feeSat, None, false)
    else if e.status == "COMPLETE" then ReconcileResult(COMPLETE, hash, amount, e.feeSat, Some(Lightning), true)
    else if e.status == "PENDING" then ReconcileResult(PENDING, hash, amount, e.feeSat, Some(Lightning), false)
    else ReconcileResult(UNKNOWN, hash, amount, e.feeSat, Some(Lightning), false)
  }

  function VerifyScan(env: Env, entries: seq<Fields>, ref: string, expected: int, kind: ActivityKind): VerifyOutcome {
    if entries == [] then VerifyOk(VerifyResult(false, ref, 0, 0))
    else
      var e := ParseActivity(env, entries[0]);
      if e.Malformed? then VerifyRaised
      else if e.paymentHash != ref then VerifyScan(env, entries[1..], ref, expected, kind)
      else VerifyOk(VerifyEntry(e, ref, expected, kind))
  }

  function ReconcileScan(env: Env, entries: seq<Fields>, hash: string, expected: int): ReconcileOutcome {
    if entries == [] then ReconcileOk(ReconcileResult(UNKNOWN, hash, 0, 0, None, false))
    else
      var e := ParseActivity(env, entries[0]);
      if e.Malformed? then ReconcileRaised
      else if e.paymentHash != hash then ReconcileScan(env, entries[1..], hash, expected)
      else ReconcileOk(ReconcileEntry(e, hash, expected))
  }

  /** Entry `k` is the first that is malformed or carries the hash. */
  ghost predicate Decides(env: Env, entries: seq<Fields>, hash: string, k: nat) {
    && k < |entries|
    && (var e := ParseActivity(env, entries[k]); e.Malformed? || e.paymentHash == hash)
    && (forall j :: 0 <= j < k ==> var e := ParseActivity(env, entries[j]); e.Parsed? && e.paymentHash != hash)
  }

  /** Both scans are decided by that one entry. */
  lemma {:induction false} FirstEntryDecides(env: Env, entries: seq<Fields>, hash: string, expected: int, kind: ActivityKind, k: nat)
    requires Decides(env, entries, hash, k)
    ensures var e := ParseActivity(env, entries[k]);
            && VerifyScan(env, entries, hash, expected, kind) ==
                 (if e.Malformed? then VerifyRaised else VerifyOk(VerifyEntry(e, hash, expected, kind)))
            && ReconcileScan(env, entries, hash, expected) ==
                 (if e.Malformed? then ReconcileRaised else ReconcileOk(ReconcileEntry(e, hash, expected)))
  {
    hide ParseActivity, VerifyEntry, ReconcileEntry;
    if k > 0 {
      assert Decides(env, entries[1..], hash, k - 1) by {
        forall j | 0 <= j < k - 1
          ensures var e := ParseActivity(env, entries[1..][j]); e.Parsed? && e.paymentHash != hash
        {
          assert entries[1..][j] == entries[j + 1];
        }
      }
      FirstEntryDecides(env, entries[1..], hash, expected, kind, k - 1);
    }
  }

  lemma {:induction false} NoEntryDecides(env: Env, entries: seq<Fields>, hash: string, expected: int, kind: ActivityKind)
    requires forall j :: 0 <= j < |entries| ==>
      var e := ParseActivity(env, entries[j]); e.Parsed? && e.paymentHash != hash
    ensures VerifyScan(env, entries, hash, expected, kind) == VerifyOk(VerifyResult(false, hash, 0, 0))
    ensures ReconcileScan(env, entries, hash, expected) == ReconcileOk(ReconcileResult(UNKNOWN, hash, 0, 0, None, false))
  {
    if entries != [] {
      forall j | 0 <= j < |entries[1..]|
        ensures var e := ParseActivity(env, entries[1..][j]); e.Parsed? && e.paymentHash != hash
      {
        assert entries[1..][j] == entries[j + 1];
      }
      NoEntryDecides(env, entries[1..], hash, expected, kind);
    }
  }

  /** Some entry decides, or none is malformed or carries the hash. */
  lemma {:induction false} DeciderExists(env: Env, entries: seq<Fields>, hash: string) returns (k: nat)
    ensures k <= |entries|
    ensures k < |entries| ==> Decides(env, entries, hash, k)
    ensures k == |entries| ==> forall j :: 0 <= j < |entries| ==>
      var e := ParseActivity(env, entries[j]); e.Parsed? && e.paymentHash != hash
  {
    k := 0;
    while k < |entries| && ParseActivity(env, entries[k]).Parsed? && ParseActivity(env, entries[k]).paymentHash != hash
      invariant k <= |entries|
      invariant forall j :: 0 <= j < k ==> var e := ParseActivity(env, entries[j]); e.Parsed? && e.paymentHash != hash
    {
      k := k + 1;
    }
  }

  /** The scans agree: on every entry list they raise together, reconciliation
      reports COMPLETE exactly when sender verification reports verified, with
      equal amount and fee, although they test amount and status in opposite
      orders; and that happens exactly when the deciding entry is COMPLETE for
      the expected amount. */
  lemma {:induction false} ScansAgree(env: Env, entries: seq<Fields>, hash: string, expected: int)
    ensures var v := VerifyScan(env, entries, hash, expected, SendKind);
            var r := ReconcileScan(env, entries, hash, expected);
            && (v.VerifyRaised? <==> r.ReconcileRaised?)
            && (v.VerifyOk? && v.result.verified <==> r.ReconcileOk? && r.result.status == COMPLETE)
            && (v.VerifyOk? ==> v.result.amountSat == r.result.amountSat && v.result.feeSat == r.result.feeSat)
            && (v.VerifyOk? && v.result.verified <==>
                  exists k: nat :: Decides(env, entries, hash, k)
                    && var e := ParseActivity(env, entries[k]);
                       e.Parsed? && e.status == "COMPLETE" && Abs(e.amountSat) == expected)
  {
    var k := DeciderExists(env, entries, hash);
    if k < |entries| {
      FirstEntryDecides(env, entries, hash, expected, SendKind, k);
    } else {
      NoEntryDecides(env, entries, hash, expected, SendKind);
    }
    forall i: nat | Decides(env, entries, hash, i) ensures i == k {}
  }

  /** The checks reconcile_settlement makes on the payload: its hash, or UNKNOWN. */
  datatype Lookup = Search(paymentHash: string) | GiveUp(result: ReconcileResult)

  function BeforeLookup(env: Env, payload: Payload, preparedHash: string, expected: int): Lookup {
    var unknown := ReconcileResult(UNKNOWN, "", 0, 0, None, false);
    if env.sha(payload) != preparedHash then GiveUp(unknown)
    else if payload.NotJson? || !payload.tree.JObj? then GiveUp(unknown)
    else
      var f := payload.tree.fields;
      var hash := Get(f, "payment_hash", JStr(""));
      if !hash.JStr? || hash.text == "" then GiveUp(unknown)
      else
        var amount := PyInt(Get(f, "amount_sat", JInt(0)));
        if amount != Some(expected) then GiveUp(unknown.(settlementRef := hash.text))
        else Search(hash.text)
  }

  function ReconcileAnswer(env: Env, payload: Payload, preparedHash: string, expected: int, reply: Reply): Answer<ReconcileOutcome> {
    match BeforeLookup(env, payload, preparedHash, expected)
    case GiveUp(r) => Answer([], ReconcileOk(r))
    case Search(hash) =>
      Answer([Activity(SendKind)],
             if !reply.ReplyJson? then ReconcileOk(ReconcileResult(UNKNOWN, hash, 0, 0, None, false))
             else ReconcileScan(env, Entries(reply.data), hash, expected))
  }

  function VerifyAnswer(env: Env, ref: string, expected: int, kind: ActivityKind, reply: Reply): Answer<VerifyOutcome> {
    Answer([Activity(kind)],
           if !reply.ReplyJson? then VerifyOk(VerifyResult(false, ref, 0, 0))
           else VerifyScan(env, Entries(reply.data), ref, expected, kind))
  }

  // ------------------------------------------------------------------
  // What the activity calls make of a reply
  // ------------------------------------------------------------------

  /** Both scans over the objects of a list stop at the item that decides, and end
      empty-handed when every item is passed over. */
  lemma {:induction false} ScanDecides(env: Env, l: seq<Json>, hash: string, expected: int, kind: ActivityKind) returns (k: nat)
    ensures k <= |l| && (k < |l| ==> Deciding(env, l, hash, k)) && (k == |l| ==> forall j :: 0 <= j < |l| ==> Skipped(env, l[j], hash))
    ensures var v, r := VerifyScan(env, Objects(l), hash, expected, kind), ReconcileScan(env, Objects(l), hash, expected);
            if k == |l| then
              v == VerifyOk(VerifyResult(false, hash, 0, 0)) && r == ReconcileOk(ReconcileResult(UNKNOWN, hash, 0, 0, None, false))
            else
              && l[k].JObj?
              && var e := ParseActivity(env, l[k].fields);
                 && v == (if e.Malformed? then VerifyRaised else VerifyOk(VerifyEntry(e, hash, expected, kind)))
                 && r == (if e.Malformed? then ReconcileRaised else ReconcileOk(ReconcileEntry(e, hash, expected)))
  {
    hide ParseActivity, VerifyEntry, ReconcileEntry, Objects, Skipped;
    if l == [] {
      NoObjects();
      return 0;
    }
    var item, rest := l[0], l[1..];
    assert l == [item] + rest;
    ObjectsCons(item, rest);
    StepOf(env, item, Objects(rest), hash, expected, kind);
    if Skipped(env, item, hash) {
      var m := ScanDecides(env, rest, hash, expected, kind);
      k := m + 1;
      forall j | 0 <= j < k ensures Skipped(env, l[j], hash) { assert j > 0 ==> l[j] == rest[j - 1]; }
      assert forall j :: 0 <= j < |rest| ==> rest[j] == l[j + 1];
    } else {
      k := 0;
    }
  }

  /** The scans at one item in front of others. */
  lemma StepOf(env: Env, item: Json, rest: seq<Fields>, hash: string, expected: int, kind: ActivityKind)
    ensures var all := (if item.JObj? then [item.fields] else []) + rest;
            var v, r := VerifyScan(env, all, hash, expected, kind), ReconcileScan(env, all, hash, expected);
            if Skipped(env, item, hash) then
              v == VerifyScan(env, rest, hash, expected, kind) && r == ReconcileScan(env, rest, hash, expected)
            else
              && item.JObj?
              && var e := ParseActivity(env, item.fields);
                 && v == (if e.Malformed? then VerifyRaised else VerifyOk(VerifyEntry(e, hash, expected, kind)))
                 && r == (if e.Malformed? then ReconcileRaised else ReconcileOk(ReconcileEntry(e, hash, expected)))
  {
    hide ParseActivity, VerifyEntry, ReconcileEntry, Legible, HashIs, Inner;
    if item.JObj? {
      EntryRead(env, item.fields);
      assert item == JObj(item.fields);
      assert ([item.fields] + rest)[0] == item.fields && ([item.fields] + rest)[1..] == rest;
    } else {
      assert [] + rest == rest;
    }
  }

  /** The item that decides a reply, if any, with the list it stands in. */
  lemma ReplyDecides(env: Env, data: Json, hash: string, expected: int, kind: ActivityKind) returns (l: seq<Json>, k: nat)
    ensures forall x :: Lists(data, x) <==> x == l
    ensures k <= |l| && (k < |l| ==> Deciding(env, l, hash, k)) && (forall i :: Deciding(env, l, hash, i) <==> i == k < |l|)
    ensures var v, r := VerifyScan(env, Entries(data), hash, expected, kind), ReconcileScan(env, Entries(data), hash, expected);
            if k == |l| then
              v == VerifyOk(VerifyResult(false, hash, 0, 0)) && r == ReconcileOk(ReconcileResult(UNKNOWN, hash, 0, 0, None, false))
            else
              && l[k].JObj?
              && var e := ParseActivity(env, l[k].fields);
                 && v == (if e.Malformed? then VerifyRaised else VerifyOk(VerifyEntry(e, hash, expected, kind)))
                 && r == (if e.Malformed? then ReconcileRaised else ReconcileOk(ReconcileEntry(e, hash, expected)))
  {
    hide ParseActivity, VerifyEntry, ReconcileEntry, Skipped, Lists, Objects, Entries, VerifyScan, ReconcileScan;
    l := ListRead(data);
    k := ScanDecides(env, l, hash, expected, kind);
  }

  /** The fee and the amount of the entry that decides; zero without one. */
  ghost predicate Observes(env: Env, data: Json, hash: string, amount: int, fee: int, signed: bool) {
    if exists l, k :: Lists(data, l) && Deciding(env, l, hash, k) then
      exists l, k :: Lists(data, l) && Deciding(env, l, hash, k) && ItemObserved(l[k], amount, fee, signed)
    else amount == 0 && fee == 0
  }

  ghost predicate ItemObserved(item: Json, amount: int, fee: int, signed: bool) {
    && Reads(Inner(item), "fee_sat", fee)
    && (Reads(Inner(item), "amount_sat", amount) || (!signed && Reads(Inner(item), "amount_sat", -amount)))
    && (signed || amount >= 0)
  }

  /** A received payment keeps its sign. */
  ghost predicate ShowsReceived(env: Env, data: Json, hash: string, amount: int) {
    exists l, k :: Lists(data, l) && Deciding(env, l, hash, k) && ItemReceived(l[k], amount)
  }

  ghost predicate ItemReceived(item: Json, amount: int) {
    Legible(item) && ActivitySays(Inner(item), "COMPLETE") && Reads(Inner(item), "amount_sat", amount)
  }

  lemma VerdictOf(env: Env, item: Json, hash: string, expected: int, kind: ActivityKind)
    requires item.JObj? && ParseActivity(env, item.fields).Parsed?
    ensures var v := VerifyEntry(ParseActivity(env, item.fields), hash, expected, kind);
            && v.settlementRef == hash && ItemObserved(item, v.amountSat, v.feeSat, kind == RecvKind)
            && (v.verified <==> (if kind == SendKind then ItemShows(item, "COMPLETE", expected) else ItemReceived(item, expected)))
    ensures var r := ReconcileEntry(ParseActivity(env, item.fields), hash, expected);
            && r.settlementRef == hash && ItemObserved(item, r.amountSat, r.feeSat, false)
            && (r.status == COMPLETE <==> ItemShows(item, "COMPLETE", expected))
            && (r.status == PENDING <==> ItemShows(item, "PENDING", expected))
            && (r.verified <==> r.status == COMPLETE)
  {
    hide Reads, ActivitySays, ParseActivity, Legible, Inner;
    EntryRead(env, item.fields);
    assert StatusWord("COMPLETE", 2) && StatusWord("PENDING", 1);
    DistinctWords();
    var e := ParseActivity(env, item.fields);
    assert Reads(Inner(item), "amount_sat", expected) <==> expected == e.amountSat;
    assert Reads(Inner(item), "amount_sat", -expected) <==> -expected == e.amountSat;
    var size: int := Abs(e.amountSat);
    assert Reads(Inner(item), "amount_sat", size) || Reads(Inner(item), "amount_sat", -size);
  }

  /** A reply that shows the payment COMPLETE, sent or received. */
  ghost predicate Believes(env: Env, ref: string, expected: int, kind: ActivityKind, reply: Reply) {
    && reply.ReplyJson?
    && if kind == SendKind then Shows(env, reply.data, ref, "COMPLETE", expected) else ShowsReceived(env, reply.data, ref, expected)
  }

  /** The payload is the approved one and names a payment of the expected amount. */
  ghost predicate Searchable(env: Env, payload: Payload, preparedHash: string, expected: int) {
    && env.sha(payload) == preparedHash && payload.JsonText?
    && Field(payload.tree, "payment_hash").JStr? && Field(payload.tree, "payment_hash").text != ""
    && Reads(payload.tree, "amount_sat", expected)
  }

  /** The query was made, and its reply has this status for the prepared payment. */
  ghost predicate Finds(env: Env, payload: Payload, preparedHash: string, expected: int, reply: Reply, word: string) {
    && Searchable(env, payload, preparedHash, expected) && reply.ReplyJson?
    && Shows(env, reply.data, Field(payload.tree, "payment_hash").text, word, expected)
  }

  /** Verification makes one query and believes exactly a deciding entry that is
      COMPLETE for the expected amount; without a reply, or an entry, it reports
      nothing verified, and it raises exactly on a deciding entry it cannot read. */
  lemma VerifyExactly(env: Env, ref: string, expected: int, kind: ActivityKind, reply: Reply)
    ensures var a := VerifyAnswer(env, ref, expected, kind, reply);
            && a.rpcs == [Activity(kind)]
            && (a.outcome.VerifyRaised? <==> reply.ReplyJson? && Unreadable(env, reply.data, ref))
            && (a.outcome.VerifyOk? ==>
                  var v := a.outcome.result;
                  && v.settlementRef == ref
                  && (v.verified <==> Believes(env, ref, expected, kind, reply))
                  && (if reply.ReplyJson? then Observes(env, reply.data, ref, v.amountSat, v.feeSat, kind == RecvKind)
                      else v.amountSat == 0 && v.feeSat == 0))
  {
    hide VerifyScan, VerifyEntry, ItemShows, ItemReceived, ItemObserved, Lists, Deciding, Entries, Legible, ParseActivity;
    if reply.ReplyJson? {
      var l, k := ReplyDecides(env, reply.data, ref, expected, kind);
      if k < |l| {
        EntryRead(env, l[k].fields);
        if ParseActivity(env, l[k].fields).Parsed? { VerdictOf(env, l[k], ref, expected, kind); }
        else { UnreadableShowsNothing(l[k], expected); }
      }
    }
  }

  lemma UnreadableShowsNothing(item: Json, amount: int)
    requires !Legible(item)
    ensures !ItemShows(item, "COMPLETE", amount) && !ItemShows(item, "PENDING", amount) && !ItemReceived(item, amount)
  {
  }

  /** Reconciliation queries exactly for an approved payload of the expected amount;
      it finds COMPLETE or PENDING exactly when the deciding entry for the prepared
      hash has that status for that amount, calls nothing but COMPLETE verified, and
      reads everything else, a failed query included, as UNKNOWN. */
  lemma ReconcileExactly(env: Env, payload: Payload, preparedHash: string, expected: int, reply: Reply)
    ensures var a := ReconcileAnswer(env, payload, preparedHash, expected, reply);
            var found := Searchable(env, payload, preparedHash, expected);
            && a.rpcs == (if found then [Activity(SendKind)] else [])
            && (a.outcome.ReconcileRaised? <==>
                  found && reply.ReplyJson? && Unreadable(env, reply.data, Field(payload.tree, "payment_hash").text))
            && (a.outcome.ReconcileOk? ==>
                  var r := a.outcome.result;
                  && (r.status == COMPLETE <==> Finds(env, payload, preparedHash, expected, reply, "COMPLETE"))
                  && (r.status == PENDING <==> Finds(env, payload, preparedHash, expected, reply, "PENDING"))
                  && (r.verified <==> r.status == COMPLETE)
                  && (found ==> r.settlementRef == Field(payload.tree, "payment_hash").text)
                  && (if found && reply.ReplyJson?
                      then Observes(env, reply.data, Field(payload.tree, "payment_hash").text, r.amountSat, r.feeSat, false)
                      else r.amountSat == 0 && r.feeSat == 0))
  {
    hide ReconcileScan, ReconcileEntry, ItemShows, ItemObserved, Lists, Deciding, Entries, Legible, ParseActivity, Reads, PyInt;
    LookupRead(env, payload, preparedHash, expected);
    if reply.ReplyJson? && Searchable(env, payload, preparedHash, expected) {
      var hash := Field(payload.tree, "payment_hash").text;
      var l, k := ReplyDecides(env, reply.data, hash, expected, SendKind);
      if k < |l| {
        EntryRead(env, l[k].fields);
        if ParseActivity(env, l[k].fields).Parsed? { VerdictOf(env, l[k], hash, expected, SendKind); }
        else { UnreadableShowsNothing(l[k], expected); }
      }
    }
  }

  /** A reply whose deciding entry cannot be read shows nothing. */
  lemma UnreadableFindsNothing(env: Env, payload: Payload, preparedHash: string, expected: int, reply: Reply)
    requires payload.JsonText? && Field(payload.tree, "payment_hash").JStr?
    requires reply.ReplyJson? && Unreadable(env, reply.data, Field(payload.tree, "payment_hash").text)
    ensures !Finds(env, payload, preparedHash, expected, reply, "COMPLETE") && !Finds(env, payload, preparedHash, expected, reply, "PENDING")
  {
    hide Lists, Skipped, Legible, ActivitySays, Searchable, Reads;
    var list := ListRead(reply.data);
    var l, k :| Lists(reply.data, l) && Deciding(env, l, Field(payload.tree, "payment_hash").text, k) && !Legible(l[k]);
    forall i | Deciding(env, l, Field(payload.tree, "payment_hash").text, i) ensures i == k {}
  }

  lemma LookupRead(env: Env, payload: Payload, preparedHash: string, expected: int)
    ensures var look := BeforeLookup(env, payload, preparedHash, expected);
            && (look.Search? <==> Searchable(env, payload, preparedHash, expected))
            && (look.Search? ==> look.paymentHash == Field(payload.tree, "payment_hash").text)
            && (look.GiveUp? ==> look.result.status == UNKNOWN && !look.result.verified && look.result.amountSat == look.result.feeSat == 0)
  {
    hide PyInt, Reads;
    if payload.JsonText? && payload.tree.JObj? { NumberRead(payload.tree.fields, "amount_sat", expected); }
    if payload.JsonText? && !payload.tree.JObj? { assert !Field(payload.tree, "payment_hash").JStr?; }
  }

  /** For a prepared payment the two adapter calls reach the same verdict on the
      same daemon reply. */
  lemma AdapterScansAgree(env: Env, p: PrepareResult, amountSat: int, maxFeeSat: int, reply: Reply)
    requires WellPrepared(env, p, amountSat, maxFeeSat)
    ensures var hash := p.payload.tree.fields["payment_hash"].text;
            var r := ReconcileAnswer(env, p.payload, p.preparedHash, amountSat, reply);
            var v := VerifyAnswer(env, hash, amountSat, SendKind, reply);
            && r.rpcs == v.rpcs == [Activity(SendKind)]
            && (r.outcome.ReconcileOk? && r.outcome.result.status == COMPLETE <==>
                  v.outcome.VerifyOk? && v.outcome.result.verified)
  {
    var hash := p.payload.tree.fields["payment_hash"].text;
    if reply.ReplyJson? { ScansAgree(env, Entries(reply.data), hash, amountSat); }
  }

  // ------------------------------------------------------------------
  // The imperative adapter
  // ------------------------------------------------------------------

  /** The executor seam: replies come from an arbitrary script, calls are
      recorded, and running out of replies is an AdapterError. */
  class WavecliExecutor {
    var responses: seq<Reply>
    var calls: seq<Rpc>

    function Upcoming(): Reply
      reads this
    {
      if responses == [] then ReplyAdapterError else responses[0]
    }

    constructor (script: seq<Reply>)
      ensures responses == script && calls == []
    {
      responses, calls := script, [];
    }

    method Run(rpc: Rpc) returns (reply: Reply)
      modifies this
      ensures reply == old(Upcoming())
      ensures calls == old(calls) + [rpc]
      ensures responses == if old(responses) == [] then [] else old(responses)[1..]
    {
      calls := calls + [rpc];
      reply := Upcoming();
      if responses != [] { responses := responses[1..]; }
    }
  }

  class WavelengthAdapter {
    const executor: WavecliExecutor
    const env: Env

    constructor (executor: WavecliExecutor, env: Env)
      ensures this.executor == executor && this.env == env
    {
      this.executor, this.env := executor, env;
    }

    method Prepare(instruction: Instruction, amountSat: int, maxFeeSat: nat, wall: int) returns (o: PrepareOutcome)
      modifies executor
      ensures var a := PrepareAnswer(env, instruction, amountSat, maxFeeSat, wall, old(executor.Upcoming()));
              o == a.outcome && executor.calls == old(executor.calls) + a.rpcs
    {
      if instruction.invoice.None? || instruction.invoice.value == "" { return PrepareAdapterError; }
      var invoice := instruction.invoice.value;
      var reply := executor.Run(PrepareSend(invoice, maxFeeSat));
      o := PrepareFrom(env, invoice, amountSat, maxFeeSat, wall, reply);
    }

    method Execute(payload: Payload, preparedHash: string, wall: int) returns (o: ExecuteOutcome)
      modifies executor
      ensures var a := ExecuteAnswer(env, payload, preparedHash, wall, old(executor.Upcoming()));
              o == a.outcome && executor.calls == old(executor.calls) + a.rpcs
    {
      var check := BeforeSend(env, payload, preparedHash, wall);
      if check.Stop? { return check.outcome; }
      var reply := executor.Run(Send(check.sendIntentId));
      o := AfterSend(env, check.fields, reply);
    }

    method ReconcileSettlement(payload: Payload, preparedHash: string, expected: int) returns (o: ReconcileOutcome)
      modifies executor
      ensures var a := ReconcileAnswer(env, payload, preparedHash, expected, old(executor.Upcoming()));
              o == a.outcome && executor.calls == old(executor.calls) + a.rpcs
    {
      var lookup := BeforeLookup(env, payload, preparedHash, expected);
      if lookup.GiveUp? { return ReconcileOk(lookup.result); }
      var hash := lookup.paymentHash;
      var reply := executor.Run(Activity(SendKind));
      var unknown := ReconcileResult(UNKNOWN, hash, 0, 0, None, false);
      if !reply.ReplyJson? { return ReconcileOk(unknown); }
      var entries := Entries(reply.data);
      for i := 0 to |entries|
        invariant ReconcileScan(env, entries, hash, expected) == ReconcileScan(env, entries[i..], hash, expected)
      {
        assert entries[i..][1..] == entries[i + 1..];
        var parsed := ParseActivity(env, entries[i]);
        if parsed.Malformed? { return ReconcileRaised; }
        if parsed.paymentHash == hash {
          var observed := Abs(parsed.amountSat);
          if observed != expected {
            return ReconcileOk(ReconcileResult(UNKNOWN, hash, observed, parsed.feeSat, None, false));
          }
          if parsed.status == "COMPLETE" {
            return ReconcileOk(ReconcileResult(COMPLETE, hash, observed, parsed.feeSat, Some(Lightning), true));
          }
          if parsed.status == "PENDING" {
            return ReconcileOk(ReconcileResult(PENDING, hash, observed, parsed.feeSat, Some(Lightning), false));
          }
          return ReconcileOk(ReconcileResult(UNKNOWN, hash, observed, parsed.feeSat, Some(Lightning), false));
        }
      }
      o := ReconcileOk(unknown);
    }

    method VerifyActivity(settlementRef: string, expected: int, kind: ActivityKind) returns (o: VerifyOutcome)
      modifies executor
      ensures var a := VerifyAnswer(env, settlementRef, expected, kind, old(executor.Upcoming()));
              o == a.outcome && executor.calls == old(executor.calls) + a.rpcs
    {
      var reply := executor.Run(Activity(kind));
      var unverified := VerifyResult(false, settlementRef, 0, 0);
      if !reply.ReplyJson? { return VerifyOk(unverified); }
      var entries := Entries(reply.data);
      for i := 0 to |entries|
        invariant VerifyScan(env, entries, settlementRef, expected, kind) == VerifyScan(env, entries[i..], settlementRef, expected, kind)
      {
        assert entries[i..][1..] == entries[i + 1..];
        var parsed := ParseActivity(env, entries[i]);
        if parsed.Malformed? { return VerifyRaised; }
        if parsed.paymentHash == settlementRef {
          var amount := parsed.amountSat;
          if kind == SendKind { amount := Abs(amount); }
          if parsed.status != "COMPLETE" {
            return VerifyOk(VerifyResult(false, settlementRef, amount, parsed.feeSat));
          }
          if amount != expected {
            return VerifyOk(VerifyResult(false, settlementRef, amount, parsed.feeSat));
          }
          return VerifyOk(VerifyResult(true, settlementRef, amount, parsed.feeSat));
        }
      }
      o := VerifyOk(unverified);
    }
  }
}
