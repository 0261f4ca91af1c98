/** The parsers of daemon replies: numbers, statuses and hashes in a JSON tree, and
    the replies to PrepareSend, Send and activity. */
module Parsing {
  import opened Wrappers
  import opened Model

  // ------------------------------------------------------------------
  // JSON access, as Python sees it
  // ------------------------------------------------------------------

  type Fields = map<string, Json>

  function Get(o: Fields, key: string, default: Json): Json {
    if key in o then o[key] else default
  }

  predicate Truthy(j: Json) {
    match j
    case JNull => false
    case JBool(b) => b
    case JInt(n) => n != 0
    case JStr(s) => s != ""
    case JList(l) => l != []
    case JObj(f) => f != map[]
  }

  function DecimalDigits(n: nat): string {
    (if n < 10 then "" else DecimalDigits(n / 10)) + [(n % 10 + '0' as int) as char]
  }

  function Decimal(n: int): string {
    if n < 0 then "-" + DecimalDigits(-n) else DecimalDigits(n)
  }

  /** A JSON value as text; `Env` prints what stands between the brackets. */
  function Text(env: Env, j: Json): string {
    match j
    case JNull => "None"
    case JBool(b) => if b then "True" else "False"
    case JInt(n) => Decimal(n)
    case JStr(s) => s
    case JList(_) => "[" + env.repr(j) + "]"
    case JObj(_) => "{" + env.repr(j) + "}"
  }

  predicate IsDigit(c: char) { '0' <= c <= '9' }

  function Digits(s: string): Option<nat> {
    if s == [] then Some(0)
    else
      var rest := Digits(s[..|s| - 1]);
      var c := s[|s| - 1];
      if rest.None? || !IsDigit(c) then None
      else Some(rest.value * 10 + (c as int - '0' as int))
  }

  /** An optional sign and at least one digit. */
  function ParseInt(s: string): Option<int> {
    var signed := s != "" && (s[0] == '-' || s[0] == '+');
    var body := if signed then s[1..] else s;
    var n := Digits(body);
    if body == "" || n.None? then None
    else
      var magnitude: int := n.value;
      Some(if s[0] == '-' then -magnitude else magnitude)
  }

  /** _coerce_numeric: a bool is refused. */
  function Coerce(j: Json): Option<int> {
    match j
    case JInt(n) => Some(n)
    case JStr(s) => ParseInt(s)
    case _ => None
  }

  /** A number read out of a reply: booleans and digit strings convert, None stands for the raise on anything else. */
  function PyInt(j: Json): Option<int> {
    match j
    case JInt(n) => Some(n)
    case JBool(b) => Some(if b then 1 else 0)
    case JStr(s) => ParseInt(s)
    case _ => None
  }

  /** The value where it already is a number, which a boolean is too. */
  function AsInt(j: Json): Option<int> {
    match j
    case JInt(n) => Some(n)
    case JBool(b) => Some(if b then 1 else 0)
    case _ => None
  }

  function Upper(s: string): string {
    seq(|s|, i requires 0 <= i < |s| => if 'a' <= s[i] <= 'z' then (s[i] as int - 32) as char else s[i])
  }

  const STATUS_PREFIX := "ENTRY_STATUS_"

  /** The text without any occurrence of the enum prefix, scanned from the left. */
  function DropPrefixes(s: string): string {
    if |s| < |STATUS_PREFIX| then s
    else if s[..|STATUS_PREFIX|] == STATUS_PREFIX then DropPrefixes(s[|STATUS_PREFIX|..])
    else [s[0]] + DropPrefixes(s[1..])
  }

  function NormalStatus(s: string): string { DropPrefixes(Upper(s)) }

  // ------------------------------------------------------------------
  // PrepareSend
  // ------------------------------------------------------------------

  datatype Preview = Preview(
    sendIntentId: Json, amountSat: int, feeSat: int, totalSat: int,
    paymentHash: string, expiresAt: int, rail: Json, quoteStatus: Json)

  /** _parse_prepare_response; None stands for AdapterError. */
  function ParsePrepare(data: Json): Option<Preview> {
    if !data.JObj? then None
    else
      var o := data.fields;
      var sid := Get(o, "send_intent_id", JStr(""));
      var expires := Coerce(Get(o, "expires_at_unix", JInt(0)));
      var fee := Coerce(Get(o, "expected_fee_sat", JInt(0)));
      var total := Coerce(Get(o, "expected_total_outflow_sat", JInt(0)));
      var amount := Coerce(Get(o, "amount_sat", JInt(0)));
      var hash := Get(o, "payment_hash", JStr(""));
      if !Truthy(sid) || expires.None? || fee.None? || !Truthy(Get(o, "fee_known", JBool(false))) then None
      else if total.None? || !Truthy(Get(o, "total_outflow_known", JBool(false))) then None
      else if !hash.JStr? || hash.text == "" || amount.None? then None
      else Some(Preview(sid, amount.value, fee.value, total.value, hash.text, expires.value,
                        Get(o, "rail", JStr("")), Get(o, "quote_status", JStr(""))))
  }

  // ------------------------------------------------------------------
  // Send
  // ------------------------------------------------------------------

  /** _extract_payment_hash. */
  function ExtractHash(env: Env, entry: Fields): string {
    var top := Get(entry, "payment_hash", JStr(""));
    if Truthy(top) then Text(env, top)
    else
      var progress := Get(entry, "progress", JObj(map[]));
      var inProgress := if progress.JObj? then Get(progress.fields, "payment_hash", JStr("")) else JStr("");
      if Truthy(inProgress) then Text(env, inProgress)
      else
        var request := Get(entry, "request", JObj(map[]));
        var ln := if request.JObj? then Get(request.fields, "lightning_invoice", JObj(map[])) else JNull;
        var inRequest := if ln.JObj? then Get(ln.fields, "payment_hash", JStr("")) else JStr("");
        if Truthy(inRequest) then Text(env, inRequest) else ""
  }

  /** SendRaised: an amount or fee does not convert to a number, and the raise escapes the adapter. */
  datatype SendReply =
    | SendReply(entryId: Json, paymentHash: Json, amountSat: int, feeSat: int, status: string)
    | SendAdapterError | SendRaised

  function SendStatus(env: Env, raw: Json): string {
    match raw
    case JStr(s) => NormalStatus(s)
    case _ =>
      match AsInt(raw)
      case None => Text(env, raw)
      case Some(n) =>
        if n == 0 then "UNSPECIFIED" else if n == 1 then "PENDING"
        else if n == 2 then "COMPLETE" else if n == 3 then "FAILED" else Decimal(n)
  }

  /** _parse_send_response. */
  function ParseSend(env: Env, data: Json): SendReply {
    if !data.JObj? then SendAdapterError
    else
      var entryJson := Get(data.fields, "entry", JNull);
      if !entryJson.JObj? then SendAdapterError
      else
        var entry := entryJson.fields;
        var entryId := Get(entry, "id", JStr(""));
        if !Truthy(entryId) then SendAdapterError
        else
          var found := ExtractHash(env, entry);
          var hash := if found == "" then entryId else JStr(found);
          var actual := PyInt(Get(data.fields, "actual_amount_sat", JInt(0)));
          var amount := if actual == Some(0) then PyInt(Get(entry, "amount_sat", JInt(0))) else actual;
          var fee := PyInt(Get(entry, "fee_sat", JInt(0)));
          if amount.None? || fee.None? then SendRaised
          else SendReply(entryId, hash, amount.value, fee.value, SendStatus(env, Get(entry, "status", JStr("UNSPECIFIED"))))
  }

  // ------------------------------------------------------------------
  // Activity
  // ------------------------------------------------------------------

  /** The JSON objects of a list, in order; everything else is dropped. */
  function Objects(l: seq<Json>): seq<Fields> {
    if l == [] then []
    else Objects(l[..|l| - 1]) + if l[|l| - 1].JObj? then [l[|l| - 1].fields] else []
  }

  /** _activity_entries. */
  function Entries(data: Json): seq<Fields> {
    if data.JList? then Objects(data.items)
    else if !data.JObj? then []
    else
      var activity := Get(data.fields, "activity", JNull);
      var o := if activity.JObj? then activity.fields else data.fields;
      var first := Get(o, "entries", Get(o, "items", Get(o, "recent", JList([]))));
      var single := Get(o, "entry", JNull);
      var candidate := if !Truthy(first) && single.JObj? then JList([single]) else first;
      if candidate.JObj? then [candidate.fields]
      else if candidate.JList? then Objects(candidate.items)
      else []
  }

  /** Malformed: the amount or fee does not convert, which neither scan catches. */
  datatype Parsed = Malformed | Parsed(status: string, amountSat: int, feeSat: int, paymentHash: string)

  /** _parse_activity_entry. */
  function ParseActivity(env: Env, data: Fields): Parsed {
    var entry := if "entry" in data && data["entry"].JObj? then data["entry"].fields else data;
    var raw := Get(entry, "status", JStr("UNSPECIFIED"));
    var status := if raw.JStr? then NormalStatus(raw.text) else Text(env, raw);
    var amount := PyInt(Get(entry, "amount_sat", JInt(0)));
    var fee := PyInt(Get(entry, "fee_sat", JInt(0)));
    if amount.None? || fee.None? then Malformed
    else Parsed(status, amount.value, fee.value, ExtractHash(env, entry))
  }
}
