/** Small result types shared by the modules. */
module Wrappers {
  datatype Option<+T> = None | Some(value: T)
}

/** The payment messages and adapter results that cross module boundaries.
    Every string field is an arbitrary string; `Env` holds the functions the
    program calls but does not define. */
module Model {
  import opened Wrappers

  type pos = x: int | x > 0 witness 1

  // A JSON document, as the daemon and the prepared payload carry it.
  datatype Json =
    | JNull
    | JBool(flag: bool)
    | JInt(number: int)
    | JStr(text: string)
    | JList(items: seq<Json>)
    | JObj(fields: map<string, Json>)

  /** Prepared payload bytes, seen through the JSON decoder. */
  datatype Payload = NotJson(raw: seq<nat>) | JsonText(tree: Json)

  datatype Rail = Lightning

  datatype Instruction = Instruction(rail: Rail, invoice: Option<string>)

  datatype Intent = Intent(
    id: string, sender: string, recipient: string,
    amountSat: pos, maxFeeSat: nat, expiresAt: int)

  datatype Quote = Quote(
    intentId: string, quoteId: string, recipient: string,
    instruction: Instruction, feeSat: nat, expiresAt: int)

  datatype Approval = Approval(
    intentId: string, quoteId: string, preparedHash: string, approver: string)

  datatype Receipt = Receipt(
    intentId: string, quoteId: string, recipient: string,
    settlementRef: string, amountSat: pos, feeSat: nat, rail: Rail)

  /** PaymentApproval is local: it has no author a transport would accept. */
  datatype Message =
    | IntentMessage(intent: Intent)
    | QuoteMessage(quote: Quote)
    | ReceiptMessage(receipt: Receipt)
    | ApprovalMessage(approval: Approval)

  datatype PeerMessage = PeerMessage(
    messageId: string, message: Message, author: string, publishedAt: int)

  function MessageAuthor(m: Message): Option<string> {
    match m
    case IntentMessage(i) => Some(i.sender)
    case QuoteMessage(q) => Some(q.recipient)
    case ReceiptMessage(r) => Some(r.recipient)
    case ApprovalMessage(_) => None
  }

  datatype PrepareResult = PrepareResult(
    feeSat: int, preparedHash: string, rail: Rail, payload: Payload)

  datatype ReconcileStatus = COMPLETE | PENDING | UNKNOWN

  datatype ReconcileResult = ReconcileResult(
    status: ReconcileStatus, settlementRef: string,
    amountSat: int, feeSat: int, rail: Option<Rail>, verified: bool)

  datatype VerifyResult = VerifyResult(
    verified: bool, settlementRef: string, amountSat: int, feeSat: int)

  /** What an adapter call can do: return, raise AdapterError (AmbiguousResult is
      one), or raise anything else. */
  datatype PrepareOutcome =
    | PrepareOk(result: PrepareResult) | PrepareAdapterError | PrepareOtherError

  datatype ExecuteOutcome =
    | ExecuteOk(settlementRef: string, amountSat: int, feeSat: int, rail: Rail)
    | ExecuteAmbiguous | ExecuteAdapterError | ExecuteOtherError

  datatype ReconcileOutcome = ReconcileOk(result: ReconcileResult) | ReconcileRaised

  datatype VerifyOutcome = VerifyOk(result: VerifyResult) | VerifyRaised

  /** One call made to the wallet daemon. */
  datatype Rpc =
    | PrepareSend(invoice: string, maxFeeSat: nat)
    | Send(sendIntentId: Json)
    | Activity(kind: ActivityKind)

  datatype ActivityKind = SendKind | RecvKind

  /** An adapter outcome with the daemon calls made on the way. */
  datatype Answer<T> = Answer(rpcs: seq<Rpc>, outcome: T)

  /** Functions supplied from outside: SHA-256 over payload bytes, the inside of the
      text Python prints for a list or an object, and the two allowlist hooks. */
  datatype Env = Env(
    sha: Payload -> string,
    repr: Json -> string,
    recipientOk: string -> bool,
    railOk: Rail -> bool)
}
