/**
 The payment ledger: what each gateway operation and each processed transaction does to a stored payment row,
 as functions.
 */
module Payments {
  import opened Ledger

  datatype Kind =
    | Auth | Capture | CaptureFailed | ActionToConfirm | Void | Pending | Refund
    | RefundOngoing | RefundFailed | RefundReversed | Confirm | Cancel

  datatype ChargeStatus =
    | NotCharged | Awaiting | PartiallyCharged | FullyCharged
    | PartiallyRefunded | FullyRefunded | Refused | Cancelled

  datatype Transaction = Transaction(
    kind: Kind, amount: int, success: bool, actionRequired: bool, token: nat, processed: bool)

  /** A gateway's answer; `already` says the gateway reported this operation before. */
  datatype Response = Response(
    kind: Kind, amount: int, success: bool, actionRequired: bool, token: nat, already: bool)

  /** A payment row with its transactions. Amounts are in minor units of one currency. */
  datatype Payment = Payment(
    total: nat, manual: bool, captured: int, status: ChargeStatus, active: bool, toConfirm: bool,
    txns: seq<Transaction>)

  datatype Reply = Done(txn: nat) | PaymentError

  // ----- payment/models.py -----

  predicate NotYetCharged(p: Payment) { p.active && p.status == NotCharged }

  predicate IsAuthorized(p: Payment) {
    exists t | t in p.txns :: t.kind == Auth && t.success && !t.actionRequired
  }

  predicate CanVoid(p: Payment) { NotYetCharged(p) && IsAuthorized(p) }

  predicate CanRefund(p: Payment) {
    p.active && p.status in {PartiallyCharged, FullyCharged, PartiallyRefunded} && !p.manual
  }

  /** A successful transaction of this kind exists, so there is a token to refer to. */
  predicate HasPast(p: Payment, kind: Kind) {
    exists t | t in p.txns :: t.kind == kind && t.success
  }

  // ----- payment/utils.py -----

  /** The stored payment row after a transaction of this kind and amount is processed. Capturing also sets
      `is_active` on the object in memory, but does not list it among the fields to save. */
  function Applied(p: Payment, kind: Kind, amount: int): Payment {
    match kind
    case Capture | RefundReversed =>
      var captured := p.captured + amount;
      p.(captured := captured, status := if p.total - captured <= 0 then FullyCharged else PartiallyCharged)
    case Void => p.(active := false)
    case Refund =>
      var captured := p.captured - amount;
      if captured <= 0 then p.(captured := captured, status := FullyRefunded, active := false)
      else p.(captured := captured, status := PartiallyRefunded)
    case Pending => p.(status := Awaiting)
    case Cancel => p.(status := Cancelled)
    case CaptureFailed =>
      if p.status !in {PartiallyCharged, FullyCharged} then p
      else
        var captured := p.captured - amount;
        p.(captured := captured, status := if captured <= 0 then NotCharged else PartiallyCharged)
    case _ => p
  }

  /** `gateway_postprocess` on transaction i. */
  function Settle(p: Payment, i: nat): Payment
    requires i < |p.txns|
  {
    var t := p.txns[i];
    if !t.success then p
    else if t.actionRequired then p.(toConfirm := true)
    else if t.processed then p
    else Applied(p, t.kind, t.amount).(toConfirm := false, txns := p.txns[i := t.(processed := true)])
  }

  /** `validate_gateway_response`: answers of a kind that is not offered to gateways are dropped. */
  function Validated(response: Option<Response>): Option<Response> {
    if response.Some? && response.value.kind in {CaptureFailed, RefundFailed, RefundReversed}
    then None else response
  }

  predicate Matches(t: Transaction, r: Response) {
    && t.success == r.success && t.actionRequired == r.actionRequired
    && t.token == r.token && t.kind == r.kind && t.amount == r.amount
  }

  /** The last transaction that matches the response. */
  function FindTxn(txns: seq<Transaction>, r: Response): (found: Option<nat>)
    ensures found.Some? ==> found.value < |txns| && Matches(txns[found.value], r)
  {
    if txns == [] then None
    else if Matches(txns[|txns| - 1], r) then Some(|txns| - 1)
    else FindTxn(txns[..|txns| - 1], r)
  }

  /** What a gateway call asks for, apart from the payment. */
  datatype Query = Query(kind: Kind, amount: int, token: nat, mayRequireAction: bool)

  /** The transaction row a response leaves behind; no response leaves a failed one. */
  function NewTxn(query: Query, response: Option<Response>): Transaction {
    match response
    case Some(r) =>
      Transaction(r.kind, r.amount, r.success, query.mayRequireAction && r.actionRequired, r.token, false)
    case None => Transaction(query.kind, query.amount, false, false, query.token, false)
  }

  /** `get_already_processed_transaction_or_create_new_transaction` */
  function Booked(p: Payment, query: Query, response: Option<Response>): (r: (Payment, nat))
    ensures r.1 < |r.0.txns|
  {
    var found := if response.Some? && response.value.already then FindTxn(p.txns, response.value) else None;
    if found.Some? then (p, found.value)
    else (p.(txns := p.txns + [NewTxn(query, response)]), |p.txns|)
  }

  /** Book the gateway's answer and post-process it; an unsuccessful transaction is an error. */
  function Exchanged(p: Payment, query: Query, response: Option<Response>): (Payment, Reply) {
    var (booked, i) := Booked(p, query, Validated(response));
    var settled := Settle(booked, i);
    (settled, if booked.txns[i].success then Done(i) else PaymentError)
  }

  // ----- payment/gateway.py -----

  /** The token of the last successful transaction of a kind, for the gateway; 0 stands for none. */
  function PastToken(txns: seq<Transaction>, kind: Kind): nat {
    if txns == [] then 0
    else
      var last := txns[|txns| - 1];
      if last.kind == kind && last.success then last.token else PastToken(txns[..|txns| - 1], kind)
  }

  /** A gateway operation. `snapshot` is the caller's possibly stale view of `is_active`; the row itself is
      read again under the lock. */
  datatype Call =
    | ProcessPayment(snapshot: bool, token: nat, response: Option<Response>)
    | Authorize(snapshot: bool, token: nat, response: Option<Response>)
    | CaptureCall(snapshot: bool, requested: Option<int>, response: Option<Response>)
    | RefundCall(snapshot: bool, requested: Option<int>, response: Option<Response>)
    | VoidCall(snapshot: bool, response: Option<Response>)
    | ConfirmCall(snapshot: bool, response: Option<Response>)

  function CaptureAmount(p: Payment, requested: Option<int>): int {
    if requested.Some? then requested.value else p.total - p.captured
  }

  function RefundAmount(p: Payment, requested: Option<int>): int {
    if requested.Some? then requested.value else p.captured
  }

  /** The guards evaluated on the locked row. */
  predicate Admitted(p: Payment, call: Call) {
    match call
    case ProcessPayment(_, _, _) => true
    case Authorize(_, _, _) => NotYetCharged(p)
    case CaptureCall(_, requested, _) =>
      var amount := CaptureAmount(p, requested);
      amount > 0 && NotYetCharged(p) && amount <= p.total && amount <= p.total - p.captured && HasPast(p, Auth)
    case RefundCall(_, requested, _) =>
      var amount := RefundAmount(p, requested);
      0 < amount <= p.captured && CanRefund(p) && HasPast(p, Capture)
    case VoidCall(_, _) => HasPast(p, Auth)
    case ConfirmCall(_, _) => true
  }

  function QueryOf(p: Payment, call: Call): Query {
    match call
    case ProcessPayment(_, token, _) => Query(Capture, p.total, token, true)
    case Authorize(_, token, _) => Query(Auth, p.total, token, false)
    case CaptureCall(_, requested, _) =>
      Query(Capture, CaptureAmount(p, requested), PastToken(p.txns, Auth), false)
    case RefundCall(_, requested, _) =>
      Query(Refund, RefundAmount(p, requested), PastToken(p.txns, Capture), false)
    case VoidCall(_, _) => Query(Void, p.total, PastToken(p.txns, Auth), false)
    case ConfirmCall(_, _) => Query(Confirm, p.total, PastToken(p.txns, ActionToConfirm), true)
  }

  /** One gateway operation, decorators included; `capture` post-processes its transaction twice. */
  function Called(p: Payment, call: Call): (Payment, Reply) {
    if !call.snapshot || !Admitted(p, call) then (p, PaymentError)
    else
      var (next, reply) := Exchanged(p, QueryOf(p, call), call.response);
      if call.CaptureCall? && reply.Done? && reply.txn < |next.txns| then (Settle(next, reply.txn), reply)
      else (next, reply)
  }

  /** `payment_refund_or_void`, with one gateway answer for whichever call it makes. */
  function RefundOrVoid(p: Payment, response: Option<Response>): (Payment, Reply) {
    if CanRefund(p) then Called(p, RefundCall(true, None, response))
    else if CanVoid(p) then Called(p, VoidCall(true, response))
    else (p, Done(0))
  }
}
