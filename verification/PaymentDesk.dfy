/**
 A stored payment row, with its transactions, as an object that the gateway operations update in place.
 */
module PaymentDesk {
  import opened Ledger
  import opened Payments

  class PaymentRow {
    const total: nat
    const manual: bool
    var capturedAmount: int
    var chargeStatus: ChargeStatus
    var isActive: bool
    var toConfirm: bool
    var transactions: seq<Transaction>

    constructor (total: nat, manual: bool)
      ensures Row() == Payment(total, manual, 0, NotCharged, true, false, [])
    {
      this.total, this.manual, capturedAmount, chargeStatus := total, manual, 0, NotCharged;
      isActive, toConfirm, transactions := true, false, [];
    }

    function Row(): Payment
      reads this
    {
      Payment(total, manual, capturedAmount, chargeStatus, isActive, toConfirm, transactions)
    }

    method GatewayPostprocess(i: nat)
      requires i < |transactions|
      modifies this
      ensures Row() == Settle(old(Row()), i)
    {
      var transaction := transactions[i];
      if !transaction.success { return; }
      if transaction.actionRequired {
        toConfirm := true;
        return;
      }
      if transaction.processed { return; }
      if toConfirm { toConfirm := false; }
      match transaction.kind {
        case Capture | RefundReversed =>
          capturedAmount := capturedAmount + transaction.amount;
          chargeStatus := PartiallyCharged;
          if total - capturedAmount <= 0 { chargeStatus := FullyCharged; }
        case Void =>
          isActive := false;
        case Refund =>
          capturedAmount := capturedAmount - transaction.amount;
          chargeStatus := PartiallyRefunded;
          if capturedAmount <= 0 {
            chargeStatus := FullyRefunded;
            isActive := false;
          }
        case Pending => chargeStatus := Awaiting;
        case Cancel => chargeStatus := Cancelled;
        case CaptureFailed =>
          if chargeStatus in {PartiallyCharged, FullyCharged} {
            capturedAmount := capturedAmount - transaction.amount;
            chargeStatus := PartiallyCharged;
            if capturedAmount <= 0 { chargeStatus := NotCharged; }
          }
        case _ =>
      }
      transactions := transactions[i := transaction.(processed := true)];
    }

    method GetOrCreateTransaction(query: Query, response: Option<Response>) returns (i: nat)
      modifies `transactions
      ensures (Row(), i) == Booked(old(Row()), query, response)
    {
      if response.Some? && response.value.already {
        var found := FindTxn(transactions, response.value);
        if found.Some? { return found.value; }
      }
      i := |transactions|;
      transactions := transactions + [NewTxn(query, response)];
    }

    /** The part every operation shares: fetch, book, post-process, and raise on an unsuccessful result. */
    method Exchange(query: Query, response: Option<Response>) returns (reply: Reply)
      modifies this
      ensures (Row(), reply) == Exchanged(old(Row()), query, response)
      ensures reply.Done? ==> reply.txn < |transactions|
    {
      var i := GetOrCreateTransaction(query, Validated(response));
      var success := transactions[i].success;
      GatewayPostprocess(i);
      return if success then Done(i) else PaymentError;
    }

    method Process(snapshot: bool, token: nat, response: Option<Response>) returns (reply: Reply)
      modifies this
      ensures (Row(), reply) == Called(old(Row()), ProcessPayment(snapshot, token, response))
      ensures reply.Done? ==> reply.txn < |transactions|
    {
      if !snapshot { return PaymentError; }
      reply := Exchange(Query(Capture, total, token, true), response);
    }

    method DoAuthorize(snapshot: bool, token: nat, response: Option<Response>) returns (reply: Reply)
      modifies this
      ensures (Row(), reply) == Called(old(Row()), Authorize(snapshot, token, response))
    {
      if !snapshot || !NotYetCharged(Row()) { return PaymentError; }
      reply := Exchange(Query(Auth, total, token, false), response);
    }

    method DoCapture(snapshot: bool, requested: Option<int>, response: Option<Response>) returns (reply: Reply)
      modifies this
      ensures (Row(), reply) == Called(old(Row()), CaptureCall(snapshot, requested, response))
    {
      if !snapshot { return PaymentError; }
      var amount := if requested.Some? then requested.value else total - capturedAmount;
      if amount <= 0 || !NotYetCharged(Row()) || amount > total || amount > total - capturedAmount {
        return PaymentError;
      }
      if !HasPast(Row(), Auth) { return PaymentError; }
      reply := Exchange(Query(Capture, amount, PastToken(transactions, Auth), false), response);
      if reply.Done? { GatewayPostprocess(reply.txn); }
    }

    method DoRefund(snapshot: bool, requested: Option<int>, response: Option<Response>) returns (reply: Reply)
      modifies this
      ensures (Row(), reply) == Called(old(Row()), RefundCall(snapshot, requested, response))
    {
      if !snapshot { return PaymentError; }
      var amount := if requested.Some? then requested.value else capturedAmount;
      if amount <= 0 || amount > capturedAmount || !CanRefund(Row()) || !HasPast(Row(), Capture) {
        return PaymentError;
      }
      reply := Exchange(Query(Refund, amount, PastToken(transactions, Capture), false), response);
    }

    method DoVoid(snapshot: bool, response: Option<Response>) returns (reply: Reply)
      modifies this
      ensures (Row(), reply) == Called(old(Row()), VoidCall(snapshot, response))
    {
      if !snapshot || !HasPast(Row(), Auth) { return PaymentError; }
      reply := Exchange(Query(Void, total, PastToken(transactions, Auth), false), response);
    }

    method DoConfirm(snapshot: bool, response: Option<Response>) returns (reply: Reply)
      modifies this
      ensures (Row(), reply) == Called(old(Row()), ConfirmCall(snapshot, response))
      ensures reply.Done? ==> reply.txn < |transactions|
    {
      if !snapshot { return PaymentError; }
      reply := Exchange(Query(Confirm, total, PastToken(transactions, ActionToConfirm), true), response);
    }

    method DoRefundOrVoid(response: Option<Response>) returns (reply: Reply)
      modifies this
      ensures (Row(), reply) == RefundOrVoid(old(Row()), response)
    {
      if CanRefund(Row()) {
        reply := DoRefund(isActive, None, response);
      } else if CanVoid(Row()) {
        reply := DoVoid(isActive, response);
      } else {
        reply := Done(0);
      }
    }
  }
}
