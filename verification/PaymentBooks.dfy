/**
 Bookkeeping: the captured amount against the transactions that were processed, over every mixture of
 gateway operations and notifications, whatever the gateway answers.
 */
module PaymentBooks {
  import opened Sums
  import opened Ledger
  import opened Payments
  import opened PaymentLaws

  /** What a transaction, once processed, stands for. */
  function Signed(t: Transaction): int {
    if t.processed then Worth(t.kind, t.amount) else 0
  }

  function Worth(kind: Kind, amount: int): int {
    match kind
    case Capture | RefundReversed => amount
    case Refund | CaptureFailed => -amount
    case _ => 0
  }

  function Entries(txns: seq<Transaction>): nat -> int {
    (i: nat) => if i < |txns| then Signed(txns[i]) else 0
  }

  /** Captured money that no processed transaction accounts for. */
  function Drift(p: Payment): int {
    p.captured - Sum(|p.txns|, Entries(p.txns))
  }

  /** A notice that a capture failed, on a payment that is not in a charged status: it is marked as processed
      and its amount stays captured. */
  ghost predicate Dropped(p: Payment, i: nat)
    requires i < |p.txns|
  {
    !Spent(p, i) && p.txns[i].kind == CaptureFailed && p.status !in {PartiallyCharged, FullyCharged}
  }

  lemma {:induction false} AppliedWorth(p: Payment, kind: Kind, amount: int)
    ensures Applied(p, kind, amount).captured
         == p.captured + if kind == CaptureFailed && p.status !in {PartiallyCharged, FullyCharged} then 0
                         else Worth(kind, amount)
  {
  }

  /** Processing a transaction keeps the books, and a dropped notice puts them out by its amount. */
  lemma {:induction false} SettleBooks(p: Payment, i: nat)
    requires i < |p.txns|
    ensures Drift(Settle(p, i)) == Drift(p) + if Dropped(p, i) then p.txns[i].amount else 0
  {
    var next := Settle(p, i);
    AppliedFrame(p, p.txns[i].kind, p.txns[i].amount);
    AppliedWorth(p, p.txns[i].kind, p.txns[i].amount);
    hide Applied, Worth;
    if !Spent(p, i) {
      SumPoint(|p.txns|, Entries(p.txns), Entries(next.txns), i);
    }
  }

  /** A new row counts for nothing until it is processed. */
  lemma {:induction false} NewRowBooks(p: Payment, t: Transaction)
    requires !t.processed
    ensures Drift(p.(txns := p.txns + [t])) == Drift(p)
  {
    SumEq(|p.txns|, Entries(p.txns), Entries(p.txns + [t]));
  }

  lemma {:induction false} BookedBooks(p: Payment, query: Query, response: Option<Response>)
    requires query.kind != CaptureFailed
    ensures var (booked, i) := Booked(p, query, Validated(response));
            Drift(booked) == Drift(p) && booked.txns[i].kind != CaptureFailed
  {
    NewRowBooks(p, NewTxn(query, Validated(response)));
  }

  lemma {:induction false} SettleKind(p: Payment, i: nat)
    requires i < |p.txns|
    ensures i < |Settle(p, i).txns| && Settle(p, i).txns[i].kind == p.txns[i].kind
  {
    AppliedFrame(p, p.txns[i].kind, p.txns[i].amount);
  }

  /** No gateway operation puts the books out, whatever the gateway answers and however stale the snapshot. */
  lemma {:induction false} CallBooks(p: Payment, call: Call)
    ensures Drift(Called(p, call).0) == Drift(p)
  {
    if call.snapshot && Admitted(p, call) {
      var query := QueryOf(p, call);
      var (booked, i) := Booked(p, query, Validated(call.response));
      BookedBooks(p, query, call.response);
      SettleBooks(booked, i);
      SettleKind(booked, i);
      SettleBooks(Settle(booked, i), i);
      hide Settle, Drift, Admitted, Booked, Validated;
    }
  }

  // ----- runs -----

  /** A gateway operation, or a notification from the provider that adds a transaction and processes it. */
  datatype Entry = Operation(call: Call) | Notice(txn: Transaction)

  function Received(p: Payment, t: Transaction): Payment {
    p.(txns := p.txns + [t.(processed := false)])
  }

  function Entered(p: Payment, e: Entry): Payment {
    match e
    case Operation(call) => Called(p, call).0
    case Notice(t) => Settle(Received(p, t), |p.txns|)
  }

  function EnterAll(p: Payment, entries: seq<Entry>): Payment
    decreases |entries|
  {
    if entries == [] then p else EnterAll(Entered(p, entries[0]), entries[1..])
  }

  ghost predicate NoneDropped(p: Payment, entries: seq<Entry>)
    decreases |entries|
  {
    entries != [] ==>
      && (entries[0].Notice? ==> !Dropped(Received(p, entries[0].txn), |p.txns|))
      && NoneDropped(Entered(p, entries[0]), entries[1..])
  }

  /** Over every run, with arbitrary gateways, the captured amount never falls behind the processed captures and
      reversed refunds less refunds and failed captures, and it agrees with them exactly when no notice of a
      failed capture was dropped. */
  lemma {:induction false} BooksBalance(p: Payment, entries: seq<Entry>)
    requires forall e | e in entries && e.Notice? :: e.txn.amount > 0
    ensures Drift(EnterAll(p, entries)) >= Drift(p)
    ensures Drift(EnterAll(p, entries)) == Drift(p) <==> NoneDropped(p, entries)
    decreases |entries|
  {
    if entries != [] {
      match entries[0] {
        case Operation(call) => CallBooks(p, call);
        case Notice(t) =>
          NewRowBooks(p, t.(processed := false));
          SettleBooks(Received(p, t), |p.txns|);
      }
      hide Drift, Settle, Called, Dropped;
      BooksBalance(Entered(p, entries[0]), entries[1..]);
    }
  }

  lemma {:induction false} ThreeEntries(p: Payment, a: Entry, b: Entry, c: Entry)
    ensures EnterAll(p, [a, b, c]) == Entered(Entered(Entered(p, a), b), c)
    ensures var before := Entered(Entered(p, a), b);
            NoneDropped(p, [a, b, c]) && c.Notice? ==> !Dropped(Received(before, c.txn), |before.txns|)
  {
    hide Entered, Dropped;
    assert [a, b, c][1..] == [b, c] && [b, c][1..] == [c] && [c][1..] == [];
    assert EnterAll(Entered(Entered(p, a), b), [c]) == Entered(Entered(Entered(p, a), b), c);
    assert NoneDropped(p, [a, b, c]) ==> NoneDropped(Entered(p, a), [b, c]);
    assert NoneDropped(Entered(p, a), [b, c]) ==> NoneDropped(Entered(Entered(p, a), b), [c]);
  }

  /** A payment of ten is charged, five are refunded, and then a notice says that the charge failed: five stay
      recorded as captured, although nothing was. */
  lemma {:induction false} FailureDropped()
    ensures var start := Payment(10, false, 0, NotCharged, true, false, []);
            var charge := ProcessPayment(true, 1, Some(Response(Capture, 10, true, false, 1, false)));
            var refund := RefundCall(true, Some(5), Some(Response(Refund, 5, true, false, 2, false)));
            var entries := [Operation(charge), Operation(refund),
                            Notice(Transaction(CaptureFailed, 10, true, false, 1, false))];
            var end := EnterAll(start, entries);
            && Drift(start) == 0 && end.captured == 5 && end.status == PartiallyRefunded
            && Drift(end) == 10 && !NoneDropped(start, entries)
  {
    var start := Payment(10, false, 0, NotCharged, true, false, []);
    var charge := ProcessPayment(true, 1, Some(Response(Capture, 10, true, false, 1, false)));
    var refund := RefundCall(true, Some(5), Some(Response(Refund, 5, true, false, 2, false)));
    var failed := Transaction(CaptureFailed, 10, true, false, 1, false);
    var charged := Called(start, charge).0;
    var refunded := Called(charged, refund).0;
    assert charged.txns == [Transaction(Capture, 10, true, false, 1, true)];
    assert charged == Payment(10, false, 10, FullyCharged, true, false, charged.txns);
    assert refunded.txns == charged.txns + [Transaction(Refund, 5, true, false, 2, true)];
    assert refunded == Payment(10, false, 5, PartiallyRefunded, true, false, refunded.txns);
    hide Called;
    CallBooks(start, charge);
    CallBooks(charged, refund);
    NewRowBooks(refunded, failed);
    SettleBooks(Received(refunded, failed), 2);
    ThreeEntries(start, Operation(charge), Operation(refund), Notice(failed));
    hide EnterAll, NoneDropped;
  }

  /** A payment of ten is charged and refunded, and then the refund is reversed: ten are captured again, the row stays
      inactive, and no refund gives them back. */
  lemma {:induction false} ReversalStuck(call: Call)
    requires call.RefundCall?
    ensures var start := Payment(10, false, 0, NotCharged, true, false, []);
            var charge := ProcessPayment(true, 1, Some(Response(Capture, 10, true, false, 1, false)));
            var refund := RefundCall(true, None, Some(Response(Refund, 10, true, false, 2, false)));
            var entries := [Operation(charge), Operation(refund),
                            Notice(Transaction(RefundReversed, 10, true, false, 3, false))];
            var end := EnterAll(start, entries);
            && end.captured == 10 && end.status == FullyCharged && !end.active
            && Called(end, call) == (end, PaymentError)
  {
    var start := Payment(10, false, 0, NotCharged, true, false, []);
    var charge := ProcessPayment(true, 1, Some(Response(Capture, 10, true, false, 1, false)));
    var refund := RefundCall(true, None, Some(Response(Refund, 10, true, false, 2, false)));
    var reversed := Transaction(RefundReversed, 10, true, false, 3, false);
    var charged := Called(start, charge).0;
    var refunded := Called(charged, refund).0;
    assert charged.txns == [Transaction(Capture, 10, true, false, 1, true)];
    assert charged == Payment(10, false, 10, FullyCharged, true, false, charged.txns);
    assert refunded == Payment(10, false, 0, FullyRefunded, false, false, refunded.txns);
    hide Called;
    ThreeEntries(start, Operation(charge), Operation(refund), Notice(reversed));
    hide EnterAll;
    InactiveRefuses(Entered(refunded, Notice(reversed)), call);
  }

  // ----- status over mixed runs -----

  /** Operations meet faithful gateways and disciplined callers; notices have positive amounts and keep the
      captured amount within bounds. */
  ghost predicate FairEntry(p: Payment, e: Entry) {
    match e
    case Operation(call) => Faithful(p, call) && Disciplined(p, call)
    case Notice(t) => t.amount > 0 && 0 <= Entered(p, e).captured <= p.total
  }

  ghost predicate FairEntries(p: Payment, entries: seq<Entry>)
    decreases |entries|
  {
    entries != [] ==> FairEntry(p, entries[0]) && FairEntries(Entered(p, entries[0]), entries[1..])
  }

  lemma {:induction false} EntryCoherent(p: Payment, e: Entry)
    requires Coherent(p) && FairEntry(p, e)
    ensures Coherent(Entered(p, e))
  {
    match e
    case Operation(call) => CallKeepsCoherent(p, call);
    case Notice(t) =>
      var received := Received(p, t);
      AppliedCoherent(received, t.kind, t.amount);
      hide Applied;
  }

  /** Gateway operations and notifications may come in any order: 0 <= captured <= total stays true and the charge
      status truthful. */
  lemma {:induction false} MixedCoherent(p: Payment, entries: seq<Entry>)
    requires Coherent(p) && FairEntries(p, entries)
    ensures Coherent(EnterAll(p, entries))
    decreases |entries|
  {
    if entries != [] {
      EntryCoherent(p, entries[0]);
      MixedCoherent(Entered(p, entries[0]), entries[1..]);
    }
  }
}
