/**
 What the payment ledger keeps: bounds and status over every interleaving of gateway operations and
 processed transactions, and the harmlessness of processing a transaction again.
 */
module PaymentLaws {
  import opened Ledger
  import opened Payments

  /** The charge status says how much is captured. */
  ghost predicate Coherent(p: Payment) {
    && 0 <= p.captured <= p.total
    && (p.status == NotCharged ==> p.captured == 0)
    && (p.status in {PartiallyCharged, PartiallyRefunded} ==> 0 < p.captured < p.total)
    && (p.status == FullyCharged ==> p.captured == p.total)
    && (p.status == FullyRefunded ==> p.captured == 0 && !p.active)
  }

  /** Processing a transaction of positive amount keeps the status truthful exactly when it keeps the
      captured amount within bounds. */
  lemma {:induction false} AppliedCoherent(p: Payment, kind: Kind, amount: int)
    requires Coherent(p) && amount > 0
    ensures Coherent(Applied(p, kind, amount)) <==> 0 <= Applied(p, kind, amount).captured <= p.total
  {
  }

  lemma {:induction false} AppliedFrame(p: Payment, kind: Kind, amount: int)
    ensures Applied(p, kind, amount).total == p.total && Applied(p, kind, amount).txns == p.txns
    ensures p.status != NotCharged && kind != CaptureFailed ==> Applied(p, kind, amount).status != NotCharged
  {
  }

  predicate InRange(p: Payment, order: seq<nat>) {
    forall k | 0 <= k < |order| :: order[k] < |p.txns|
  }

  /** Transactions processed one after the other, repetitions included. */
  function SettleAll(p: Payment, order: seq<nat>): (r: Payment)
    requires InRange(p, order)
    ensures |r.txns| == |p.txns|
  {
    if order == [] then p else Settle(SettleAll(p, order[..|order| - 1]), order[|order| - 1])
  }

  ghost predicate WithinBounds(p: Payment, order: seq<nat>)
    requires InRange(p, order)
  {
    && 0 <= SettleAll(p, order).captured <= p.total
    && (order != [] ==> WithinBounds(p, order[..|order| - 1]))
  }

  /** A run of notifications with positive amounts that never leaves 0 <= captured <= total, CAPTURE_FAILED
      and REFUND_REVERSED included, keeps the status truthful. */
  lemma {:induction false} EventsCoherent(p: Payment, order: seq<nat>)
    requires InRange(p, order)
    requires Coherent(p) && WithinBounds(p, order) && forall t | t in p.txns :: t.amount > 0
    ensures Coherent(SettleAll(p, order)) && forall t | t in SettleAll(p, order).txns :: t.amount > 0
    ensures SettleAll(p, order).total == p.total
  {
    if order != [] {
      var before, i := SettleAll(p, order[..|order| - 1]), order[|order| - 1];
      EventsCoherent(p, order[..|order| - 1]);
      AppliedCoherent(before, before.txns[i].kind, before.txns[i].amount);
      AppliedFrame(before, before.txns[i].kind, before.txns[i].amount);
      hide Applied, Coherent;
    }
  }

  // ----- processing a transaction again -----

  /** Equal but for `to_confirm`, which an action-required transaction sets again each time. */
  ghost predicate Same(p: Payment, q: Payment) {
    p == q.(toConfirm := p.toConfirm)
  }

  /** Processing transaction i again changes nothing. */
  ghost predicate Spent(p: Payment, i: nat) {
    i < |p.txns| && (!p.txns[i].success || p.txns[i].actionRequired || p.txns[i].processed)
  }

  /** The first occurrence of every index, in order. */
  function FirstOnly(order: seq<nat>): (r: seq<nat>)
    ensures forall i :: i in r <==> i in order
    ensures forall k | 0 <= k < |r| :: r[k] in order
  {
    if order == [] then []
    else
      var init, i := order[..|order| - 1], order[|order| - 1];
      assert forall j :: j in order <==> j in init || j == i;
      if i in init then FirstOnly(init) else FirstOnly(init) + [i]
  }

  lemma {:induction false} SpentAfter(p: Payment, order: seq<nat>, i: nat)
    requires InRange(p, order) && i in order
    ensures Spent(SettleAll(p, order), i)
  {
    var init, last := order[..|order| - 1], order[|order| - 1];
    if i != last {
      assert i in init;
      SpentAfter(p, init, i);
    }
  }

  lemma {:induction false} SettleSame(p: Payment, q: Payment, i: nat)
    requires Same(p, q) && i < |p.txns|
    ensures Same(Settle(p, i), Settle(q, i))
  {
    var t := p.txns[i];
    AppliedSame(p, q.toConfirm, t.kind, t.amount);
    hide Applied;
    assert q == p.(toConfirm := q.toConfirm);
  }

  lemma {:induction false} AppliedSame(p: Payment, confirm: bool, kind: Kind, amount: int)
    ensures Applied(p.(toConfirm := confirm), kind, amount) == Applied(p, kind, amount).(toConfirm := confirm)
  {
  }

  lemma {:induction false} SettleSpent(p: Payment, i: nat)
    requires i < |p.txns|
    ensures Spent(Settle(p, i), i)
    ensures Spent(p, i) ==> Same(Settle(p, i), p)
  {
  }

  /** Notifications may be delivered any number of times: the payment ends as if each transaction had been
      processed once, when it first arrived. */
  lemma {:induction false} RepetitionHarmless(p: Payment, order: seq<nat>)
    requires InRange(p, order)
    ensures InRange(p, FirstOnly(order)) && Same(SettleAll(p, order), SettleAll(p, FirstOnly(order)))
  {
    if order != [] {
      var init, i := order[..|order| - 1], order[|order| - 1];
      RepetitionHarmless(p, init);
      SettleSame(SettleAll(p, init), SettleAll(p, FirstOnly(init)), i);
      if i in init {
        SpentAfter(p, init, i);
        SettleSpent(SettleAll(p, init), i);
      } else {
        assert (FirstOnly(init) + [i])[..|FirstOnly(init)|] == FirstOnly(init);
      }
    }
  }

  // ----- reversed refunds -----

  /** A reversed refund leaves the payment refundable exactly when it was still active. */
  lemma {:induction false} RefundReversedExact(p: Payment, i: nat)
    requires i < |p.txns| && p.txns[i].kind == RefundReversed && !Spent(p, i) && !p.manual
    ensures CanRefund(Settle(p, i)) <==> p.active
  {
  }

  /** When the reversed refund was a full one, the money is captured again but the row stays inactive, and
      every further refund is refused, however stale the caller's view. */
  lemma {:induction false} RefundReversedStuck(p: Payment, i: nat, call: Call)
    requires i < |p.txns| && p.txns[i].kind == RefundReversed && !Spent(p, i) && call.RefundCall?
    requires Coherent(p) && p.status == FullyRefunded && 0 < p.txns[i].amount <= p.total
    ensures var next := Settle(p, i);
            Coherent(next) && next.captured == p.txns[i].amount && Called(next, call) == (next, PaymentError)
  {
  }

  // ----- capture is refused once something was charged -----

  /** Only CAPTURE_FAILED brings a payment back to NOT_CHARGED. */
  lemma {:induction false} NotChargedNotReentered(p: Payment, order: seq<nat>)
    requires InRange(p, order)
    requires p.status != NotCharged && forall t | t in p.txns :: t.kind != CaptureFailed
    ensures SettleAll(p, order).status != NotCharged
    ensures forall t | t in SettleAll(p, order).txns :: t.kind != CaptureFailed
  {
    if order != [] {
      var before, i := SettleAll(p, order[..|order| - 1]), order[|order| - 1];
      NotChargedNotReentered(p, order[..|order| - 1]);
      AppliedFrame(before, before.txns[i].kind, before.txns[i].amount);
      hide Applied;
    }
  }

  /** After a capture was processed, and whatever else but CAPTURE_FAILED is processed later, `capture` is
      refused for every amount, snapshot and gateway. */
  lemma {:induction false} SecondCaptureRefused(p: Payment, i: nat, later: seq<nat>, call: Call)
    requires i < |p.txns| && InRange(p, later)
    requires p.txns[i].kind == Capture && !Spent(p, i) && call.CaptureCall?
    requires forall t | t in p.txns :: t.kind != CaptureFailed
    ensures Called(SettleAll(Settle(p, i), later), call) == (SettleAll(Settle(p, i), later), PaymentError)
  {
    NotChargedNotReentered(Settle(p, i), later);
  }

  // ----- interleaved gateway operations -----

  /** A successful answer is of the kind, and about the amount, that was asked for. `process_payment` and
      `confirm` may also be answered by a step that moves no money. */
  predicate Faithful(p: Payment, call: Call) {
    match Validated(call.response)
    case None => true
    case Some(r) =>
      var query := QueryOf(p, call);
      r.success ==>
        if call.ProcessPayment? || call.ConfirmCall?
        then r.kind != Refund && (r.kind == Capture ==> r.amount == p.total)
        else r.kind == query.kind && r.amount == query.amount
  }

  /** `process_payment` and `confirm` do not look at the charge status, so the caller has to. */
  predicate Disciplined(p: Payment, call: Call) {
    call.ProcessPayment? || call.ConfirmCall? ==> p.captured == 0
  }

  lemma {:induction false} SettleKeeps(p: Payment, i: nat)
    requires i < |p.txns| && Coherent(p)
    requires var t := p.txns[i];
             t.success && !t.actionRequired && !t.processed ==> Coherent(Applied(p, t.kind, t.amount))
    ensures Coherent(Settle(p, i)) && Settle(p, i).total == p.total && |Settle(p, i).txns| == |p.txns|
  {
  }

  lemma {:induction false} SettleKeepsAgain(p: Payment, i: nat)
    requires i < |p.txns| && Coherent(Settle(p, i))
    ensures Coherent(Settle(Settle(p, i), i))
  {
  }

  /** The guards leave room for what the call may move. */
  lemma {:induction false} AdmittedRoom(p: Payment, call: Call, r: Response)
    requires Coherent(p) && Faithful(p, call) && Disciplined(p, call) && Admitted(p, call)
    requires Validated(call.response) == Some(r) && r.success
    ensures Coherent(Applied(p, r.kind, r.amount))
  {
  }

  lemma {:induction false} AppliedTxns(p: Payment, txns: seq<Transaction>, kind: Kind, amount: int)
    ensures Applied(p.(txns := txns), kind, amount) == Applied(p, kind, amount).(txns := txns)
  {
  }

  /** Booking and processing an answer keeps the row truthful, once or twice, if applying it does. */
  lemma {:induction false} ExchangeKeeps(p: Payment, query: Query, response: Option<Response>)
    requires Coherent(p)
    requires var valid := Validated(response);
             valid.Some? && valid.value.success ==> Coherent(Applied(p, valid.value.kind, valid.value.amount))
    ensures var (booked, i) := Booked(p, query, Validated(response));
            Coherent(Settle(booked, i)) && i < |Settle(booked, i).txns| && Coherent(Settle(Settle(booked, i), i))
  {
    var valid := Validated(response);
    var (booked, i) := Booked(p, query, valid);
    if valid.Some? { AppliedTxns(p, booked.txns, valid.value.kind, valid.value.amount); }
    hide Applied;
    SettleKeeps(booked, i);
    SettleKeepsAgain(booked, i);
  }

  lemma {:induction false} CallKeepsCoherent(p: Payment, call: Call)
    requires Coherent(p) && Faithful(p, call) && Disciplined(p, call)
    ensures Coherent(Called(p, call).0)
  {
    if call.snapshot && Admitted(p, call) {
      var response := Validated(call.response);
      if response.Some? && response.value.success { AdmittedRoom(p, call, response.value); }
      hide Admitted, Faithful, QueryOf, Applied, Coherent, Settle, Booked;
      ExchangeKeeps(p, QueryOf(p, call), call.response);
    }
  }

  function CallAll(p: Payment, calls: seq<Call>): Payment
    decreases |calls|
  {
    if calls == [] then p else CallAll(Called(p, calls[0]).0, calls[1..])
  }

  ghost predicate FairRun(p: Payment, calls: seq<Call>)
    decreases |calls|
  {
    calls == []
    || (Faithful(p, calls[0]) && Disciplined(p, calls[0]) && FairRun(Called(p, calls[0]).0, calls[1..]))
  }

  /** Over every interleaving of gateway operations, each made with an arbitrary snapshot of `is_active`, the
      captured amount stays between 0 and the total and the charge status stays truthful. */
  lemma {:induction false} InterleavingSafe(p: Payment, calls: seq<Call>)
    requires Coherent(p) && FairRun(p, calls)
    ensures Coherent(CallAll(p, calls))
    decreases |calls|
  {
    if calls != [] {
      CallKeepsCoherent(p, calls[0]);
      InterleavingSafe(Called(p, calls[0]).0, calls[1..]);
    }
  }

  /** Where the missing check shows: a fresh capturing answer to `process_payment` keeps the ledger coherent
      exactly when nothing was captured before. */
  lemma {:induction false} ProcessExact(p: Payment, token: nat, r: Response)
    requires Coherent(p) && r.kind == Capture && r.success && !r.actionRequired && !r.already
    requires r.amount == p.total > 0
    ensures Coherent(Called(p, ProcessPayment(true, token, Some(r))).0) <==> p.captured == 0
  {
  }

  /** A fully charged payment is still active, and processing it again captures twice its total. */
  lemma {:induction false} ProcessedTwice()
    ensures var r := Some(Response(Capture, 10, true, false, 1, false));
            var p := Payment(10, false, 0, NotCharged, true, false, []);
            var once := Called(p, ProcessPayment(true, 1, r)).0;
            once.active && once.captured == 10 && Called(once, ProcessPayment(true, 1, r)).0.captured == 20
  {
  }

  /** The doubly post-processed capture counts a fresh, faithful answer once. */
  lemma {:induction false} CaptureCountsOnce(p: Payment, call: Call, r: Response)
    requires call.CaptureCall? && call.snapshot && Admitted(p, call) && call.response == Some(r)
    requires r.success && !r.already && r.kind == Capture && r.amount == CaptureAmount(p, call.requested)
    ensures var next := Called(p, call).0;
            && next.captured == p.captured + CaptureAmount(p, call.requested)
            && next.active && next.status == (if next.captured >= p.total then FullyCharged else PartiallyCharged)
            && |next.txns| == |p.txns| + 1 && next.txns[|p.txns|].processed
  {
  }

  /** A granted refund takes its amount off once, and another can follow exactly when something is left. */
  lemma {:induction false} RefundCountsOnce(p: Payment, call: Call, r: Response)
    requires call.RefundCall? && call.snapshot && Admitted(p, call) && call.response == Some(r)
    requires r.success && !r.already && r.kind == Refund && r.amount == RefundAmount(p, call.requested)
    ensures var next, amount := Called(p, call).0, RefundAmount(p, call.requested);
            && next.captured == p.captured - amount
            && (CanRefund(next) <==> amount < p.captured) && (next.active <==> amount < p.captured)
            && (next.status == if amount < p.captured then PartiallyRefunded else FullyRefunded)
  {
  }

  /** On an inactive row authorizing, capturing and refunding are refused, even for a caller who still takes it for
      active. */
  lemma {:induction false} InactiveRefuses(p: Payment, call: Call)
    requires !p.active && (call.Authorize? || call.CaptureCall? || call.RefundCall?)
    ensures Called(p, call) == (p, PaymentError)
  {
  }

  /** Not so for `process_payment` and `confirm`, which look at the caller's view only. An inactive row changes what it
      has captured exactly when one of them is called with an old view and answered by a capture not seen before. */
  lemma {:induction false} InactiveCharged(p: Payment, call: Call)
    requires !p.active && p.total > 0 && Coherent(p) && Faithful(p, call) && Disciplined(p, call)
    ensures Called(p, call).0.captured != p.captured
       <==> && (call.ProcessPayment? || call.ConfirmCall?) && call.snapshot
            && call.response.Some? && call.response.value.success && !call.response.value.actionRequired
            && call.response.value.kind == Capture
            && var (booked, i) := Booked(p, QueryOf(p, call), call.response); !booked.txns[i].processed
  {
  }

  /** No call makes an inactive row active again, so that what was captured there cannot be given back. */
  lemma {:induction false} InactiveForGood(p: Payment, call: Call)
    requires !p.active
    ensures var next := Called(p, call).0;
            && !next.active && !CanRefund(next) && !CanVoid(next)
            && forall response :: RefundOrVoid(next, response) == (next, Done(0))
  {
  }

  lemma {:induction false} FreshCapture(p: Payment, token: nat, r: Response)
    requires r.kind == Capture && r.success && !r.actionRequired && !r.already
    ensures Called(p, ProcessPayment(true, token, Some(r))).0.captured == p.captured + r.amount
  {
  }

  /** An authorized payment of ten is voided; a caller who saw it active processes it, and ten are captured for good. */
  lemma {:induction false} VoidedCharged()
    ensures var start := Payment(10, false, 0, NotCharged, true, false, []);
            var authorize := Authorize(true, 1, Some(Response(Auth, 10, true, false, 1, false)));
            var cancel := VoidCall(true, Some(Response(Void, 10, true, false, 2, false)));
            var process := ProcessPayment(true, 1, Some(Response(Capture, 10, true, false, 3, false)));
            var voided := Called(Called(start, authorize).0, cancel).0;
            var end := Called(voided, process).0;
            && !voided.active && voided.captured == 0 && Faithful(voided, process) && Disciplined(voided, process)
            && end.captured == 10 && !end.active && !CanRefund(end) && !CanVoid(end)
  {
    var start := Payment(10, false, 0, NotCharged, true, false, []);
    var authorize := Authorize(true, 1, Some(Response(Auth, 10, true, false, 1, false)));
    var cancel := VoidCall(true, Some(Response(Void, 10, true, false, 2, false)));
    var answer := Response(Capture, 10, true, false, 3, false);
    var authorized := Called(start, authorize).0;
    assert authorized.txns == [Transaction(Auth, 10, true, false, 1, true)];
    assert authorized.txns[0] in authorized.txns && HasPast(authorized, Auth);
    var voided := Called(authorized, cancel).0;
    assert voided == Payment(10, false, 0, NotCharged, false, false, voided.txns);
    hide Called, HasPast, IsAuthorized;
    FreshCapture(voided, 1, answer);
    InactiveForGood(voided, ProcessPayment(true, 1, Some(answer)));
  }

  // ----- payment_refund_or_void -----

  /** Money recorded as charged through a gateway has a capture transaction behind it. */
  ghost predicate Backed(p: Payment) {
    p.status in {PartiallyCharged, FullyCharged, PartiallyRefunded} && !p.manual ==> HasPast(p, Capture)
  }

  /** The gateway grants the refund of everything captured, or the void, as a new operation. */
  predicate Granted(p: Payment, response: Option<Response>) {
    response.Some? && response.value.success && !response.value.already
    && if CanRefund(p) then response.value.kind == Refund && response.value.amount == p.captured
       else response.value.kind == Void
  }

  /** Giving the money back ends the payment, with nothing captured and no longer active, exactly when there is
      money to refund or the payment is to be voided: a fully charged payment of zero stays as it is. */
  lemma {:induction false} RefundOrVoidEnds(p: Payment, response: Option<Response>)
    requires Coherent(p) && Backed(p) && (CanRefund(p) || CanVoid(p)) && Granted(p, response)
    ensures var (next, reply) := RefundOrVoid(p, response);
            && (reply.Done? && !next.active && next.captured == 0 <==> CanRefund(p) ==> p.captured > 0)
            && (CanRefund(p) && p.captured == 0 ==> (next, reply) == (p, PaymentError))
  {
  }

  /** A payment of zero is charged: it can be refunded and the gateway would grant it, but the refund is refused. */
  lemma {:induction false} ZeroPaymentKept()
    ensures var start := Payment(0, false, 0, NotCharged, true, false, []);
            var charge := ProcessPayment(true, 1, Some(Response(Capture, 0, true, false, 1, false)));
            var giveBack := Some(Response(Refund, 0, true, false, 2, false));
            var charged := Called(start, charge).0;
            && CanRefund(charged) && Granted(charged, giveBack)
            && RefundOrVoid(charged, giveBack) == (charged, PaymentError)
  {
  }

  lemma {:induction false} PastKept(p: Payment, i: nat, kind: Kind)
    requires i < |p.txns|
    ensures HasPast(p, kind) ==> HasPast(Settle(p, i), kind)
    ensures p.txns[i].kind == kind && p.txns[i].success ==> HasPast(Settle(p, i), kind)
  {
    var next := Settle(p, i);
    assert forall j | 0 <= j < |p.txns| ::
        && next.txns[j] in next.txns
        && next.txns[j].kind == p.txns[j].kind && next.txns[j].success == p.txns[j].success;
    if t :| t in p.txns && t.kind == kind && t.success {
      var j :| 0 <= j < |p.txns| && p.txns[j] == t;
      assert next.txns[j] in next.txns;
    }
  }

  lemma {:induction false} BookedPast(p: Payment, query: Query, response: Option<Response>, kind: Kind)
    ensures HasPast(p, kind) ==> HasPast(Booked(p, query, response).0, kind)
  {
  }

  lemma {:induction false} SettleBacked(p: Payment, i: nat)
    requires i < |p.txns| && Backed(p)
    requires p.txns[i].kind in {Refund, RefundReversed} && p.txns[i].success ==> HasPast(p, Capture)
    ensures Backed(Settle(p, i))
  {
    PastKept(p, i, Capture);
    hide HasPast;
  }

  /** Faithful gateways keep every recorded charge backed by a capture. */
  lemma {:induction false} CallKeepsBacked(p: Payment, call: Call)
    requires Backed(p) && Faithful(p, call)
    ensures Backed(Called(p, call).0)
  {
    if call.snapshot && Admitted(p, call) {
      var query, response := QueryOf(p, call), Validated(call.response);
      var (booked, i) := Booked(p, query, response);
      BookedPast(p, query, response, Capture);
      SettleBacked(booked, i);
      PastKept(booked, i, Capture);
      SettleSpent(booked, i);
      SettleSpent(Settle(booked, i), i);
      hide Settle, HasPast;
    }
  }
}
