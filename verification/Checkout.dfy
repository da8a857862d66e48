/**
 `complete_checkout` as a saga: a voucher use is reserved, the payment charged, stock allocated and gift
 cards drawn, and a failure on the way is compensated.
 */
module Checkout {
  import opened Sums
  import opened Ledger
  import opened Store
  import opened Placing
  import opened Lifecycle
  import opened Runs
  import opened Service
  import opened StockLaws
  import opened Payments
  import opened PaymentLaws
  import opened PaymentBooks
  import opened PaymentAnswers
  import opened PaymentHistory
  import opened PaymentDesk
  import opened Pricing
  import opened Vouchers

  /** What the customer's checkout holds; none of it changes while it is completed. */
  datatype Cart = Cart(
    items: seq<Item>, zone: set<nat>, email: string,
    addressed: bool, redirectValid: bool,   // shipping and billing; the storefront address
    hasCode: bool, voucherInWindow: bool, cardsValid: bool,
    subtotal: int, shipping: int, discount: int,
    otherPaid: nat)                         // totals of the active payments but the last

  /** How far a checkout gets before the charge. */
  datatype Stage =
    | NotPrepared      // an address is missing or invalid: ValidationError
    | NotCovered       // the payments do not cover the total: ValidationError
    | DataRefused      // no order data: ValidationError
    | NoActivePayment  // the payment is None: an uncaught AttributeError
    | Charging

  datatype Outcome =
    | Stopped(stage: Stage)
    | PaymentFailed
    | ActionRequired
    | SoldOut(refund: Reply)          // allocation failed, payment given back
    | Placed(order: nat, total: int)

  /** What a checkout works on besides its payment. */
  datatype Standing = Standing(state: State, cards: seq<nat>, order: Option<nat>, voucher: Voucher)

  /** Every line passes `check_stock_quantity`. */
  predicate LinesAvailable(cart: Cart, st: State) {
    forall i: nat | i < |cart.items| :: CheckPasses(st, cart.zone, cart.items[i].variant, cart.items[i].quantity)
  }

  /** The totals of the checkout's active payments. */
  function Paid(cart: Cart, payment: PaymentRow?): nat {
    cart.otherPaid + if payment == null then 0 else payment.total
  }

  predicate CoversTotal(cart: Cart, paid: nat, cards: seq<nat>) {
    IsFullyPaid(paid, cart.subtotal, cart.shipping, cart.discount, cards)
  }

  predicate ReachesVoucher(cart: Cart, st: State) {
    LinesAvailable(cart, st) && cart.cardsValid && cart.hasCode
  }

  /** `_prepare_order_data` returns instead of raising. */
  predicate DataReady(cart: Cart, st: State, v: Voucher) {
    && LinesAvailable(cart, st) && cart.cardsValid
    && (cart.hasCode ==> Reserve(v, cart.voucherInWindow, cart.email).1 == Reserved)
  }

  function VoucherAfterData(cart: Cart, st: State, v: Voucher): Voucher {
    if ReachesVoucher(cart, st) then Reserve(v, cart.voucherInWindow, cart.email).0 else v
  }

  /** The checks in front of the charge, in their order. */
  function StageOf(cart: Cart, paid: nat, hasPayment: bool, cards: seq<nat>, st: State, v: Voucher): Stage {
    if !cart.addressed then NotPrepared
    else if !CoversTotal(cart, paid, cards) then NotCovered
    else if !cart.redirectValid then NotPrepared
    else if !DataReady(cart, st, v) then DataRefused
    else if !hasPayment then NoActivePayment
    else Charging
  }

  /** `release_voucher_usage`: a reserved use is given back. */
  function Released(cart: Cart, v: Voucher): Voucher {
    if cart.hasCode then GiveBack(v, cart.email) else v
  }

  /** The voucher once a failed checkout has been compensated. */
  function VoucherCompensated(cart: Cart, v: Voucher): Voucher {
    if cart.hasCode then v.(customers := v.customers - {cart.email}) else v
  }

  function ChargeCall(p: Payment, response: Option<Response>): Call {
    if p.toConfirm then ConfirmCall(p.active, response) else ProcessPayment(p.active, 0, response)
  }

  /** The charge went through and needs nothing more from the customer. */
  predicate Settled(charged: Payment, reply: Reply) {
    reply.Done? && reply.txn < |charged.txns| && !charged.txns[reply.txn].actionRequired
  }

  /** A truthful row that can be refunded or voided, with something to refund, and a gateway that grants it. */
  ghost predicate Returnable(p: Payment, response: Option<Response>) {
    && Coherent(p) && Backed(p) && (CanRefund(p) || CanVoid(p)) && Granted(p, response)
    && (CanRefund(p) ==> p.captured > 0)
  }

  /** A truthful row of a payment not yet captured, and a faithful gateway. */
  ghost predicate FairCharge(p: Payment, response: Option<Response>) {
    Coherent(p) && Backed(p) && p.captured == 0 && Faithful(p, ChargeCall(p, response))
  }

  lemma {:induction false} ChargeTruthful(p: Payment, response: Option<Response>)
    requires FairCharge(p, response)
    ensures var charged := Called(p, ChargeCall(p, response)).0;
            Coherent(charged) && Backed(charged)
  {
    CallKeepsCoherent(p, ChargeCall(p, response));
    CallKeepsBacked(p, ChargeCall(p, response));
  }

  /** Giving a reserved use back restores the voucher, unless it is not once per customer and had a record. */
  lemma {:induction false} UseGivenBack(cart: Cart, st: State, v: Voucher)
    requires DataReady(cart, st, v)
    ensures var after := VoucherAfterData(cart, st, v);
            var back := Released(cart, after);
            && back == VoucherCompensated(cart, v)
            && (back == v <==> !cart.hasCode || v.oncePerCustomer || cart.email !in v.customers)
  {
    if cart.hasCode { GiveBackRestores(v, cart.voucherInWindow, cart.email); }
  }

  predicate DistinctVariants(items: seq<Item>) {
    forall i, j | 0 <= i < j < |items| :: items[i].variant != items[j].variant
  }

  /** Of every tracked variant, as many units are free as the whole checkout wants. */
  ghost predicate Allocatable(cart: Cart, st: State) {
    forall v | v in st.tracked :: Demand(cart.items, 0, v) <= TotalFree(st, cart.zone, v)
  }

  /** Without other customers, a checkout whose data are ready can be placed exactly when it can be allocated as a
      whole; which it can when its lines name distinct variants. */
  lemma {:induction false} ReadyPlaces(cart: Cart, st: State, v: Voucher)
    requires DataReady(cart, st, v) && RowsKnown(st)
    ensures Place(Run(st, []), cart.zone, cart.items).Ok? <==> Allocatable(cart, st)
    ensures DistinctVariants(cart.items) ==> Allocatable(cart, st)
  {
    PlaceIff(st, cart.zone, cart.items);
    if DistinctVariants(cart.items) {
      assert forall i: nat | i < |cart.items| ::
          CheckPasses(st, cart.zone, cart.items[i].variant, cart.items[i].quantity);
      CheckedOrderPlaces(st, cart.zone, cart.items);
    }
  }

  lemma {:induction false} BeforeCharge(cart: Cart, paid: nat, cards: seq<nat>, st: State, v: Voucher)
    requires StageOf(cart, paid, true, cards, st, v).Charging?
    ensures Released(cart, VoucherAfterData(cart, st, v)) == VoucherCompensated(cart, v)
    ensures VoucherCompensated(cart, v) == v <==> !cart.hasCode || v.oncePerCustomer || cart.email !in v.customers
    ensures RowsKnown(st) ==> (Place(Run(st, []), cart.zone, cart.items).Ok? <==> Allocatable(cart, st))
    ensures RowsKnown(st) && DistinctVariants(cart.items) ==> Allocatable(cart, st)
  {
    UseGivenBack(cart, st, v);
    if RowsKnown(st) { ReadyPlaces(cart, st, v); }
  }

  // ----- what the stages mean -----

  /** The payments and the gift cards together cover what is to be paid. */
  predicate PaidFor(cart: Cart, paid: nat, cards: seq<nat>) {
    cart.subtotal + cart.shipping - cart.discount <= paid + TotalOf(cards)
  }

  /** Nothing stands against making an order of the checkout: every line is available, its gift cards are valid, and its
      voucher, if it has a code, is within its dates and below its limit and new to a customer who may use it once. */
  predicate DataFine(cart: Cart, st: State, v: Voucher) {
    && (forall i: nat | i < |cart.items| ::
         CheckPasses(st, cart.zone, cart.items[i].variant, cart.items[i].quantity))
    && cart.cardsValid
    && (cart.hasCode ==>
         && cart.voucherInWindow && (v.limit.Some? ==> v.used < v.limit.value)
         && (v.oncePerCustomer ==> cart.email !in v.customers))
  }

  /** The voucher is reached and refuses the customer, after having counted the use. */
  predicate UseLost(cart: Cart, st: State, v: Voucher) {
    && (forall i: nat | i < |cart.items| ::
         CheckPasses(st, cart.zone, cart.items[i].variant, cart.items[i].quantity))
    && cart.cardsValid && cart.hasCode
    && cart.voucherInWindow && (v.limit.Some? ==> v.used < v.limit.value)
    && v.oncePerCustomer && cart.email in v.customers
  }

  /** Which checkouts stop where, and which are charged. */
  lemma {:induction false} StagesMean(cart: Cart, paid: nat, hasPayment: bool, cards: seq<nat>, st: State, v: Voucher)
    ensures var stage := StageOf(cart, paid, hasPayment, cards, st, v);
            var ready := cart.addressed && cart.redirectValid && PaidFor(cart, paid, cards);
            && (stage == Charging <==> ready && DataFine(cart, st, v) && hasPayment)
            && (stage == NoActivePayment <==> ready && DataFine(cart, st, v) && !hasPayment)
            && (stage == DataRefused <==> ready && !DataFine(cart, st, v))
            && (stage == NotCovered <==> cart.addressed && !PaidFor(cart, paid, cards))
            && (stage == NotPrepared
                <==> !cart.addressed || (PaidFor(cart, paid, cards) && !cart.redirectValid))
    ensures !DataFine(cart, st, v) ==> (VoucherAfterData(cart, st, v) != v <==> UseLost(cart, st, v))
    ensures UseLost(cart, st, v) ==> VoucherAfterData(cart, st, v) == v.(used := v.used + 1)
  {
    SumNonNegative(|cards|, Amounts(cards));
    hide CheckPasses;
  }

  /** The answer is acceptable and successful. */
  predicate Grants(response: Option<Response>) {
    response.Some? && Acceptable(response.value.kind) && response.value.success
  }

  /** What the answer to a charge decides: it fails unless it is acceptable and successful, and then it is settled
      unless it requires an action. */
  lemma {:induction false} ChargeAnswered(p: Payment, response: Option<Response>)
    requires p.active
    ensures var (charged, reply) := Called(p, ChargeCall(p, response));
            && (reply.PaymentError? <==> !Grants(response))
            && (Settled(charged, reply) <==> Grants(response) && !response.value.actionRequired)
  {
    var call := ChargeCall(p, response);
    if response.Some? && response.value.already && Acceptable(response.value.kind)
       && exists t :: t in p.txns && HasFields(t, response.value)
    {
      FoundMatches(p.txns, response.value);
      RecordedOnce(p, FindTxn(p.txns, response.value).value);
    } else {
      AnswerRecorded(p, call);
      hide Called;
    }
    hide Settle, FindTxn, Booked, QueryOf;
  }

  /** The next charge confirms exactly when the last successful transaction of the payment asked for an action;
      otherwise the payment is processed. Either goes by the row as it is. */
  lemma {:induction false} NextCharge(p: Payment, entries: seq<Entry>, response: Option<Response>)
    requires !p.toConfirm
    ensures var history, end := History(p, entries), EnterAll(p, entries);
            var call := ChargeCall(end, response);
            && (call.ConfirmCall? <==> history != [] && history[|history| - 1].action)
            && (!call.ConfirmCall? ==> call.ProcessPayment?)
            && call.snapshot == end.active && call.response == response
  {
    HistoryTells(p, entries);
    hide History, EnterAll, LastStatus;
  }

  /** Without an active payment, a checkout fails on the missing payment, after reserving a voucher use, exactly when
      its addresses are in order, its data are ready and its gift cards cover the total. */
  lemma {:induction false} NoPaymentExact(cart: Cart, cards: seq<nat>, st: State, v: Voucher)
    ensures StageOf(cart, 0, false, cards, st, v) == NoActivePayment
       <==> cart.addressed && cart.redirectValid && DataReady(cart, st, v)
            && TotalOf(cards) >= CheckoutTotal(cart.subtotal, cart.shipping, cart.discount)
    ensures StageOf(cart, 0, false, cards, st, v) != Charging
  {
  }

  /** An item of twelve, two off, and a gift card of ten: the checkout fails, and its voucher has been used once. */
  method GiftCardOnly() returns (outcome: Outcome, used: int)
    ensures outcome == Stopped(NoActivePayment) && used == 1
  {
    var db := new Database([], {});
    var cart := Cart([Item(0, 1)], {}, "a@b.c", true, true, true, true, true, 12, 0, 2, 0);
    var desk := new Desk(cart, db, null, Voucher(0, None, false, {}), [10]);
    assert Sum(1, Amounts([10])) == 10;
    assert DataReady(cart, db.State(), desk.voucher);
    outcome := desk.CompleteCheckout(None, None, []);
    used := desk.voucher.used;
  }

  lemma {:induction false} OneUnitTwice()
    ensures var st, items := State([Stock(0, 7, 1)], map[], [], [], [], {7}), [Item(7, 1), Item(7, 1)];
            CheckPasses(st, {0}, 7, 1) && Demand(items, 0, 7) == 2 && TotalFree(st, {0}, 7) == 1
  {
    var st := State([Stock(0, 7, 1)], map[], [], [], [], {7});
    assert Serves(st, {0}, 7, 0) && InStock(st, 0) == 0;
    assert Sum(1, Free(st, {0}, 7)) == 1 && Sum(1, Distinct(st, {0}, 7)) == 1 && Sum(1, Promised(st, {0}, 7)) == 0;
    assert Demand([Item(7, 1), Item(7, 1)], 1, 7) == 1;
  }

  /** One unit in stock, and a checkout with two lines of it: each line is available, the customer is charged, and then
      the item is sold out though nobody else bought it. */
  method SameVariantTwice() returns (outcome: Outcome)
    ensures outcome.SoldOut?
  {
    OneUnitTwice();
    var db := new Database([Stock(0, 7, 1)], {7});
    var cart := Cart([Item(7, 1), Item(7, 1)], {0}, "a@b.c", true, true, false, true, true, 10, 0, 0, 0);
    var payment := new PaymentRow(10, false);
    var desk := new Desk(cart, db, payment, Voucher(0, None, false, {}), []);
    var charge := Some(Response(Capture, 10, true, false, 1, false));
    assert DataReady(cart, db.State(), desk.voucher) && !Allocatable(cart, db.State()) && RowsKnown(db.State());
    assert StageOf(cart, 10, true, [], db.State(), desk.voucher) == Charging;
    ghost var (charged, reply) := Called(payment.Row(), ChargeCall(payment.Row(), charge));
    assert charged.txns == [Transaction(Capture, 10, true, false, 1, true)] && reply == Done(0);
    hide Allocatable, Called, StageOf, Run, Place, RefundOrVoid;
    outcome := desk.CompleteCheckout(charge, Some(Response(Refund, 10, true, false, 2, false)), []);
  }

  class Desk {
    const cart: Cart
    const db: Database
    const payment: PaymentRow?   // the last active payment of the checkout
    var voucher: Voucher
    var cards: seq<nat>          // gift-card balances, in code order
    var order: Option<nat>       // the order that carries this checkout's token

    constructor (cart: Cart, db: Database, payment: PaymentRow?, voucher: Voucher, cards: seq<nat>)
      ensures this.cart == cart && this.db == db && this.payment == payment
      ensures this.voucher == voucher && this.cards == cards && order == None
    {
      this.cart, this.db, this.payment := cart, db, payment;
      this.voucher, this.cards, this.order := voucher, cards, None;
    }

    function Books(): Standing
      reads this, db
    {
      Standing(db.State(), cards, order, voucher)
    }

    method PrepareOrderData() returns (ready: bool)
      modifies `voucher
      ensures ready == DataReady(cart, db.State(), old(voucher))
      ensures voucher == VoucherAfterData(cart, db.State(), old(voucher))
    {
      var i: nat := 0;
      while i < |cart.items|
        invariant i <= |cart.items| && voucher == old(voucher)
        invariant forall k: nat | k < i ::
            CheckPasses(db.State(), cart.zone, cart.items[k].variant, cart.items[k].quantity)
      {
        if !CheckPasses(db.State(), cart.zone, cart.items[i].variant, cart.items[i].quantity) { return false; }
        i := i + 1;
      }
      if !cart.cardsValid { return false; }
      if !cart.hasCode { return true; }
      var reserved := Reserve(voucher, cart.voucherInWindow, cart.email);
      voucher := reserved.0;
      return reserved.1 == Reserved;
    }

    method ReleaseVoucherUsage()
      modifies `voucher
      ensures voucher == Released(cart, old(voucher))
    {
      if cart.hasCode { voucher := GiveBack(voucher, cart.email); }
    }

    /** `_create_order`: an order that already carries the token is returned as it is. */
    method CreateOrder(priceLeft: int) returns (placed: Option<nat>)
      modifies db, `cards, `order
      ensures old(order).Some? ==>
                placed == old(order) && db.State() == old(db.State()) && cards == old(cards) && order == old(order)
      ensures old(order).None? ==>
                match Place(old(db.State()), cart.zone, cart.items)
                case Failed(_) =>
                  placed == None && db.State() == old(db.State()) && cards == old(cards) && order == None
                case Ok(next) =>
                  && placed == Some(|old(db.State()).orders|) == order && db.State() == next
                  && |cards| == |old(cards)|
                  && forall i | 0 <= i < |cards| ::
                       cards[i] == old(cards)[i] - Pour(Amounts(old(cards)), priceLeft, i)
    {
      if order.Some? { return order; }
      var o := |db.orders|;
      var short := db.CreateOrder(cart.zone, cart.items);
      if short.Some? { return None; }
      var left;
      left, cards := DrawGiftCards(cards, priceLeft);
      order := Some(o);
      return order;
    }

    /** The gateway call of `_process_payment`. */
    method Charge(response: Option<Response>) returns (reply: Reply)
      requires payment != null
      modifies payment
      ensures (payment.Row(), reply) == Called(old(payment.Row()), ChargeCall(old(payment.Row()), response))
      ensures payment.Row().txns == payment.transactions && (reply.Done? ==> reply.txn < |payment.transactions|)
    {
      if payment.toConfirm {
        reply := payment.DoConfirm(payment.isActive, response);
      } else {
        reply := payment.Process(payment.isActive, 0, response);
      }
    }

    /** `payment_refund_or_void` ends a payment that can be refunded or voided, if the gateway grants it. */
    method ReturnPayment(response: Option<Response>) returns (reply: Reply)
      requires payment != null
      modifies payment
      ensures (payment.Row(), reply) == RefundOrVoid(old(payment.Row()), response)
      ensures Returnable(old(payment.Row()), response) ==> !payment.isActive && payment.capturedAmount == 0
    {
      if Returnable(payment.Row(), response) { RefundOrVoidEnds(payment.Row(), response); }
      reply := payment.DoRefundOrVoid(response);
    }

    /** Everything before the charge: `_prepare_checkout` and `_get_order_data`, which give an insufficient or useless
        payment back. */
    method Prepare(giveBack: Option<Response>) returns (stage: Stage)
      modifies `voucher, payment
      ensures stage == StageOf(cart, Paid(cart, payment), payment != null, cards, db.State(), old(voucher))
      ensures stage.Charging? ==> payment != null
      ensures voucher == if stage.NotPrepared? || stage.NotCovered? then old(voucher)
                         else VoucherAfterData(cart, db.State(), old(voucher))
      ensures payment != null ==>
                payment.Row() == if stage.NotCovered? || stage.DataRefused?
                                 then RefundOrVoid(old(payment.Row()), giveBack).0 else old(payment.Row())
      ensures stage.NotCovered? || stage.DataRefused? ==>
                (payment != null && Returnable(old(payment.Row()), giveBack) ==>
                   !payment.isActive && payment.capturedAmount == 0)
    {
      if payment != null && Returnable(payment.Row(), giveBack) { RefundOrVoidEnds(payment.Row(), giveBack); }
      if !cart.addressed { return NotPrepared; }
      if !CoversTotal(cart, Paid(cart, payment), cards) {
        if payment != null { var _ := payment.DoRefundOrVoid(giveBack); }
        return NotCovered;
      }
      if !cart.redirectValid { return NotPrepared; }
      var ready := PrepareOrderData();
      if !ready {
        if payment != null { var _ := payment.DoRefundOrVoid(giveBack); }
        return DataRefused;
      }
      return if payment == null then NoActivePayment else Charging;
    }

    /** From the charge on: the order is placed, or what was taken is given back. `meanwhile` are the requests of
        other customers that commit between the availability check and the allocation. */
    method TakePayment(total: int, priceLeft: int, charge: Option<Response>, giveBack: Option<Response>,
                       meanwhile: seq<Op>)
      returns (outcome: Outcome)
      requires payment != null && priceLeft == PriceLeft(cart.subtotal, cart.shipping, cart.discount)
      modifies `voucher, `cards, `order, db, payment
      ensures var (charged, reply) := Called(old(payment.Row()), ChargeCall(old(payment.Row()), charge));
              var ran := old(Books()).(state := Run(old(db.State()), meanwhile));
              match outcome
              case PaymentFailed =>
                && reply.PaymentError? && payment.Row() == charged
                && Books() == old(Books()).(voucher := Released(cart, old(voucher)))
              case ActionRequired =>
                && reply.Done? && !Settled(charged, reply) && payment.Row() == charged && Books() == old(Books())
              case SoldOut(refund) =>
                && Settled(charged, reply) && (payment.Row(), refund) == RefundOrVoid(charged, giveBack)
                && (Returnable(charged, giveBack) ==> !payment.isActive && payment.capturedAmount == 0)
                && old(order) == None && Place(ran.state, cart.zone, cart.items).Failed?
                && Books() == ran.(voucher := Released(cart, old(voucher)))
              case Placed(placed, paid) =>
                && Settled(charged, reply) && payment.Row() == charged && paid == total
                && order == Some(placed) && voucher == old(voucher)
                && (if old(order).Some? then Books() == ran
                    else Place(ran.state, cart.zone, cart.items) == Ok(db.State())
                         && (TotalOf(old(cards)) - TotalOf(cards))
                            + OrderTotal(cart.subtotal, cart.shipping, cart.discount, old(cards))
                            == Max(cart.subtotal + cart.shipping - cart.discount, 0))
              case _ => false
    {
      hide Called, RefundOrVoid, Place, Run, Returnable, TotalOf, OrderTotal, Pour, Safe, Inv, NoneBreaks, Released;
      var reply := Charge(charge);
      if reply.PaymentError? {
        ReleaseVoucherUsage();
        return PaymentFailed;
      }
      if payment.transactions[reply.txn].actionRequired { return ActionRequired; }
      HandleAll(db, meanwhile);
      var placed := CreateOrder(priceLeft);
      if placed.Some? {
        if old(order).None? { GiftCardsConserve(cart.subtotal, cart.shipping, cart.discount, old(cards), cards); }
        return Placed(placed.value, total);
      }
      ReleaseVoucherUsage();
      var refund := ReturnPayment(giveBack);
      return SoldOut(refund);
    }

    /** The whole of `complete_checkout`: what each outcome leaves behind. */
    method CompleteCheckout(charge: Option<Response>, giveBack: Option<Response>, meanwhile: seq<Op>)
      returns (outcome: Outcome)
      requires payment != null ==> payment.isActive
      requires payment == null ==> cart.otherPaid == 0
      modifies `voucher, `cards, `order, db, payment
      ensures var paid, before := Paid(cart, payment), old(Books());
              var stage := StageOf(cart, paid, payment != null, before.cards, before.state, before.voucher);
              && (if stage.Charging? then !outcome.Stopped? else outcome == Stopped(stage))
              && match stage
                 // The checks that come first change nothing, except that an insufficient payment is given back.
                 case NotPrepared =>
                   Books() == old(Books()) && (payment != null ==> payment.Row() == old(payment.Row()))
                 case NotCovered =>
                   && Books() == old(Books())
                   && (payment != null ==> payment.Row() == RefundOrVoid(old(payment.Row()), giveBack).0)
                 // No order data: the payment is given back. A counted voucher use stays, as it does without a payment.
                 case DataRefused =>
                   && Books() == old(Books()).(voucher := VoucherAfterData(cart, old(db.State()), old(voucher)))
                   && (payment != null ==> payment.Row() == RefundOrVoid(old(payment.Row()), giveBack).0)
                 case NoActivePayment =>
                   Books() == old(Books()).(voucher := VoucherAfterData(cart, old(db.State()), old(voucher)))
                 case Charging => true
      // Which checkouts are charged, and which are found not covered; a payment given back before the charge ends.
      ensures var paid, before := cart.otherPaid + (if payment == null then 0 else payment.total), old(Books());
              && (!outcome.Stopped?
                  <==> cart.addressed && cart.redirectValid && payment != null
                       && PaidFor(cart, paid, before.cards) && DataFine(cart, before.state, before.voucher))
              && (outcome == Stopped(NotCovered) <==> cart.addressed && !PaidFor(cart, paid, before.cards))
              && (outcome.Placed? ==> cart.subtotal + cart.shipping - cart.discount <= paid + TotalOf(before.cards))
      ensures outcome == Stopped(NotCovered) || outcome == Stopped(DataRefused) ==>
                (payment != null && Returnable(old(payment.Row()), giveBack) ==>
                   !payment.isActive && payment.capturedAmount == 0)
      ensures outcome == Stopped(DataRefused) ==>
                (voucher != old(voucher) <==> UseLost(cart, old(db.State()), old(voucher)))
      // What the answer to the charge decides.
      ensures !outcome.Stopped? ==>
                && (outcome.PaymentFailed? <==> !Grants(charge))
                && (outcome.ActionRequired? <==> Grants(charge) && charge.value.actionRequired)
      // The payment is charged, and the answer decides what follows.
      ensures !outcome.Stopped? ==>
                var (charged, reply) := Called(old(payment.Row()), ChargeCall(old(payment.Row()), charge));
                var ready := old(Books()).(voucher := VoucherAfterData(cart, old(db.State()), old(voucher)));
                var failed := old(Books()).(voucher := VoucherCompensated(cart, old(voucher)));
                var ran := Run(old(db.State()), meanwhile);
                && (FairCharge(old(payment.Row()), charge) ==> Coherent(charged) && Backed(charged))
                && match outcome
                   // A refused charge restores everything.
                   case PaymentFailed =>
                     reply.PaymentError? && payment.Row() == charged && Books() == failed
                   case ActionRequired =>
                     reply.Done? && !Settled(charged, reply) && payment.Row() == charged && Books() == ready
                   // A failed allocation leaves the tables to the other customers and gives the payment back.
                   case SoldOut(refund) =>
                     && Settled(charged, reply) && (payment.Row(), refund) == RefundOrVoid(charged, giveBack)
                     && (Returnable(charged, giveBack) ==> !payment.isActive && payment.capturedAmount == 0)
                     && old(order) == None && Place(ran, cart.zone, cart.items).Failed?
                     && Books() == failed.(state := ran)
                   // Success, or the order that was placed before for the same checkout.
                   case Placed(placed, total) =>
                     && Settled(charged, reply) && payment.Row() == charged
                     && total == OrderTotal(cart.subtotal, cart.shipping, cart.discount, old(cards))
                     && order == Some(placed) && voucher == ready.voucher
                     && (if old(order).Some? then Books() == ready.(state := ran)
                         else Place(ran, cart.zone, cart.items) == Ok(db.State())
                              && (TotalOf(old(cards)) - TotalOf(cards)) + total
                                 == Max(cart.subtotal + cart.shipping - cart.discount, 0))
      // A compensated voucher is as before, unless it is not once per customer and had a record of the customer.
      ensures outcome.PaymentFailed? || outcome.SoldOut? ==>
                (voucher == old(voucher)
                 <==> !cart.hasCode || old(voucher).oncePerCustomer || cart.email !in old(voucher).customers)
      // Undisturbed by other customers, a charged checkout is sold out exactly when it cannot be allocated as a whole,
      // although each of its lines was available; never when its lines name distinct variants.
      ensures meanwhile == [] && RowsKnown(old(db.State())) ==>
                && (outcome.SoldOut? ==> !Allocatable(cart, old(db.State())))
                && (outcome.Placed? && old(order).None? ==> Allocatable(cart, old(db.State())))
                && (DistinctVariants(cart.items) ==> !outcome.SoldOut?)
    {
      var total := OrderTotal(cart.subtotal, cart.shipping, cart.discount, cards);
      var priceLeft := PriceLeft(cart.subtotal, cart.shipping, cart.discount);
      hide Called, RefundOrVoid, Place, Run, Returnable, FairCharge, RowsKnown, OrderTotal, StageOf, Released;
      hide VoucherAfterData, VoucherCompensated, Coherent, Backed, TotalOf, Settled, DistinctVariants, ChargeCall;
      hide Allocatable, DataFine, UseLost, Grants;
      StagesMean(cart, Paid(cart, payment), payment != null, cards, db.State(), voucher);
      var stage := Prepare(giveBack);
      if !stage.Charging? { return Stopped(stage); }
      BeforeCharge(cart, Paid(cart, payment), cards, db.State(), old(voucher));
      if FairCharge(payment.Row(), charge) { ChargeTruthful(payment.Row(), charge); }
      ChargeAnswered(payment.Row(), charge);
      outcome := TakePayment(total, priceLeft, charge, giveBack, meanwhile);
    }
  }
}
