/**
 Money in whole minor units: gift cards against an order's total, voucher discounts against a checkout's
 total, and unit prices rounded from line totals.
 */
module Pricing {
  import opened Sums

  function Amounts(xs: seq<nat>): nat -> int {
    (i: nat) => if i < |xs| then xs[i] else 0
  }

  /** The amounts in a sequence, added up; of gift-card balances, `get_total_gift_cards_balance`. */
  function TotalOf(xs: seq<nat>): int {
    Sum(|xs|, Amounts(xs))
  }

  // ----- gift cards -----

  /** Subtotal and shipping less the discount: what is left to pay before any clamp. */
  function PriceLeft(subtotal: int, shipping: int, discount: int): int {
    subtotal + shipping - discount
  }

  /** `base_checkout_total` */
  function CheckoutTotal(subtotal: int, shipping: int, discount: int): int {
    Max(subtotal + shipping - discount, 0)
  }

  /** The total recorded on the order: gift cards are taken off beforehand. */
  function OrderTotal(subtotal: int, shipping: int, discount: int, cards: seq<nat>): int {
    Max(CheckoutTotal(subtotal, shipping, discount) - TotalOf(cards), 0)
  }

  /** `add_gift_card_to_order`: the price still left and the card's new balance. */
  method AddGiftCardToOrder(balance: nat, totalPriceLeft: int) returns (left: int, newBalance: nat)
    ensures newBalance == balance - Min(balance, Max(totalPriceLeft, 0))
    ensures left == if totalPriceLeft > 0 then Max(totalPriceLeft - balance, 0) else totalPriceLeft
  {
    left, newBalance := totalPriceLeft, balance;
    if totalPriceLeft > 0 {
      if totalPriceLeft < balance {
        newBalance := balance - totalPriceLeft;
        left := 0;
      } else {
        left := totalPriceLeft - balance;
        newBalance := 0;
      }
    }
  }

  /** What one turn of the gift-card loop takes. */
  lemma {:induction false} DrawStep(cards: seq<nat>, q: int, i: nat)
    requires i < |cards|
    ensures var f := Amounts(cards);
            && Sum(i, f) >= 0 && Sum(i + 1, f) == Sum(i, f) + cards[i]
            && Pour(f, q, i) == Min(cards[i], Max(q - Sum(i, f), 0))
  {
    SumNonNegative(i, Amounts(cards));
  }

  /** The gift-card loop of `_create_order`: each card gives what the pour takes from it. */
  method DrawGiftCards(cards: seq<nat>, totalPriceLeft: int) returns (left: int, drained: seq<nat>)
    ensures |drained| == |cards|
    ensures forall i | 0 <= i < |cards| :: drained[i] == cards[i] - Pour(Amounts(cards), totalPriceLeft, i)
    ensures left == if totalPriceLeft > 0 then Max(totalPriceLeft - TotalOf(cards), 0) else totalPriceLeft
  {
    hide Pour, Amounts;
    ghost var f := Amounts(cards);
    left, drained := totalPriceLeft, [];
    var i: nat := 0;
    while i < |cards|
      invariant i <= |cards| && |drained| == i
      invariant left == if totalPriceLeft > 0 then Max(totalPriceLeft - Sum(i, f), 0) else totalPriceLeft
      invariant forall k | 0 <= k < i :: drained[k] == cards[k] - Pour(f, totalPriceLeft, k)
    {
      DrawStep(cards, totalPriceLeft, i);
      var balance;
      left, balance := AddGiftCardToOrder(cards[i], left);
      drained := drained + [balance];
      i := i + 1;
    }
  }

  /** Conservation: what the cards lose and what the order still costs make up the checkout's total. */
  lemma {:induction false} GiftCardsConserve(subtotal: int, shipping: int, discount: int, cards: seq<nat>,
                                             drained: seq<nat>)
    requires |drained| == |cards|
    requires forall i | 0 <= i < |cards| ::
               drained[i] == cards[i] - Pour(Amounts(cards), PriceLeft(subtotal, shipping, discount), i)
    ensures (TotalOf(cards) - TotalOf(drained)) + OrderTotal(subtotal, shipping, discount, cards)
         == Max(subtotal + shipping - discount, 0)
  {
    var f, q := Amounts(cards), PriceLeft(subtotal, shipping, discount);
    PourTotal(|cards|, f, q);
    SumPlus(|cards|, Amounts(drained), Poured(f, q), f);
    SumNonNegative(|cards|, f);
  }

  /** Cards are used up in order: behind a card that keeps something, no card is touched. */
  lemma {:induction false} CardsUsedInOrder(cards: seq<nat>, q: int, i: nat, j: nat)
    requires i < j < |cards| && Pour(Amounts(cards), q, i) < cards[i]
    ensures Pour(Amounts(cards), q, j) == 0
  {
    PourGreedy(|cards|, Amounts(cards), q, i, j);
  }

  /** `is_fully_paid` on the totals of the checkout's active payments. */
  predicate IsFullyPaid(paid: nat, subtotal: int, shipping: int, discount: int, cards: seq<nat>) {
    paid >= OrderTotal(subtotal, shipping, discount, cards)
  }

  /** A checkout counts as fully paid exactly when its payments and what its cards will give cover it. */
  lemma {:induction false} FullyPaidMeaning(paid: nat, subtotal: int, shipping: int, discount: int, cards: seq<nat>)
    ensures IsFullyPaid(paid, subtotal, shipping, discount, cards)
       <==> paid + Sum(|cards|, Poured(Amounts(cards), PriceLeft(subtotal, shipping, discount)))
            >= CheckoutTotal(subtotal, shipping, discount)
  {
    PourTotal(|cards|, Amounts(cards), PriceLeft(subtotal, shipping, discount));
    SumNonNegative(|cards|, Amounts(cards));
  }

  // ----- unit prices -----

  /** Quantizing t / q to whole units, in the `prices` library, gives a nearest one. How it breaks ties is left open. */
  ghost predicate ToNearest(round: (nat, nat) -> nat) {
    forall t: nat, q: nat | q > 0 :: Nearest(round(t, q), t, q)
  }

  predicate Nearest(u: nat, t: nat, q: nat) {
    2 * (u * q - t) <= q && 2 * (t - u * q) <= q
  }

  /** To the nearest unit, ties to the even one: the default of decimal arithmetic. */
  function RoundHalfEven(t: nat, q: nat): nat {
    if q == 0 then 0
    else
      var down, rest := t / q, t % q;
      if 2 * rest < q || (2 * rest == q && down % 2 == 0) then down else down + 1
  }

  lemma {:induction false} HalfEvenToNearest()
    ensures ToNearest(RoundHalfEven)
  {
    forall t: nat, q: nat | q > 0 ensures Nearest(RoundHalfEven(t, q), t, q) {
      var down, rest, u := t / q, t % q, RoundHalfEven(t, q);
      assert t == down * q + rest;
      if u == down + 1 { assert u * q == down * q + q; }
    }
  }

  datatype PricedLine = PricedLine(total: nat, quantity: nat)

  /** `get_prices_of_discounted_specific_product`: one rounded unit price per item. */
  function UnitPrices(lines: seq<PricedLine>, round: (nat, nat) -> nat): seq<nat> {
    if lines == [] then []
    else
      var l := lines[|lines| - 1];
      UnitPrices(lines[..|lines| - 1], round) + Repeated(round(l.total, l.quantity), l.quantity)
  }

  function Repeated(price: nat, n: nat): (r: seq<nat>)
    ensures |r| == n && forall i | 0 <= i < n :: r[i] == price
  {
    seq(n, i => price)
  }

  function LineTotals(lines: seq<PricedLine>): int {
    if lines == [] then 0 else LineTotals(lines[..|lines| - 1]) + lines[|lines| - 1].total
  }

  lemma {:induction false} RepeatedSum(price: nat, n: nat)
    ensures TotalOf(Repeated(price, n)) == price * n
  {
    RepeatedSumTo(Repeated(price, n), price, n);
  }

  lemma {:induction false} RepeatedSumTo(prices: seq<nat>, price: nat, n: nat)
    requires n <= |prices| && forall i | 0 <= i < |prices| :: prices[i] == price
    ensures Sum(n, Amounts(prices)) == price * n
  {
    if n > 0 {
      RepeatedSumTo(prices, price, n - 1);
      assert price * n == price * (n - 1) + price;
    }
  }

  lemma {:induction false} AppendedSum(a: seq<nat>, b: seq<nat>, n: nat)
    requires n <= |b|
    ensures Sum(|a| + n, Amounts(a + b)) == TotalOf(a) + Sum(n, Amounts(b))
  {
    if n == 0 { SumEq(|a|, Amounts(a), Amounts(a + b)); } else { AppendedSum(a, b, n - 1); }
  }

  /** Rounding bound: the listed unit prices add up to the lines' totals within half a minor unit per item. */
  lemma {:induction false} UnitPricesBound(lines: seq<PricedLine>, round: (nat, nat) -> nat)
    requires ToNearest(round) && forall l | l in lines :: l.quantity > 0
    ensures var drift := 2 * (TotalOf(UnitPrices(lines, round)) - LineTotals(lines));
            -|UnitPrices(lines, round)| <= drift <= |UnitPrices(lines, round)|
  {
    if lines != [] {
      var init, l := lines[..|lines| - 1], lines[|lines| - 1];
      var u := round(l.total, l.quantity);
      UnitPricesBound(init, round);
      assert Nearest(u, l.total, l.quantity);
      AppendedSum(UnitPrices(init, round), Repeated(u, l.quantity), l.quantity);
      RepeatedSum(u, l.quantity);
      hide Sum, ToNearest;
    }
  }

  // ----- voucher discounts -----

  datatype VoucherType = EntireOrder | Shipping | SpecificProduct

  /** `get_discount_amount_for`, given the price after the voucher's discount function. */
  function DiscountAmount(price: nat, after: int): (r: int)
    ensures after <= price ==> 0 <= r <= price
  {
    if after < 0 then price else price - after
  }

  /** Sum of the per-item discounts, or the discount of the cheapest item only. */
  function ProductsDiscount(prices: seq<nat>, after: nat -> int, oncePerOrder: bool): int
    requires prices != []
  {
    if oncePerOrder then DiscountAmount(Cheapest(prices), after(Cheapest(prices)))
    else Sum(|prices|, ItemDiscounts(prices, after))
  }

  function ItemDiscounts(prices: seq<nat>, after: nat -> int): nat -> int {
    (i: nat) => if i < |prices| then DiscountAmount(prices[i], after(prices[i])) else 0
  }

  function Cheapest(prices: seq<nat>): (m: nat)
    requires prices != []
    ensures m in prices && forall p | p in prices :: m <= p
  {
    var n := |prices| - 1;
    if n == 0 then prices[0]
    else
      var m := Cheapest(prices[..n]);
      assert prices == prices[..n] + [prices[n]];
      if prices[n] < m then prices[n] else m
  }

  /** `get_voucher_discount_for_checkout`, for a voucher that applies. */
  function VoucherDiscount(kind: VoucherType, subtotal: nat, shipping: nat, prices: seq<nat>, after: nat -> int,
                           oncePerOrder: bool): int
    requires kind == SpecificProduct ==> prices != []
  {
    match kind
    case EntireOrder => DiscountAmount(subtotal, after(subtotal))
    case Shipping => DiscountAmount(shipping, after(shipping))
    case SpecificProduct => ProductsDiscount(prices, after, oncePerOrder)
  }

  /** `recalculate_checkout_discount`: at most the subtotal, except for shipping vouchers. */
  function RecalculatedDiscount(kind: VoucherType, subtotal: nat, shipping: nat, prices: seq<nat>,
                                after: nat -> int, oncePerOrder: bool): int
    requires kind == SpecificProduct ==> prices != []
  {
    var discount := VoucherDiscount(kind, subtotal, shipping, prices, after, oncePerOrder);
    if kind != Shipping then Min(discount, subtotal) else discount
  }

  /** Whatever the voucher, after recalculation the discount is not negative and at most subtotal plus
      shipping, so the clamp in `base_checkout_total` has nothing to do. */
  lemma {:induction false} ClampIdle(kind: VoucherType, subtotal: nat, shipping: nat, prices: seq<nat>,
                                     after: nat -> int, oncePerOrder: bool)
    requires kind == SpecificProduct ==> prices != []
    requires forall p: nat :: after(p) <= p
    ensures var d := RecalculatedDiscount(kind, subtotal, shipping, prices, after, oncePerOrder);
            && 0 <= d <= subtotal + shipping
            && CheckoutTotal(subtotal, shipping, d) == subtotal + shipping - d
  {
    if kind == SpecificProduct && !oncePerOrder {
      SumNonNegative(|prices|, ItemDiscounts(prices, after));
    }
  }

  ghost predicate Reduces(after: nat -> int) {
    forall p: nat :: after(p) <= p
  }

  predicate IsLeast(prices: seq<nat>, p: nat) {
    p in prices && forall x | x in prices :: p <= x
  }

  /** What the listed items cost after the discount function. */
  function Kept(prices: seq<nat>, after: nat -> int): nat -> int {
    (i: nat) => if i < |prices| then Max(after(prices[i]), 0) else 0
  }

  /** What a voucher leaves of the price it looks at: what its discount function leaves, but nothing below zero. That
      price is the subtotal, the shipping price, the least listed price, or every listed price. */
  lemma {:induction false} VoucherLeaves(kind: VoucherType, subtotal: nat, shipping: nat, prices: seq<nat>,
                                         after: nat -> int, oncePerOrder: bool)
    requires kind == SpecificProduct ==> prices != []
    ensures var d := VoucherDiscount(kind, subtotal, shipping, prices, after, oncePerOrder);
            match kind
            case EntireOrder => subtotal - d == Max(after(subtotal), 0)
            case Shipping => shipping - d == Max(after(shipping), 0)
            case SpecificProduct =>
              if oncePerOrder
              then exists p: nat :: IsLeast(prices, p) && p - d == Max(after(p), 0)
              else TotalOf(prices) - d == Sum(|prices|, Kept(prices, after))
  {
    if kind == SpecificProduct && !oncePerOrder {
      SumPlus(|prices|, ItemDiscounts(prices, after), Kept(prices, after), Amounts(prices));
    } else if kind == SpecificProduct {
      assert IsLeast(prices, Cheapest(prices));
    }
  }

  /** What the customer pays once the discount has been recalculated. */
  lemma {:induction false} TotalAfterVoucher(kind: VoucherType, subtotal: nat, shipping: nat, prices: seq<nat>,
                                             after: nat -> int, oncePerOrder: bool)
    requires kind == SpecificProduct ==> prices != []
    requires Reduces(after)
    ensures var d := RecalculatedDiscount(kind, subtotal, shipping, prices, after, oncePerOrder);
            var total := CheckoutTotal(subtotal, shipping, d);
            match kind
            case EntireOrder => total == Max(after(subtotal), 0) + shipping
            case Shipping => total == subtotal + Max(after(shipping), 0)
            case SpecificProduct =>
              if oncePerOrder
              then exists p: nat :: IsLeast(prices, p) && total == shipping + Max(subtotal - p + Max(after(p), 0), 0)
              else total == shipping + Max(subtotal - TotalOf(prices) + Sum(|prices|, Kept(prices, after)), 0)
  {
    VoucherLeaves(kind, subtotal, shipping, prices, after, oncePerOrder);
    ClampIdle(kind, subtotal, shipping, prices, after, oncePerOrder);
    hide VoucherDiscount, Sum, TotalOf, Kept, Reduces, IsLeast;
  }

  /** A listed unit price is at most the total of its line. */
  lemma {:induction false} UnitPriceAtMost(lines: seq<PricedLine>, round: (nat, nat) -> nat, price: nat)
    requires ToNearest(round) && forall l | l in lines :: l.quantity > 0
    requires price in UnitPrices(lines, round)
    ensures price <= LineTotals(lines)
  {
    var init, l := lines[..|lines| - 1], lines[|lines| - 1];
    TotalsNonNegative(init);
    if price in UnitPrices(init, round) {
      UnitPriceAtMost(init, round, price);
    } else {
      assert price == round(l.total, l.quantity) && Nearest(price, l.total, l.quantity);
      NearestAtMost(price, l.total, l.quantity);
    }
  }

  lemma {:induction false} TotalsNonNegative(lines: seq<PricedLine>)
    ensures LineTotals(lines) >= 0
  {
    if lines != [] { TotalsNonNegative(lines[..|lines| - 1]); }
  }

  lemma {:induction false} NearestAtMost(u: nat, t: nat, q: nat)
    requires q > 0 && Nearest(u, t, q)
    ensures u <= t
  {
    if u > t { BeyondNearest(u - t - 1, t, q); }
  }

  lemma {:induction false} BeyondNearest(d: nat, t: nat, q: nat)
    requires q > 0
    ensures !Nearest(t + 1 + d, t, q)
  {
    assert (t + 1 + d) * q == t * q + q + d * q;
    assert t * q == t + t * (q - 1);
    assert d * q >= 0 && t * (q - 1) >= 0;
  }

  /** Item by item, the discounts stay within a bound for every discount function exactly when the prices do. */
  lemma {:induction false} ItemsBound(prices: seq<nat>, bound: int)
    requires prices != []
    ensures (forall after: nat -> int | Reduces(after) :: 0 <= ProductsDiscount(prices, after, false) <= bound)
       <==> TotalOf(prices) <= bound
  {
    var n := |prices|;
    var free: nat -> int := (p: nat) => 0;
    forall i: nat | i < n ensures ItemDiscounts(prices, free)(i) == Amounts(prices)(i) {
      assert free(prices[i]) == 0;
    }
    SumEq(n, ItemDiscounts(prices, free), Amounts(prices));
    assert Reduces(free) && ProductsDiscount(prices, free, false) == TotalOf(prices);
    forall after: nat -> int | Reduces(after)
      ensures 0 <= ProductsDiscount(prices, after, false) <= TotalOf(prices)
    {
      SumLe(n, ItemDiscounts(prices, after), Amounts(prices));
      SumNonNegative(n, ItemDiscounts(prices, after));
    }
  }

  /** `add_voucher_to_checkout` stores the discount without that minimum. Whatever the discount function, it stays
      within subtotal plus shipping for vouchers on the whole order, on shipping or once per order; for vouchers on
      every item exactly when the listed unit prices of the discounted lines do. */
  lemma {:induction false} AddedVoucherExact(kind: VoucherType, subtotal: nat, shipping: nat,
                                             lines: seq<PricedLine>, round: (nat, nat) -> nat, oncePerOrder: bool)
    requires kind == SpecificProduct ==> lines != []
    requires ToNearest(round) && LineTotals(lines) <= subtotal && forall l | l in lines :: l.quantity > 0
    ensures kind == SpecificProduct ==> UnitPrices(lines, round) != []
    ensures (forall after: nat -> int | Reduces(after) ::
               0 <= VoucherDiscount(kind, subtotal, shipping, UnitPrices(lines, round), after, oncePerOrder)
                 <= subtotal + shipping)
       <==> kind != SpecificProduct || oncePerOrder || TotalOf(UnitPrices(lines, round)) <= subtotal + shipping
  {
    var prices := UnitPrices(lines, round);
    if kind == SpecificProduct {
      var last := lines[|lines| - 1];
      assert |prices| >= last.quantity > 0;
      ItemsBound(prices, subtotal + shipping);
      UnitPriceAtMost(lines, round, Cheapest(prices));
    }
  }

  /** Three items for two minor units are listed at one each, so a voucher that makes them free exceeds the whole
      checkout and the clamp matters. */
  lemma {:induction false} AddedVoucherExceeds(round: (nat, nat) -> nat, after: nat -> int)
    requires ToNearest(round) && after(1) == 0
    ensures var prices := UnitPrices([PricedLine(2, 3)], round);
            && prices == [1, 1, 1]
            && VoucherDiscount(SpecificProduct, 2, 0, prices, after, false) == 3
            && 2 + 0 - 3 < CheckoutTotal(2, 0, 3)
  {
    assert Nearest(round(2, 3), 2, 3);
    assert [PricedLine(2, 3)][..0] == [];
    assert UnitPrices([PricedLine(2, 3)], round) == [1, 1, 1];
    var f := ItemDiscounts([1, 1, 1], after);
    assert Sum(3, f) == f(0) + f(1) + f(2);
  }
}
