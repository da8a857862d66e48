/**
 The invariants of the order lifecycle, and that placing an order, cancelling a fulfillment and cancelling an
 order keep them. Fulfilling, which keeps only one of the two unconditionally, has a module of its own.
 */
module Lifecycle {
  import opened Sums
  import opened Ledger
  import opened StockLaws
  import opened Shipping
  import opened Placing

  // ----- what every reachable state satisfies -----

  /** One stock per warehouse and variant; an allocation joins a tracked line to a stock of its variant. */
  ghost predicate KeysSound(st: State) {
    && (forall s, t | 0 <= s < t < |st.stocks| ::
         st.stocks[s].warehouse != st.stocks[t].warehouse || st.stocks[s].variant != st.stocks[t].variant)
    && (forall k | k in st.rows ::
         && Tracked(st, k.line) && k.stock < |st.stocks|
         && st.stocks[k.stock].variant == st.lines[k.line].variant)
  }

  /** Foreign keys and unique keys hold, and a fulfillment names an order line at most once. */
  ghost predicate Sound(st: State) {
    && KeysSound(st)
    && (forall l | 0 <= l < |st.lines| :: st.lines[l].order < |st.orders|)
    && (forall f | f in st.fulfillments :: f.order < |st.orders| && GoodShipment(st, f))
  }

  ghost predicate GoodShipment(st: State, f: Fulfillment) {
    && (forall fl | fl in f.lines :: fl.line < |st.lines|)
    && (forall i, j | 0 <= i < j < |f.lines| :: f.lines[i].line != f.lines[j].line)
  }

  /** A line's fulfilled quantity is what its live fulfillments hold. */
  ghost predicate Accounted(st: State) {
    forall l: nat | l < |st.lines| :: st.lines[l].fulfilled == Live(st, l)
  }

  /** What no request can break. */
  ghost predicate Safe(st: State) {
    Sound(st) && NotOverAllocated(st) && Accounted(st)
  }

  predicate IsCanceled(st: State, order: nat) {
    order < |st.orders| && st.orders[order] == Canceled
  }

  /** What a line is promised and what it has received make up what was ordered; a cancelled order is
      promised nothing. */
  ghost predicate LineCovered(st: State, l: nat)
    requires l < |st.lines|
  {
    && st.lines[l].fulfilled <= st.lines[l].quantity
    && (Tracked(st, l) ==>
         OfLine(st, l) == if IsCanceled(st, st.lines[l].order) then 0
                          else st.lines[l].quantity - st.lines[l].fulfilled)
  }

  ghost predicate Covered(st: State) {
    forall l: nat | l < |st.lines| :: LineCovered(st, l)
  }

  /** The lines of a fulfillment are lines of its order. */
  ghost predicate OwnLines(st: State, f: Fulfillment) {
    forall fl | fl in f.lines :: fl.line < |st.lines| && st.lines[fl.line].order == f.order
  }

  ghost predicate Owned(st: State) {
    forall f | f in st.fulfillments :: OwnLines(st, f)
  }

  /** Cancelled orders have no live fulfillment. */
  ghost predicate CanceledIdle(st: State) {
    forall f | f in st.fulfillments && !f.canceled :: !IsCanceled(st, f.order)
  }

  ghost predicate StatusCurrent(st: State) {
    forall o: nat | o < |st.orders| && st.orders[o] != Canceled :: st.orders[o] == StatusOf(st, o)
  }

  /** Orders in good order: what requests on the right lines, for what these lack, keep. */
  ghost predicate Inv(st: State) {
    Safe(st) && Owned(st) && Covered(st) && CanceledIdle(st) && StatusCurrent(st)
  }

  /** A shop with stock and no orders yet. */
  lemma {:induction false} OpeningDay(stocks: seq<Stock>, tracked: set<nat>)
    requires forall s, t | 0 <= s < t < |stocks| ::
               stocks[s].warehouse != stocks[t].warehouse || stocks[s].variant != stocks[t].variant
    ensures Inv(State(stocks, map[], [], [], [], tracked))
  {
  }

  // ----- placing -----

  lemma {:induction false} StatusKept(st: State, next: State, order: nat)
    requires |st.lines| <= |next.lines|
    requires forall l: nat | l < |st.lines| && st.lines[l].order == order :: next.lines[l] == st.lines[l]
    requires forall l: nat | l < |st.lines| && next.lines[l].order == order :: st.lines[l].order == order
    requires forall l: nat | |st.lines| <= l < |next.lines| :: next.lines[l].order != order
    ensures StatusOf(next, order) == StatusOf(st, order)
  {
    SumTail(|st.lines|, |next.lines|, FulfilledOf(next, order));
    SumTail(|st.lines|, |next.lines|, QuantityOf(next, order));
    SumEq(|st.lines|, FulfilledOf(st, order), FulfilledOf(next, order));
    SumEq(|st.lines|, QuantityOf(st, order), QuantityOf(next, order));
  }

  lemma {:induction false} PlaceEffect(st: State, zone: set<nat>, items: seq<Item>)
    requires RowsKnown(st) && Place(st, zone, items).Ok?
    ensures var next, added := Place(st, zone, items).state, AddOrder(st, items);
            && next == added.(rows := next.rows) && RowsGrow(added, next, zone, |st.lines|)
            && (forall l: nat | l < |st.lines| :: OfLine(next, l) == OfLine(st, l))
            && (forall l: nat | |st.lines| <= l < |next.lines| && Tracked(added, l) ::
                 OfLine(next, l) == next.lines[l].quantity)
            && (forall l: nat, s: nat | l < |st.lines| :: At(next.rows, l, s) == At(st.rows, l, s))
            && (NotOverAllocated(st) ==> NotOverAllocated(next))
  {
    var added := AddOrder(st, items);
    forall s: nat ensures InStock(added, s) == InStock(st, s) { AddOrderSums(st, items, s, zone, 0); }
    forall l: nat | l >= |st.lines| ensures OfLine(added, l) == 0 {
      SumTail(0, |st.stocks|, LineRow(st.rows, l));
    }
    forall l: nat ensures OfLine(added, l) == OfLine(st, l) {}
    hide OfLine, InStock;
    AllocateLinesEffect(added, zone, |st.lines|);
    AllocateLinesRows(added, zone, |st.lines|);
  }

  lemma {:induction false} PlaceKeepsSound(st: State, zone: set<nat>, items: seq<Item>)
    requires Sound(st) && Place(st, zone, items).Ok?
    ensures Sound(Place(st, zone, items).state)
  {
    PlaceEffect(st, zone, items);
    hide OfLine, NotOverAllocated, Place, At;
  }

  lemma {:induction false} PlaceKeepsLive(st: State, zone: set<nat>, items: seq<Item>)
    requires Sound(st) && Accounted(st) && Place(st, zone, items).Ok?
    ensures Accounted(Place(st, zone, items).state)
  {
    var next := Place(st, zone, items).state;
    PlaceEffect(st, zone, items);
    hide OfLine, NotOverAllocated, Place, Units;
    forall l: nat ensures Live(next, l) == Live(st, l) {
      SumEq(|st.fulfillments|, LiveIn(st, l), LiveIn(next, l));
    }
    forall l: nat | |st.lines| <= l < |next.lines| ensures Live(next, l) == 0 {
      forall f | f in st.fulfillments ensures Units(f.lines, l) == 0 {
        assert GoodShipment(st, f);
        NoUnits(f.lines, l);
      }
      SumTail(0, |st.fulfillments|, LiveIn(st, l));
    }
  }

  lemma {:induction false} PlaceKeepsSafe(st: State, zone: set<nat>, items: seq<Item>)
    requires Safe(st) && Place(st, zone, items).Ok?
    ensures Safe(Place(st, zone, items).state)
  {
    PlaceEffect(st, zone, items);
    PlaceKeepsSound(st, zone, items);
    PlaceKeepsLive(st, zone, items);
    hide Place, NotOverAllocated, Accounted;
  }

  lemma {:induction false} PlaceKeepsCover(st: State, zone: set<nat>, items: seq<Item>)
    requires Inv(st) && Place(st, zone, items).Ok?
    ensures Covered(Place(st, zone, items).state)
  {
    var next := Place(st, zone, items).state;
    PlaceEffect(st, zone, items);
    hide OfLine, NotOverAllocated, Place, Accounted, StatusCurrent, Owned, CanceledIdle, At, RowsGrow;
    forall l: nat | l < |next.lines| ensures LineCovered(next, l) {
      assert l < |st.lines| ==> LineCovered(st, l);
    }
  }

  lemma {:induction false} PlaceKeepsStatus(st: State, zone: set<nat>, items: seq<Item>)
    requires Sound(st) && StatusCurrent(st) && Place(st, zone, items).Ok?
    ensures StatusCurrent(Place(st, zone, items).state)
  {
    var next, o := Place(st, zone, items).state, |st.orders|;
    PlaceEffect(st, zone, items);
    hide OfLine, NotOverAllocated, Place;
    forall p: nat | p < o ensures StatusOf(next, p) == StatusOf(st, p) { StatusKept(st, next, p); }
    SumTail(0, |next.lines|, FulfilledOf(next, o));
  }

  /** Placing keeps the orders in good order. */
  lemma {:induction false} PlaceKeeps(st: State, zone: set<nat>, items: seq<Item>)
    requires Inv(st) && Place(st, zone, items).Ok?
    ensures Inv(Place(st, zone, items).state)
  {
    PlaceKeepsSafe(st, zone, items);
    PlaceKeepsCover(st, zone, items);
    PlaceKeepsStatus(st, zone, items);
    PlaceEffect(st, zone, items);
    hide Place, Safe, Covered, StatusCurrent, OfLine, NotOverAllocated;
    forall f | f in st.fulfillments ensures OwnLines(Place(st, zone, items).state, f) { assert OwnLines(st, f); }
  }

  lemma {:induction false} NoUnits(lines: seq<FulfillmentLine>, line: nat)
    requires forall fl | fl in lines :: fl.line != line
    ensures Units(lines, line) == 0
  {
    if lines != [] { NoUnits(lines[1..], line); }
  }

  // ----- what a step leaves alone -----

  /** The order whose status a step sets is current; the others' lines did not change. */
  lemma {:induction false} StatusAfter(st: State, next: State, order: nat)
    requires order < |st.orders| && SameShape(st, next) && StatusCurrent(st)
    requires forall l: nat | l < |st.lines| && st.lines[l].order != order :: next.lines[l] == st.lines[l]
    ensures StatusCurrent(UpdateStatus(next, order))
  {
    var done := UpdateStatus(next, order);
    forall p: nat | p < |st.orders|
      ensures StatusOf(done, p) == if p == order then StatusOf(next, p) else StatusOf(st, p)
    {
      StatusKept(next, done, p);
      if p != order { StatusKept(st, next, p); }
    }
  }

  lemma {:induction false} KeysKept(st: State, next: State)
    requires KeysSound(st) && SameShape(st, next.(orders := st.orders))
    requires |next.stocks| == |st.stocks| && next.rows.Keys == st.rows.Keys
    ensures KeysSound(next)
  {
  }

  /** A line whose order has no live fulfillment has nothing fulfilled. */
  lemma {:induction false} NothingLive(st: State, l: nat)
    requires Owned(st) && l < |st.lines|
    requires forall f | f in st.fulfillments && f.order == st.lines[l].order :: f.canceled
    ensures Live(st, l) == 0
  {
    forall f: nat | f < |st.fulfillments| ensures LiveIn(st, l)(f) == 0 {
      var shipment := st.fulfillments[f];
      assert OwnLines(st, shipment);
      if !shipment.canceled { NoUnits(shipment.lines, l); }
    }
    SumTail(0, |st.fulfillments|, LiveIn(st, l));
  }

  // ----- cancelling a fulfillment -----

  lemma {:induction false} RestockLineKeys(st: State, warehouse: nat, fl: FulfillmentLine)
    requires fl.line < |st.lines| && KeysSound(st)
    ensures KeysSound(RestockLine(st, warehouse, fl))
  {
  }

  lemma {:induction false} RestockKeys(st: State, warehouse: nat, lines: seq<FulfillmentLine>, i: nat)
    requires i <= |lines| && KnownFulfillmentLines(st, lines) && KeysSound(st)
    ensures KeysSound(Restock(st, warehouse, lines, i))
    decreases |lines| - i
  {
    if i < |lines| {
      RestockLineKeys(st, warehouse, lines[i]);
      hide KeysSound;
      RestockKeys(RestockLine(st, warehouse, lines[i]), warehouse, lines, i + 1);
    }
  }

  /** The restocked tables, before the fulfillment is marked and the status set. */
  lemma {:induction false} RestockWhole(st: State, f: nat, warehouse: nat)
    requires Sound(st) && f < |st.fulfillments|
    ensures var lines := st.fulfillments[f].lines;
            && KnownFulfillmentLines(st, lines)
            && var mid := Restock(st, warehouse, lines, 0);
               && SameShape(st, mid) && KeysSound(mid) && mid.fulfillments == st.fulfillments
               && (forall l: nat | l < |st.lines| ::
                    mid.lines[l].fulfilled == st.lines[l].fulfilled - Units(lines, l))
               && (forall l: nat | l < |st.lines| :: OfLine(mid, l)
                    == OfLine(st, l) + if Tracked(st, l) then Units(lines, l) else 0)
               && (forall l: nat :: Live(mid, l) == Live(st, l))
               && (NotOverAllocated(st) ==> NotOverAllocated(mid))
               && (forall v | v in st.tracked :: Physical(mid, v) == Physical(st, v))
  {
    var lines := st.fulfillments[f].lines;
    assert GoodShipment(st, st.fulfillments[f]);
    RestockEffect(st, warehouse, lines, 0);
    RestockKeys(st, warehouse, lines, 0);
    var mid := Restock(st, warehouse, lines, 0);
    forall l: nat ensures Live(mid, l) == Live(st, l) { SumEq(|st.fulfillments|, LiveIn(st, l), LiveIn(mid, l)); }
    assert lines[0..] == lines;
  }

  /** Marking a fulfillment and setting a status leaves every sum but the live units alone. */
  lemma {:induction false} MarkEffect(mid: State, f: nat)
    requires f < |mid.fulfillments| && !mid.fulfillments[f].canceled && mid.fulfillments[f].order < |mid.orders|
    ensures var next := UpdateStatus(MarkCanceled(mid, f), mid.fulfillments[f].order);
            && (forall l: nat :: OfLine(next, l) == OfLine(mid, l))
            && (forall l: nat :: Live(next, l) == Live(mid, l) - Units(mid.fulfillments[f].lines, l))
            && (NotOverAllocated(mid) ==> NotOverAllocated(next))
            && (forall v :: Physical(next, v) == Physical(mid, v))
            && next.orders == mid.orders[mid.fulfillments[f].order := StatusOf(next, mid.fulfillments[f].order)]
  {
    var next := UpdateStatus(MarkCanceled(mid, f), mid.fulfillments[f].order);
    forall l: nat ensures Live(next, l) == Live(mid, l) - Units(mid.fulfillments[f].lines, l) {
      SumPoint(|mid.fulfillments|, LiveIn(mid, l), LiveIn(next, l), f);
    }
    forall s: nat ensures InStock(next, s) == InStock(mid, s) {}
    StatusKept(mid, next, mid.fulfillments[f].order);
  }

  lemma {:induction false} CancelFulfillmentEffect(st: State, f: nat, warehouse: nat)
    requires Sound(st) && f < |st.fulfillments| && !st.fulfillments[f].canceled
    ensures KnownFulfillmentLines(st, st.fulfillments[f].lines)
    ensures var next, shipment := CancelFulfillment(st, f, warehouse), st.fulfillments[f];
            && SameShape(st, next.(orders := st.orders)) && KeysSound(next)
            && next.fulfillments == st.fulfillments[f := shipment.(canceled := true)]
            && next.orders == st.orders[shipment.order := StatusOf(next, shipment.order)]
            && (forall l: nat | l < |st.lines| ::
                 next.lines[l].fulfilled == st.lines[l].fulfilled - Units(shipment.lines, l))
            && (forall l: nat | l < |st.lines| :: OfLine(next, l)
                 == OfLine(st, l) + if Tracked(st, l) then Units(shipment.lines, l) else 0)
            && (forall l: nat :: Live(next, l) == Live(st, l) - Units(shipment.lines, l))
            && (NotOverAllocated(st) ==> NotOverAllocated(next))
            && (forall v | v in st.tracked :: Physical(next, v) == Physical(st, v))
  {
    hide Restock, OfLine, Live, StatusOf, Physical, NotOverAllocated, Units;
    RestockWhole(st, f, warehouse);
    MarkEffect(Restock(st, warehouse, st.fulfillments[f].lines, 0), f);
  }

  lemma {:induction false} CancelFulfillmentKeepsSafe(st: State, f: nat, warehouse: nat)
    requires Safe(st) && f < |st.fulfillments| && !st.fulfillments[f].canceled
    ensures KnownFulfillmentLines(st, st.fulfillments[f].lines)
    ensures Safe(CancelFulfillment(st, f, warehouse))
  {
    var shipment, next := st.fulfillments[f], CancelFulfillment(st, f, warehouse);
    assert GoodShipment(st, shipment);
    CancelFulfillmentEffect(st, f, warehouse);
    hide OfLine, NotOverAllocated, Live, Physical, StatusOf, Units, Restock, KeysSound;
    forall g | g in next.fulfillments ensures g.order < |next.orders| && GoodShipment(next, g) {
      if g in st.fulfillments { assert GoodShipment(st, g); }
    }
  }

  lemma {:induction false} CancelFulfillmentKeeps(st: State, f: nat, warehouse: nat)
    requires Inv(st) && f < |st.fulfillments| && !st.fulfillments[f].canceled
    ensures KnownFulfillmentLines(st, st.fulfillments[f].lines)
    ensures Inv(CancelFulfillment(st, f, warehouse))
  {
    var shipment, next := st.fulfillments[f], CancelFulfillment(st, f, warehouse);
    CancelFulfillmentKeepsSafe(st, f, warehouse);
    CancelFulfillmentEffect(st, f, warehouse);
    assert OwnLines(st, shipment);
    forall l: nat | l < |st.lines| && st.lines[l].order != shipment.order ensures Units(shipment.lines, l) == 0 {
      NoUnits(shipment.lines, l);
    }
    StatusAfter(st, MarkCanceled(Restock(st, warehouse, shipment.lines, 0), f), shipment.order);
    hide OfLine, NotOverAllocated, Live, Physical, StatusOf, Units, Restock, KeysSound, StatusCurrent, Safe;
    assert Owned(next) by {
      forall g | g in next.fulfillments ensures OwnLines(next, g) {
        if g in st.fulfillments { assert OwnLines(st, g); }
      }
    }
    hide Owned;
    forall l: nat | l < |next.lines| ensures LineCovered(next, l) { assert LineCovered(st, l); }
  }

  // ----- cancelling an order -----

  lemma {:induction false} CancelOrderEffect(st: State, order: nat)
    requires order < |st.orders|
    ensures var next := CancelOrder(st, order);
            && (forall l: nat, s: nat :: At(next.rows, l, s)
                 == if l in LinesOf(st, order) then 0 else At(st.rows, l, s))
            && (forall l: nat :: OfLine(next, l) == if l in LinesOf(st, order) then 0 else OfLine(st, l))
            && (NotOverAllocated(st) ==> NotOverAllocated(next))
  {
    var next := CancelOrder(st, order);
    forall l: nat ensures OfLine(next, l) == if l in LinesOf(st, order) then 0 else OfLine(st, l) {
      if l in LinesOf(st, order) { SumTail(0, |st.stocks|, LineRow(next.rows, l)); }
      else { SumEq(|st.stocks|, LineRow(st.rows, l), LineRow(next.rows, l)); }
    }
    forall s: nat ensures InStock(next, s) <= InStock(st, s) {
      SumLe(|st.lines|, StockColumn(next.rows, s), StockColumn(st.rows, s));
    }
  }

  lemma {:induction false} CancelOrderSound(st: State, order: nat)
    requires Sound(st) && order < |st.orders|
    ensures Sound(CancelOrder(st, order))
  {
  }

  lemma {:induction false} CancelOrderKeepsSafe(st: State, order: nat)
    requires Safe(st) && order < |st.orders|
    ensures Safe(CancelOrder(st, order))
  {
    var next := CancelOrder(st, order);
    CancelOrderSound(st, order);
    CancelOrderEffect(st, order);
    forall l: nat ensures Live(next, l) == Live(st, l) {
      SumEq(|st.fulfillments|, LiveIn(st, l), LiveIn(next, l));
    }
    hide Live, Sound, NotOverAllocated;
  }

  lemma {:induction false} CancelOrderCovers(st: State, order: nat)
    requires Owned(st) && Accounted(st) && Covered(st) && CanCancel(st, order)
    ensures Covered(CancelOrder(st, order))
  {
    var next := CancelOrder(st, order);
    CancelOrderEffect(st, order);
    forall l: nat | l in LinesOf(st, order) ensures st.lines[l].fulfilled == 0 { NothingLive(st, l); }
    hide OfLine, NotOverAllocated, Live, Owned, CanCancel;
    forall l: nat | l < |next.lines| ensures LineCovered(next, l) { assert LineCovered(st, l); }
  }

  lemma {:induction false} CancelOrderKeeps(st: State, order: nat)
    requires Inv(st) && CanCancel(st, order)
    ensures Inv(CancelOrder(st, order))
  {
    var next := CancelOrder(st, order);
    CancelOrderKeepsSafe(st, order);
    CancelOrderCovers(st, order);
    forall p: nat ensures StatusOf(next, p) == StatusOf(st, p) { StatusKept(st, next, p); }
    hide Covered, StatusOf, Safe;
    forall f | f in st.fulfillments ensures OwnLines(next, f) { assert OwnLines(st, f); }
  }
}
