/**
 What one step of the lifecycle undoes: cancelling a fresh order, and cancelling a fresh fulfillment into
 the warehouse it was shipped from.
 */
module Undo {
  import opened Sums
  import opened Ledger
  import opened StockLaws
  import opened Shipping
  import opened Placing
  import opened Lifecycle
  import opened Fulfilling
  import opened Runs

  // ----- place, then cancel -----

  /** A freshly placed order can be cancelled, and doing so gives back every unit it was promised: stocks,
      the other lines' rows and every stock's promised and free units are as they were. */
  lemma {:induction false} PlaceThenCancel(st: State, zone: set<nat>, items: seq<Item>)
    requires Sound(st) && Place(st, zone, items).Ok?
    ensures CanCancel(Place(st, zone, items).state, |st.orders|)
    ensures var back := CancelOrder(Place(st, zone, items).state, |st.orders|);
            && back.stocks == st.stocks
            && (forall l: nat, s: nat :: At(back.rows, l, s) == At(st.rows, l, s))
            && (forall s: nat :: InStock(back, s) == InStock(st, s))
  {
    var placed, o := Place(st, zone, items).state, |st.orders|;
    PlaceEffect(st, zone, items);
    CancelOrderEffect(placed, o);
    var back := CancelOrder(placed, o);
    hide Place, OfLine, NotOverAllocated, InStock;
    forall l: nat, s: nat ensures At(back.rows, l, s) == At(st.rows, l, s) {
      if l >= |placed.lines| { assert Pair(l, s) !in placed.rows; }
    }
    PromisedBack(st, back);
  }

  lemma {:induction false} PromisedBack(st: State, back: State)
    requires RowsKnown(st) && |st.lines| <= |back.lines|
    requires forall l: nat, s: nat :: At(back.rows, l, s) == At(st.rows, l, s)
    ensures forall s: nat :: InStock(back, s) == InStock(st, s)
  {
    forall s: nat ensures InStock(back, s) == InStock(st, s) {
      SumTail(|st.lines|, |back.lines|, StockColumn(st.rows, s));
      SumEq(|back.lines|, StockColumn(st.rows, s), StockColumn(back.rows, s));
    }
  }

  // ----- fulfil, then cancel the fulfillment -----

  lemma {:induction false} FindStockStable(st: State, next: State, warehouse: nat, variant: nat)
    requires KeysSound(st) && SameShape(st, next) && |next.stocks| == |st.stocks|
    ensures FindStock(next.stocks, warehouse, variant) == FindStock(st.stocks, warehouse, variant)
  {
  }

  /** Only tracked stock of one warehouse moved, and no stock row was added. */
  ghost predicate OnlyWarehouse(st: State, next: State, warehouse: nat) {
    && SameShape(st, next) && |next.stocks| == |st.stocks|
    && forall s: nat | s < |st.stocks| && (st.stocks[s].warehouse != warehouse || st.stocks[s].variant !in st.tracked)
         :: next.stocks[s] == st.stocks[s]
  }

  /** The asks from index i on find a stock in the warehouse. */
  predicate Stockable(st: State, warehouse: nat, asks: seq<Ask>, i: nat)
    requires KnownLines(st, asks)
  {
    forall j | i <= j < |asks| && asks[j].quantity > 0 ::
      FindStock(st.stocks, warehouse, st.lines[asks[j].line].variant).Some?
  }

  lemma {:induction false} FulfillLineWarehouse(st: State, line: nat, q: nat, warehouse: nat)
    requires line < |st.lines| && FulfillLine(st, line, q, warehouse).Ok?
    ensures var next := FulfillLine(st, line, q, warehouse).state;
            OnlyWarehouse(st, next, warehouse)
            && forall l: nat, s: nat :: At(next.rows, l, s) <= At(st.rows, l, s)
  {
    FulfillLineEffect(st, line, q, warehouse);
    if Tracked(st, line) {
      DecreaseEffect(st, line, q, warehouse);
      ReleaseEffect(st, line, q);
      var next, released := FulfillLine(st, line, q, warehouse).state, Release(st, line, q);
      assert next.rows == released.rows;
      forall l: nat, s: nat ensures At(next.rows, l, s) <= At(st.rows, l, s) {}
    }
  }

  lemma {:induction false} FulfillLineKeys(st: State, line: nat, q: nat, warehouse: nat)
    requires line < |st.lines| && FulfillLine(st, line, q, warehouse).Ok? && KeysSound(st)
    ensures var next := FulfillLine(st, line, q, warehouse).state;
            KeysSound(next) && forall v :: FindStock(next.stocks, warehouse, v) == FindStock(st.stocks, warehouse, v)
  {
    var next := FulfillLine(st, line, q, warehouse).state;
    FulfillLineEffect(st, line, q, warehouse);
    KeysKept(st, next);
    hide FulfillLine;
    forall v ensures FindStock(next.stocks, warehouse, v) == FindStock(st.stocks, warehouse, v) {
      FindStockStable(st, next, warehouse, v);
    }
  }

  lemma {:induction false} FulfillAsksWarehouse(st: State, warehouse: nat, asks: seq<Ask>, i: nat)
    requires i <= |asks| && KnownLines(st, asks) && FulfillAsks(st, warehouse, asks, i).Ok?
    ensures OnlyWarehouse(st, FulfillAsks(st, warehouse, asks, i).state, warehouse)
    decreases |asks| - i
  {
    if i < |asks| {
      if asks[i].quantity <= 0 {
        FulfillAsksWarehouse(st, warehouse, asks, i + 1);
      } else {
        FulfillLineWarehouse(st, asks[i].line, asks[i].quantity, warehouse);
        hide FulfillLine, At;
        FulfillAsksWarehouse(FulfillLine(st, asks[i].line, asks[i].quantity, warehouse).state, warehouse, asks, i + 1);
      }
    }
  }

  /** Fulfilling only lowers allocation rows, and every ask found a stock in the warehouse. */
  lemma {:induction false} FulfillAsksRows(st: State, warehouse: nat, asks: seq<Ask>, i: nat)
    requires i <= |asks| && KnownLines(st, asks) && FulfillAsks(st, warehouse, asks, i).Ok? && KeysSound(st)
    ensures Stockable(st, warehouse, asks, i)
    ensures forall l: nat, s: nat ::
              At(FulfillAsks(st, warehouse, asks, i).state.rows, l, s) <= At(st.rows, l, s)
    decreases |asks| - i
  {
    if i < |asks| {
      if asks[i].quantity <= 0 {
        FulfillAsksRows(st, warehouse, asks, i + 1);
      } else {
        var mid := FulfillLine(st, asks[i].line, asks[i].quantity, warehouse).state;
        FulfillLineWarehouse(st, asks[i].line, asks[i].quantity, warehouse);
        FulfillLineKeys(st, asks[i].line, asks[i].quantity, warehouse);
        hide FulfillLine, At, KeysSound, FindStock;
        FulfillAsksRows(mid, warehouse, asks, i + 1);
      }
    }
  }

  predicate Restockable(st: State, warehouse: nat, lines: seq<FulfillmentLine>, i: nat)
    requires KnownFulfillmentLines(st, lines)
  {
    forall j | i <= j < |lines| :: FindStock(st.stocks, warehouse, st.lines[lines[j].line].variant).Some?
  }

  lemma {:induction false} RestockLineWarehouse(st: State, warehouse: nat, fl: FulfillmentLine)
    requires fl.line < |st.lines| && FindStock(st.stocks, warehouse, st.lines[fl.line].variant).Some?
    ensures var next := RestockLine(st, warehouse, fl);
            && OnlyWarehouse(st, next, warehouse)
            && (forall l: nat, s: nat | s < |st.stocks| && st.stocks[s].warehouse != warehouse ::
                 At(next.rows, l, s) == At(st.rows, l, s))
  {
  }

  lemma {:induction false} RestockWarehouse(st: State, warehouse: nat, lines: seq<FulfillmentLine>, i: nat)
    requires i <= |lines| && KnownFulfillmentLines(st, lines) && KeysSound(st)
    requires Restockable(st, warehouse, lines, i)
    ensures OnlyWarehouse(st, Restock(st, warehouse, lines, i), warehouse)
    decreases |lines| - i
  {
    if i < |lines| {
      var mid := RestockLine(st, warehouse, lines[i]);
      RestockLineWarehouse(st, warehouse, lines[i]);
      RestockLineKeys(st, warehouse, lines[i]);
      forall v { FindStockStable(st, mid, warehouse, v); }
      hide RestockLine, At, KeysSound, FindStock;
      RestockWarehouse(mid, warehouse, lines, i + 1);
    }
  }

  lemma {:induction false} RestockRows(st: State, warehouse: nat, lines: seq<FulfillmentLine>, i: nat, l: nat, s: nat)
    requires i <= |lines| && KnownFulfillmentLines(st, lines) && KeysSound(st)
    requires Restockable(st, warehouse, lines, i)
    requires s < |st.stocks| && st.stocks[s].warehouse != warehouse
    ensures At(Restock(st, warehouse, lines, i).rows, l, s) == At(st.rows, l, s)
    decreases |lines| - i
  {
    if i < |lines| {
      var mid := RestockLine(st, warehouse, lines[i]);
      RestockLineWarehouse(st, warehouse, lines[i]);
      RestockLineKeys(st, warehouse, lines[i]);
      forall v { FindStockStable(st, mid, warehouse, v); }
      hide RestockLine, At, KeysSound, FindStock;
      RestockRows(mid, warehouse, lines, i + 1, l, s);
    }
  }

  lemma {:induction false} ShippedStockable(st: State, warehouse: nat, asks: seq<Ask>, i: nat)
    requires i <= |asks| && KnownLines(st, asks) && Stockable(st, warehouse, asks, i)
    ensures forall fl | fl in Shipped(asks, i) ::
              fl.line < |st.lines| && FindStock(st.stocks, warehouse, st.lines[fl.line].variant).Some?
    decreases |asks| - i
  {
    if i < |asks| { ShippedStockable(st, warehouse, asks, i + 1); }
  }

  /** When only one warehouse's tracked stock moved and nothing is delivered more or less, conservation puts
      every stock back where it was. */
  lemma {:induction false} StocksReturn(st: State, back: State, warehouse: nat)
    requires KeysSound(st) && OnlyWarehouse(st, back, warehouse) && back.lines == st.lines
    requires forall v | v in st.tracked :: Physical(back, v) == Physical(st, v)
    ensures back.stocks == st.stocks
  {
    forall s: nat | s < |st.stocks| ensures back.stocks[s] == st.stocks[s] {
      var v := st.stocks[s].variant;
      if st.stocks[s].warehouse == warehouse && v in st.tracked {
        SumEq(|st.lines|, Delivered(st, v), Delivered(back, v));
        SumPoint(|st.stocks|, Held(st, v), Held(back, v), s);
      }
    }
  }

  lemma {:induction false} ShippedWarehouse(st: State, order: nat, parcel: Parcel)
    requires Sound(st) && Accepted(st, order, [parcel]) && CreateFulfillments(st, order, [parcel]).Ok?
    ensures var shipped, lines := CreateFulfillments(st, order, [parcel]).state, Shipped(parcel.asks, 0);
            && OnlyWarehouse(st, shipped.(orders := st.orders), parcel.warehouse)
            && (forall l: nat, s: nat :: At(shipped.rows, l, s) <= At(st.rows, l, s))
            && KnownFulfillmentLines(shipped, lines)
            && (forall l: nat, s: nat | s < |st.stocks| && st.stocks[s].warehouse != parcel.warehouse ::
                 At(Restock(shipped, parcel.warehouse, lines, 0).rows, l, s) == At(shipped.rows, l, s))
            && OnlyWarehouse(shipped, Restock(shipped, parcel.warehouse, lines, 0), parcel.warehouse)
  {
    var asks, w := parcel.asks, parcel.warehouse;
    var done, shipped := FulfillAsks(st, w, asks, 0).state, CreateFulfillments(st, order, [parcel]).state;
    assert FulfillParcels(st, order, [parcel], 0) == Ok(Record(done, order, asks));
    FulfillAsksWarehouse(st, w, asks, 0);
    FulfillAsksRows(st, w, asks, 0);
    FulfillKeepsSound(st, order, [parcel]);
    ShippedStockable(st, w, asks, 0);
    forall v ensures FindStock(shipped.stocks, w, v) == FindStock(st.stocks, w, v) {
      FindStockStable(st, shipped.(orders := st.orders), w, v);
    }
    hide FulfillAsks, CreateFulfillments, FindStock, KeysSound;
    RestockWarehouse(shipped, w, Shipped(asks, 0), 0);
    forall l: nat, s: nat | s < |st.stocks| && st.stocks[s].warehouse != w
      ensures At(Restock(shipped, w, Shipped(asks, 0), 0).rows, l, s) == At(shipped.rows, l, s)
    {
      RestockRows(shipped, w, Shipped(asks, 0), 0, l, s);
    }
  }

  lemma {:induction false} ShippedEditable(st: State, order: nat, parcel: Parcel)
    requires Sound(st) && Accepted(st, order, [parcel]) && CreateFulfillments(st, order, [parcel]).Ok?
    ensures var shipped, f := CreateFulfillments(st, order, [parcel]).state, |st.fulfillments|;
            && CanEdit(shipped, f)
            && shipped.fulfillments[f] == Fulfillment(order, false, Shipped(parcel.asks, 0))
  {
    var mid := Record(FulfillAsks(st, parcel.warehouse, parcel.asks, 0).state, order, parcel.asks);
    ParcelEffect(st, order, parcel);
    assert FulfillParcels(st, order, [parcel], 0) == Ok(mid);
    ShippedGood(st, order, parcel.asks, 0);
  }

  /** The amounts of the two steps cancel out, but for units that were shipped without being promised: these are
      promised afterwards. */
  lemma {:induction false} AmountsReturn(st: State, order: nat, parcel: Parcel)
    requires Sound(st) && Accepted(st, order, [parcel]) && CreateFulfillments(st, order, [parcel]).Ok?
    ensures var shipped, f := CreateFulfillments(st, order, [parcel]).state, |st.fulfillments|;
            && CanEdit(shipped, f)
            && var back := CancelFulfillment(shipped, f, parcel.warehouse);
               && SameShape(st, back.(orders := st.orders)) && |back.orders| == |st.orders|
               && (forall l: nat | l < |st.lines| :: back.lines[l].fulfilled == st.lines[l].fulfilled)
               && (forall l: nat | l < |st.lines| :: OfLine(back, l)
                    == if Tracked(st, l) then Max(OfLine(st, l), AskedAll([parcel], 0, l)) else OfLine(st, l))
               && (forall v | v in st.tracked :: Physical(back, v) == Physical(st, v))
               && back.orders == st.orders[order := StatusOf(back, order)]
  {
    hide FulfillParcels, Restock, StatusOf, Units;
    var shipped, f := CreateFulfillments(st, order, [parcel]).state, |st.fulfillments|;
    var mid := FulfillParcels(st, order, [parcel], 0).state;
    ShippedEditable(st, order, parcel);
    FulfillParcelsEffect(st, order, [parcel], 0);
    FulfillKeepsSound(st, order, [parcel]);
    StatusFrame(mid, order);
    forall l: nat ensures Units(Shipped(parcel.asks, 0), l) == AskedAll([parcel], 0, l) {
      ShippedUnits(parcel.asks, 0, l);
    }
    CancelFulfillmentEffect(shipped, f, parcel.warehouse);
    hide AskedAll, OfLine, Physical, Live, NotOverAllocated, Sound;
  }

  /** Shipping one parcel and cancelling that fulfillment into the same warehouse restores every stock quantity and
      every order line, whatever the request names; the order's status is then current, and a tracked line is
      promised what it was or what was shipped, whichever is more. */
  lemma {:induction false} FulfillThenCancel(st: State, order: nat, parcel: Parcel)
    requires Sound(st) && Accepted(st, order, [parcel]) && CreateFulfillments(st, order, [parcel]).Ok?
    ensures var shipped, f := CreateFulfillments(st, order, [parcel]).state, |st.fulfillments|;
            && CanEdit(shipped, f)
            && var back := CancelFulfillment(shipped, f, parcel.warehouse);
               && back.stocks == st.stocks && back.lines == st.lines
               && back.orders == st.orders[order := StatusOf(st, order)]
               && forall l: nat | l < |st.lines| :: OfLine(back, l)
                    == if Tracked(st, l) then Max(OfLine(st, l), AskedAll([parcel], 0, l)) else OfLine(st, l)
  {
    var shipped, f, w := CreateFulfillments(st, order, [parcel]).state, |st.fulfillments|, parcel.warehouse;
    AmountsReturn(st, order, parcel);
    ShippedEditable(st, order, parcel);
    ShippedWarehouse(st, order, parcel);
    var back := CancelFulfillment(shipped, f, w);
    assert back.stocks == Restock(shipped, w, Shipped(parcel.asks, 0), 0).stocks;
    hide CreateFulfillments, CancelFulfillment, CanEdit, OfLine, Physical, StatusOf, Accepted, Restock, At, AskedAll;
    assert back.lines == st.lines;
    StocksReturn(st, back.(orders := st.orders), w);
    StatusKept(st, back, order);
  }

  /** From orders in good order the way back is complete, every promised total and every status included, exactly
      when the order was open and no more was shipped of a tracked line than it was promised. */
  lemma {:induction false} FulfillThenCancelExact(st: State, order: nat, parcel: Parcel)
    requires Inv(st) && Accepted(st, order, [parcel]) && CreateFulfillments(st, order, [parcel]).Ok?
    ensures var shipped, f := CreateFulfillments(st, order, [parcel]).state, |st.fulfillments|;
            && CanEdit(shipped, f)
            && var back := CancelFulfillment(shipped, f, parcel.warehouse);
               (back.orders == st.orders && forall l: nat | l < |st.lines| :: OfLine(back, l) == OfLine(st, l))
               <==> !IsCanceled(st, order)
                    && forall l: nat | Tracked(st, l) :: AskedAll([parcel], 0, l) <= OfLine(st, l)
  {
    FulfillThenCancel(st, order, parcel);
    hide CreateFulfillments, CancelFulfillment, CanEdit, OfLine, FulfilledOf, QuantityOf, AskedAll, Safe, Owned;
  }

  /** A line promised one warehouse's stock only has all its units on the stock of its variant there. */
  lemma {:induction false} SoleRow(st: State, line: nat, s: nat, warehouse: nat)
    requires KeysSound(st) && line < |st.lines| && s < |st.stocks|
    requires st.stocks[s].warehouse == warehouse && st.stocks[s].variant == st.lines[line].variant
    requires forall t: nat | t < |st.stocks| && st.stocks[t].warehouse != warehouse :: At(st.rows, line, t) == 0
    ensures OfLine(st, line) == At(st.rows, line, s)
  {
    var zero := (t: nat) => 0;
    SumTail(0, |st.stocks|, zero);
    SumPoint(|st.stocks|, zero, LineRow(st.rows, line), s);
  }

  /** A line that is promised one warehouse's stock only, before and after, has the same rows exactly when it has the
      same total. */
  lemma {:induction false} RowsAsTotal(st: State, back: State, line: nat, warehouse: nat)
    requires KeysSound(st) && KeysSound(back) && back.stocks == st.stocks && back.lines == st.lines && line < |st.lines|
    requires forall s: nat | s < |st.stocks| && st.stocks[s].warehouse != warehouse ::
               At(st.rows, line, s) == 0 && At(back.rows, line, s) == 0
    ensures (forall s: nat | s < |st.stocks| :: At(back.rows, line, s) == At(st.rows, line, s))
       <==> OfLine(back, line) == OfLine(st, line)
  {
    if forall s: nat | s < |st.stocks| :: At(back.rows, line, s) == At(st.rows, line, s) {
      SumEq(|st.stocks|, LineRow(st.rows, line), LineRow(back.rows, line));
    }
    if OfLine(back, line) == OfLine(st, line) {
      hide Sum;
      forall s: nat | s < |st.stocks| ensures At(back.rows, line, s) == At(st.rows, line, s) {
        if st.stocks[s].warehouse == warehouse && st.stocks[s].variant == st.lines[line].variant {
          SoleRow(st, line, s, warehouse);
          SoleRow(back, line, s, warehouse);
        } else if st.stocks[s].warehouse == warehouse {
          assert Pair(line, s) !in st.rows && Pair(line, s) !in back.rows;
        }
      }
    }
  }

  lemma {:induction false} CanCancelWith(st: State, next: State, order: nat, f: Fulfillment)
    requires order < |st.orders| == |next.orders| && next.orders[order] != Canceled && st.orders[order] != Canceled
    requires next.fulfillments == st.fulfillments + [f] && f.order == order
    ensures CanCancel(next, order) <==> CanCancel(st, order) && f.canceled
  {
    assert forall g :: g in next.fulfillments <==> g in st.fulfillments || g == f;
  }

  /** An order with a live fulfillment cannot be cancelled. Once that is cancelled it can be again, if it could
      before. */
  lemma {:induction false} CancellableAgain(st: State, order: nat, parcel: Parcel)
    requires Sound(st) && Accepted(st, order, [parcel]) && CreateFulfillments(st, order, [parcel]).Ok?
    requires !IsCanceled(st, order)
    ensures var shipped, f := CreateFulfillments(st, order, [parcel]).state, |st.fulfillments|;
            && CanEdit(shipped, f) && !CanCancel(shipped, order)
            && (CanCancel(CancelFulfillment(shipped, f, parcel.warehouse), order) <==> CanCancel(st, order))
  {
    var shipped, f := CreateFulfillments(st, order, [parcel]).state, |st.fulfillments|;
    ShippedEditable(st, order, parcel);
    FulfillKeepsSound(st, order, [parcel]);
    var back := CancelFulfillment(shipped, f, parcel.warehouse);
    FulfillParcelsAdds(st, order, [parcel], 0);
    FulfillThenCancel(st, order, parcel);
    CancelFulfillmentEffect(shipped, f, parcel.warehouse);
    hide CreateFulfillments, CancelFulfillment, OfLine, Physical, FulfilledOf, QuantityOf, Live, AskedAll, CanCancel;
    hide NotOverAllocated, KeysSound, Shipped, Sound, Accepted, Units, FulfillParcels;
    assert shipped.fulfillments == st.fulfillments + [shipped.fulfillments[f]];
    assert back.fulfillments == st.fulfillments + [shipped.fulfillments[f].(canceled := true)];
    CanCancelWith(st, shipped, order, shipped.fulfillments[f]);
    CanCancelWith(st, back, order, shipped.fulfillments[f].(canceled := true));
  }

  /** Cancelling is once and for all: a cancelled order cannot be cancelled again. */
  lemma {:induction false} CanceledOnce(st: State, order: nat)
    requires CanCancel(st, order)
    ensures IsCanceled(CancelOrder(st, order), order) && !CanCancel(CancelOrder(st, order), order)
  {
  }

  /** The allocation rows of a line that was promised that warehouse's stock only come back exactly when no more
      of it was shipped than it was promised. */
  lemma {:induction false} FulfillThenCancelRows(st: State, order: nat, parcel: Parcel, line: nat)
    requires Sound(st) && Accepted(st, order, [parcel]) && CreateFulfillments(st, order, [parcel]).Ok?
    requires line < |st.lines|
    requires forall s: nat | s < |st.stocks| && st.stocks[s].warehouse != parcel.warehouse ::
               At(st.rows, line, s) == 0
    ensures CanEdit(CreateFulfillments(st, order, [parcel]).state, |st.fulfillments|)
    ensures var back := CancelFulfillment(
                          CreateFulfillments(st, order, [parcel]).state, |st.fulfillments|, parcel.warehouse);
            (forall s: nat | s < |st.stocks| :: At(back.rows, line, s) == At(st.rows, line, s))
            <==> (Tracked(st, line) ==> AskedAll([parcel], 0, line) <= OfLine(st, line))
  {
    var shipped, f, w := CreateFulfillments(st, order, [parcel]).state, |st.fulfillments|, parcel.warehouse;
    FulfillThenCancel(st, order, parcel);
    ShippedEditable(st, order, parcel);
    ShippedWarehouse(st, order, parcel);
    FulfillKeepsSound(st, order, [parcel]);
    CancelFulfillmentEffect(shipped, f, w);
    var back := CancelFulfillment(shipped, f, w);
    assert back.rows == Restock(shipped, w, Shipped(parcel.asks, 0), 0).rows;
    hide CreateFulfillments, CancelFulfillment, CanEdit, Physical, StatusOf, Accepted, Restock, Live, AskedAll;
    hide NotOverAllocated, OfLine, Shipped;
    RowsAsTotal(st, back, line, w);
  }
}
