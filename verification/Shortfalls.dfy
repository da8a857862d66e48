/**
 Requests that the code accepts and that put the orders in disorder, enter the AllocationError handler or are refused
 units they were promised, each at the end of a run from an opening shop.
 */
module Shortfalls {
  import opened Sums
  import opened Ledger
  import opened StockLaws
  import opened Shipping
  import opened Lifecycle
  import opened Fulfilling
  import opened Requests
  import opened Runs

  /** Seven units of variant 7 in warehouse 0. */
  function Opening(): State {
    State([Stock(0, 7, 7)], map[], [], [], [], {7})
  }

  function OneOrder(): State {
    State([Stock(0, 7, 7)], map[Pair(0, 0) := 2], [OrderLine(0, 7, 2, 0)], [Unfulfilled], [], {7})
  }

  /** Two open orders for two units each. */
  function TwoOrders(): State {
    State([Stock(0, 7, 7)], map[Pair(0, 0) := 2, Pair(1, 0) := 2],
          [OrderLine(0, 7, 2, 0), OrderLine(1, 7, 2, 0)], [Unfulfilled, Unfulfilled], [], {7})
  }

  /** The same, the second one cancelled. */
  function OneCanceled(): State {
    State([Stock(0, 7, 7)], map[Pair(0, 0) := 2, Pair(1, 0) := 0],
          [OrderLine(0, 7, 2, 0), OrderLine(1, 7, 2, 0)], [Unfulfilled, Canceled], [], {7})
  }

  const BUY := PlaceOp({0}, [Item(7, 2)])

  lemma {:induction false} FirstOrder()
    ensures Step(Opening(), BUY) == OneOrder()
  {
    var added := AddOrder(Opening(), [Item(7, 2)]);
    var free := Free(added, {0}, 7);
    assert added.lines == [OrderLine(0, 7, 2, 0)] && added.orders == [Unfulfilled];
    assert Sum(1, StockColumn(added.rows, 0)) == 0;
    assert free(0) == 7 && Sum(1, free) == 7 && Pour(free, 2, 0) == 2;
    assert NewRows(0, 1, free, 2) == map[Pair(0, 0) := 2];
    assert Allocate(added, 0, {0}, 2).state.rows == map[Pair(0, 0) := 2];
  }

  lemma {:induction false} SecondOrder()
    ensures Step(OneOrder(), BUY) == TwoOrders()
  {
    var added := AddOrder(OneOrder(), [Item(7, 2)]);
    var free, column := Free(added, {0}, 7), StockColumn(added.rows, 0);
    assert added.lines == TwoOrders().lines && added.orders == TwoOrders().orders;
    assert Sum(1, column) == 2 && Sum(2, column) == 2;
    assert free(0) == 5 && Sum(1, free) == 5 && Pour(free, 2, 0) == 2;
    assert NewRows(1, 1, free, 2) == map[Pair(1, 0) := 2];
    assert Allocate(added, 1, {0}, 2).state.rows == TwoOrders().rows;
  }

  lemma {:induction false} SecondCanceled()
    ensures Step(TwoOrders(), CancelOrderOp(1)) == OneCanceled()
  {
    assert LinesOf(TwoOrders(), 1) == {1};
  }

  /** Both shops come about by ordinary requests, and their orders are in good order. */
  lemma {:induction false} GoodShops()
    ensures Step(Step(Opening(), BUY), BUY) == TwoOrders() && Inv(TwoOrders())
    ensures Step(TwoOrders(), CancelOrderOp(1)) == OneCanceled() && Inv(OneCanceled())
  {
    OpeningDay(Opening().stocks, {7});
    FirstOrder();
    SecondOrder();
    SecondCanceled();
    StepExact(Opening(), BUY);
    StepExact(OneOrder(), BUY);
    StepExact(TwoOrders(), CancelOrderOp(1));
  }

  // ----- requests for one line -----

  lemma {:induction false} OneLineAccepted(st: State, line: nat, stocks: seq<StockInput>)
    requires line < |st.lines| && DistinctWarehouses(stocks) && 0 < Requested(stocks, |stocks|) <= Lacks(st, line)
    ensures InputAccepted(st, [LineInput(line, stocks)])
  {
    var input := [LineInput(line, stocks)];
    assert TotalRequested(input, 1) == TotalRequested(input, 0) + Requested(stocks, |stocks|);
  }

  /** What becomes of a request for one line from one warehouse that has a stock of it. */
  lemma {:induction false} OneAsk(st: State, order: nat, input: seq<LineInput>, warehouse: nat, l: nat, q: pos)
    requires order < |st.orders| && InputAccepted(st, input) && Grouped(input) == [Parcel(warehouse, [Ask(l, q)])]
    requires l < |st.lines| && FindStock(st.stocks, warehouse, st.lines[l].variant).Some?
    ensures Ships(st, FulfillOp(order, input)) <==> FulfillLine(st, l, q, warehouse).Ok?
    ensures FallsBack(st, FulfillOp(order, input)) <==> Tracked(st, l) && !Deallocate(st, l, q).Ok?
  {
    var asks, r := [Ask(l, q)], FulfillLine(st, l, q, warehouse);
    GroupedAccepted(st, order, input);
    hide FulfillLine, Deallocate, FindStock, Grouped, InputAccepted;
    if r.Ok? {
      assert FulfillAsks(r.state, warehouse, asks, 1).Ok? && AsksReleased(r.state, warehouse, asks, 1);
    }
    assert FulfillAsks(st, warehouse, asks, 0).Ok? <==> r.Ok?;
    assert FulfillParcels(st, order, [Parcel(warehouse, asks)], 0).Ok? <==> r.Ok?;
    assert AsksReleased(st, warehouse, asks, 0) <==> (Tracked(st, l) ==> Deallocate(st, l, q).Ok?);
    assert ParcelsReleased(st, order, [Parcel(warehouse, asks)], 0) <==> AsksReleased(st, warehouse, asks, 0);
  }

  /** What a request that ships units of line l, wrongly, leaves behind. */
  lemma {:induction false} WrongLineShipped(st: State, op: Op, l: nat)
    requires Inv(st) && Ships(st, op) && l < |st.lines|
    requires !OrderlyLine(st, op.order, Grouped(op.input), l)
    ensures var next, other := Step(st, op), st.lines[l].order;
            && Breaks(st, op) && !Inv(next)
            && l < |next.lines|
            && next.lines[l].fulfilled == st.lines[l].fulfilled + AskedAll(Grouped(op.input), 0, l)
            && next.lines[l].quantity == st.lines[l].quantity
            && (other != op.order ==>
                 next.orders[other] == st.orders[other] && (CanCancel(next, other) <==> CanCancel(st, other)))
  {
    StepExact(st, op);
    GroupedAccepted(st, op.order, op.input);
    hide CreateFulfillments, InputAccepted, Grouped, AskedAll, OrderlyLine;
    assert st.lines[l].order < |st.orders|;
    hide Inv;
    FulfilledLine(st, op.order, Grouped(op.input), l);
    if st.lines[l].order != op.order { ForeignUnseen(st, op.order, Grouped(op.input), st.lines[l].order); }
  }

  /** A cancelled order from which a tracked line is shipped in part. */
  lemma {:induction false} IncompleteUncovers(st: State, op: Op, l: nat)
    requires Inv(st) && Ships(st, op) && IsCanceled(st, op.order)
    requires Tracked(st, l) && st.lines[l].order == op.order && AskedAll(Grouped(op.input), 0, l) != Lacks(st, l)
    ensures Breaks(st, op) && !IsCanceled(Step(st, op), op.order) && !Covered(Step(st, op))
  {
    GroupedAccepted(st, op.order, op.input);
    FulfillCoversLine(st, op.order, Grouped(op.input), l);
    FulfillKeepsIdle(st, op.order, Grouped(op.input));
    FulfilledLine(st, op.order, Grouped(op.input), l);
    hide CreateFulfillments, InputAccepted, Grouped, AskedAll, Inv, LineCovered;
    assert !OrderlyLine(st, op.order, Grouped(op.input), l);
  }

  // ----- one unit of the second order's line -----

  function OneUnit(): seq<LineInput> {
    [LineInput(1, [StockInput(0, 1)])]
  }

  lemma {:induction false} OneUnitGrouped()
    ensures Grouped(OneUnit()) == [Parcel(0, [Ask(1, 1)])]
    ensures TotalRequested(OneUnit(), 1) == 1 && Requested(OneUnit()[0].stocks, 1) == 1
    ensures AskedAll(Grouped(OneUnit()), 0, 1) == 1
  {
    var stocks := [StockInput(0, 1)];
    assert GroupStocks([], 1, stocks, 1) == AddAsk([], 0, Ask(1, 1));
    assert GroupLines(OneUnit(), 1) == GroupStocks(GroupLines(OneUnit(), 0), 1, stocks, 1);
    assert Requested(stocks, 1) == Requested(stocks, 0) + 1;
    assert Asked([Ask(1, 1)], 0, 1) == 1;
  }

  lemma {:induction false} OneUnitLeaves(st: State)
    requires st == TwoOrders() || st == OneCanceled()
    ensures FulfillLine(st, 1, 1, 0).Ok?
  {
    var released := Release(st, 1, 1);
    ReleaseEffect(st, 1, 1);
    assert FindStock(st.stocks, 0, 7) == Some(0);
    hide Release, FindStock;
    var column := StockColumn(released.rows, 0);
    assert Sum(1, column) == column(0) && Sum(2, column) == column(0) + column(1) <= 4;
  }

  lemma {:induction false} OneUnitShips(st: State, order: nat)
    requires st == TwoOrders() || st == OneCanceled()
    requires order < 2
    ensures Ships(st, FulfillOp(order, OneUnit()))
  {
    OneUnitGrouped();
    OneUnitLeaves(st);
    assert FindStock(st.stocks, 0, 7) == Some(0);
    hide FulfillLine, FindStock, Grouped, OrderFulfill, InputAccepted;
    OneLineAccepted(st, 1, [StockInput(0, 1)]);
    OneAsk(st, order, OneUnit(), 0, 1, 1);
  }

  /** A request on the first order ships a unit of the second, which is open: nobody notices there. The second
      order says UNFULFILLED and can be cancelled although a unit of it has been shipped. */
  lemma {:induction false} ForeignLineShipped()
    ensures var op := FulfillOp(0, OneUnit());
            var next := Step(TwoOrders(), op);
            && Breaks(TwoOrders(), op) && !Inv(next)
            && next.lines[1].fulfilled == 1 && next.orders[1] == Unfulfilled && CanCancel(next, 1)
  {
    hide Inv, Ships, Breaks, Step, AskedAll, Grouped;
    GoodShops();
    OneUnitGrouped();
    OneUnitShips(TwoOrders(), 0);
    assert CanCancel(TwoOrders(), 1);
    hide CanCancel;
    WrongLineShipped(TwoOrders(), FulfillOp(0, OneUnit()), 1);
  }

  /** When the second order is cancelled, the same request enters the AllocationError handler, although the order
      it is made for is open. */
  lemma {:induction false} ForeignLineFallsBack()
    ensures var op := FulfillOp(0, OneUnit());
            !IsCanceled(OneCanceled(), 0) && FallsBack(OneCanceled(), op) && Breaks(OneCanceled(), op)
  {
    var st, op := OneCanceled(), FulfillOp(0, OneUnit());
    OneUnitGrouped();
    OneUnitShips(st, 0);
    assert OfLine(st, 1) == 0;
    hide CreateFulfillments, InputAccepted, Grouped, AskedAll, OfLine, ParcelsReleased;
    assert !OrderlyLine(st, 0, Grouped(OneUnit()), 1);
    assert Tracked(st, 1);
    StepFallsBack(st, op);
  }

  /** A unit of a cancelled order is shipped, and the order is open again with a line that is neither promised nor
      delivered in full. */
  lemma {:induction false} CanceledOrderReopened()
    ensures var op := FulfillOp(1, OneUnit());
            var next := Step(OneCanceled(), op);
            IsCanceled(OneCanceled(), 1) && Breaks(OneCanceled(), op) && !IsCanceled(next, 1) && !Covered(next)
  {
    hide Inv, Ships, Breaks, Step, AskedAll, Grouped, LineCovered;
    GoodShops();
    OneUnitGrouped();
    OneUnitShips(OneCanceled(), 1);
    assert Tracked(OneCanceled(), 1);
    IncompleteUncovers(OneCanceled(), FulfillOp(1, OneUnit()), 1);
  }

  // ----- a negative quantity -----

  /** Five units from warehouse 0 and minus three from warehouse 1. */
  function FiveLessThree(): seq<LineInput> {
    [LineInput(0, [StockInput(0, 5), StockInput(1, -3)])]
  }

  lemma {:induction false} FiveGrouped()
    ensures Grouped(FiveLessThree()) == [Parcel(0, [Ask(0, 5)])]
    ensures TotalRequested(FiveLessThree(), 1) == 2 && Requested(FiveLessThree()[0].stocks, 2) == 2
    ensures AskedAll(Grouped(FiveLessThree()), 0, 0) == 5
  {
    var input, stocks := FiveLessThree(), [StockInput(0, 5), StockInput(1, -3)];
    assert GroupStocks([], 0, stocks, 1) == AddAsk([], 0, Ask(0, 5));
    assert GroupStocks([], 0, stocks, 2) == GroupStocks([], 0, stocks, 1);
    assert GroupLines(input, 1) == GroupStocks(GroupLines(input, 0), 0, stocks, 2);
    assert Requested(stocks, 1) == 5 && Requested(stocks, 2) == 2;
    assert Asked([Ask(0, 5)], 0, 0) == 5;
  }

  lemma {:induction false} FiveLeave()
    ensures FulfillLine(TwoOrders(), 0, 5, 0).Ok?
  {
    var st := TwoOrders();
    assert FindStock(st.stocks, 0, 7) == Some(0);
    assert OfLine(st, 0) == LineRow(st.rows, 0)(0) == 2;
    var column := StockColumn(Release(st, 0, 5).rows, 0);
    assert column(0) == 0 && column(1) == 2 && Sum(1, column) == 0 && Sum(2, column) == 2;
  }

  lemma {:induction false} FiveShips()
    ensures Ships(TwoOrders(), FulfillOp(0, FiveLessThree()))
  {
    FiveGrouped();
    FiveLeave();
    assert FindStock(TwoOrders().stocks, 0, 7) == Some(0);
    hide FulfillLine, FindStock, Grouped, OrderFulfill, InputAccepted;
    OneLineAccepted(TwoOrders(), 0, [StockInput(0, 5), StockInput(1, -3)]);
    OneAsk(TwoOrders(), 0, FiveLessThree(), 0, 0, 5);
  }

  /** The request passes on a line that lacks two units, and five are shipped. */
  lemma {:induction false} NegativeQuantityAccepted()
    ensures var op := FulfillOp(0, FiveLessThree());
            var next := Step(TwoOrders(), op);
            && Lacks(TwoOrders(), 0) == 2 && Breaks(TwoOrders(), op) && !Inv(next)
            && next.lines[0].fulfilled == 5 > next.lines[0].quantity
  {
    hide Inv, Ships, Breaks, Step, AskedAll, Grouped;
    GoodShops();
    FiveGrouped();
    FiveShips();
    WrongLineShipped(TwoOrders(), FulfillOp(0, FiveLessThree()), 0);
  }

  /** Nine units from warehouse 0 and minus seven from warehouse 1. */
  function NineLessSeven(): seq<LineInput> {
    [LineInput(0, [StockInput(0, 9), StockInput(1, -7)])]
  }

  lemma {:induction false} NineGrouped()
    ensures Grouped(NineLessSeven()) == [Parcel(0, [Ask(0, 9)])]
    ensures InputAccepted(TwoOrders(), NineLessSeven())
  {
    var input, stocks := NineLessSeven(), [StockInput(0, 9), StockInput(1, -7)];
    assert GroupStocks([], 0, stocks, 1) == AddAsk([], 0, Ask(0, 9));
    assert GroupStocks([], 0, stocks, 2) == GroupStocks([], 0, stocks, 1);
    assert GroupLines(input, 1) == GroupStocks(GroupLines(input, 0), 0, stocks, 2);
    assert Requested(stocks, 1) == 9 && Requested(stocks, 2) == 2;
    OneLineAccepted(TwoOrders(), 0, stocks);
  }

  /** The request names an open order and its own line only. It enters the AllocationError handler, and then fails for
      want of stock. */
  lemma {:induction false} FailedRequestFallsBack()
    ensures var op := FulfillOp(0, NineLessSeven());
            && !IsCanceled(TwoOrders(), 0) && FallsBack(TwoOrders(), op)
            && !Ships(TwoOrders(), op) && Step(TwoOrders(), op) == TwoOrders()
  {
    var st := TwoOrders();
    NineGrouped();
    assert FindStock(st.stocks, 0, 7) == Some(0);
    assert OfLine(st, 0) == LineRow(st.rows, 0)(0) == 2;
    DecreaseIff(st, 0, 9, 0);
    assert InStock(st, 0) >= 0 && At(st.rows, 0, 0) == 2;
    hide Decrease, FindStock, Grouped, InputAccepted, FulfillParcels;
    OneAsk(st, 0, NineLessSeven(), 0, 0, 9);
  }

  // ----- promises on two stocks -----

  const BUY_FIVE := PlaceOp({0, 1}, [Item(7, 5)])

  function TwoStocks(): State {
    State([Stock(0, 7, 2), Stock(1, 7, 3)], map[], [], [], [], {7})
  }

  /** An order of five that holds all units of both stocks. */
  function SplitOrder(): State {
    State([Stock(0, 7, 2), Stock(1, 7, 3)], map[Pair(0, 0) := 2, Pair(0, 1) := 3],
          [OrderLine(0, 7, 5, 0)], [Unfulfilled], [], {7})
  }

  lemma {:induction false} SplitOrderPlaced()
    ensures Step(TwoStocks(), BUY_FIVE) == SplitOrder()
  {
    var added := AddOrder(TwoStocks(), [Item(7, 5)]);
    var free := Free(added, {0, 1}, 7);
    assert added.lines == SplitOrder().lines && added.orders == SplitOrder().orders;
    assert Sum(1, StockColumn(added.rows, 0)) == 0 && Sum(1, StockColumn(added.rows, 1)) == 0;
    assert free(0) == 2 && free(1) == 3 && Sum(1, free) == 2 && Sum(2, free) == 5;
    assert Pour(free, 5, 0) == 2 && Pour(free, 5, 1) == 3;
    assert NewRows(0, 1, free, 5) == map[Pair(0, 0) := 2];
    assert NewRows(0, 2, free, 5) == map[Pair(0, 0) := 2, Pair(0, 1) := 3];
    assert Allocate(added, 0, {0, 1}, 5).state.rows == SplitOrder().rows;
  }

  function ThreeFromSecond(): seq<LineInput> {
    [LineInput(0, [StockInput(1, 3)])]
  }

  lemma {:induction false} ThreeGrouped()
    ensures Grouped(ThreeFromSecond()) == [Parcel(1, [Ask(0, 3)])]
    ensures InputAccepted(SplitOrder(), ThreeFromSecond())
  {
    var stocks := [StockInput(1, 3)];
    assert GroupStocks([], 0, stocks, 1) == AddAsk([], 1, Ask(0, 3));
    assert GroupLines(ThreeFromSecond(), 1) == GroupStocks(GroupLines(ThreeFromSecond(), 0), 0, stocks, 1);
    assert Requested(stocks, 1) == Requested(stocks, 0) + 3;
    OneLineAccepted(SplitOrder(), 0, stocks);
  }

  lemma {:induction false} ThreeStay()
    ensures FindStock(SplitOrder().stocks, 1, 7) == Some(1) && FulfillLine(SplitOrder(), 0, 3, 1).Failed?
  {
    var st, row := SplitOrder(), LineRow(SplitOrder().rows, 0);
    assert FindStock(st.stocks, 1, 7) == Some(1) by {
      assert FindStock(st.stocks[..1], 1, 7) == None;
    }
    assert Sum(1, row) == 2 && Sum(2, row) == 5 && Pour(row, 3, 1) == 1;
    assert Sum(1, StockColumn(st.rows, 1)) == 3;
    DecreaseIff(st, 0, 3, 1);
  }

  /** Three units are promised on the second stock and asked for from there, by a proper request on an order in good
      order: it is refused, because the units are released from the first stock first. */
  lemma {:induction false} PromisedUnitsRefused()
    ensures Step(TwoStocks(), BUY_FIVE) == SplitOrder() && Inv(SplitOrder())
    ensures var op := FulfillOp(0, ThreeFromSecond());
            && At(SplitOrder().rows, 0, 1) == 3 && Proper(SplitOrder(), op) && Attempts(SplitOrder(), op)
            && !Ships(SplitOrder(), op)
  {
    hide Step, FulfillLine, FindStock, Grouped, InputAccepted;
    OpeningDay(TwoStocks().stocks, {7});
    SplitOrderPlaced();
    StepExact(TwoStocks(), BUY_FIVE);
    hide Inv;
    ThreeGrouped();
    ThreeStay();
    OneAsk(SplitOrder(), 0, ThreeFromSecond(), 1, 0, 3);
  }
}
