/**
 The tables of the order lifecycle and, as pure functions, what each database transaction makes of
 them. A table is a sequence indexed by primary key: keys are issued in increasing order and no row
 is deleted. A raised exception is `Failed`, and a failed transaction leaves the tables alone.
 */
module Ledger {
  import opened Sums

  datatype Option<+T> = None | Some(value: T)

  type pos = x: nat | x > 0 witness 1

  /** A `Stock` row: how much of a variant a warehouse holds. */
  datatype Stock = Stock(warehouse: nat, variant: nat, quantity: nat)

  datatype OrderLine = OrderLine(order: nat, variant: nat, quantity: pos, fulfilled: int)

  datatype OrderStatus = Unfulfilled | PartiallyFulfilled | Fulfilled | Canceled

  datatype FulfillmentLine = FulfillmentLine(line: nat, quantity: nat)

  datatype Fulfillment = Fulfillment(order: nat, canceled: bool, lines: seq<FulfillmentLine>)

  datatype Pair = Pair(line: nat, stock: nat)

  /** `Allocation` rows: (order line, stock) is unique, so the table is a map. */
  type Rows = map<Pair, nat>

  datatype State = State(
    stocks: seq<Stock>,
    rows: Rows,
    lines: seq<OrderLine>,
    orders: seq<OrderStatus>,
    fulfillments: seq<Fulfillment>,
    tracked: set<nat>)  // variants whose inventory is tracked

  datatype Error = InsufficientStock | AllocationError | IntegrityError | NothingToFulfill

  datatype Result = Ok(state: State) | Failed(error: Error)

  // ----- sums over the allocation table -----

  function At(rows: Rows, line: nat, stock: nat): nat {
    if Pair(line, stock) in rows then rows[Pair(line, stock)] else 0
  }

  function LineRow(rows: Rows, line: nat): nat -> int {
    (stock: nat) => At(rows, line, stock)
  }

  function StockColumn(rows: Rows, stock: nat): nat -> int {
    (line: nat) => At(rows, line, stock)
  }

  /** Units of a stock that are promised to order lines. */
  function InStock(st: State, stock: nat): nat {
    SumNonNegative(|st.lines|, StockColumn(st.rows, stock));
    Sum(|st.lines|, StockColumn(st.rows, stock))
  }

  /** Units promised to an order line, over all stocks. */
  function OfLine(st: State, line: nat): nat {
    SumNonNegative(|st.stocks|, LineRow(st.rows, line));
    Sum(|st.stocks|, LineRow(st.rows, line))
  }

  // ----- warehouse/management.py -----

  /** The stocks of a variant in the warehouses that ship to the customer's country. */
  predicate Serves(st: State, zone: set<nat>, variant: nat, stock: nat) {
    stock < |st.stocks| && st.stocks[stock].variant == variant && st.stocks[stock].warehouse in zone
  }

  function Free(st: State, zone: set<nat>, variant: nat): nat -> int {
    (s: nat) => if Serves(st, zone, variant, s) then Max(st.stocks[s].quantity - InStock(st, s), 0) else 0
  }

  lemma {:induction false} FreeNonNegative(st: State, zone: set<nat>, variant: nat)
    ensures forall s: nat :: Free(st, zone, variant)(s) >= 0
  {
  }

  function TotalFree(st: State, zone: set<nat>, variant: nat): int {
    Sum(|st.stocks|, Free(st, zone, variant))
  }

  /** One row for each of the first n stocks that the pour takes from. */
  function NewRows(line: nat, n: nat, free: nat -> int, q: int): Rows
    decreases n, free
  {
    if n == 0 then map[]
    else
      var take := Pour(free, q, n - 1);
      var created := NewRows(line, n - 1, free, q);
      if take > 0 then created[Pair(line, n - 1) := take] else created
  }

  function Allocate(st: State, line: nat, zone: set<nat>, q: int): Result
    requires line < |st.lines|
  {
    var free := Free(st, zone, st.lines[line].variant);
    var created := NewRows(line, |st.stocks|, free, q);
    if q < 0 || q > Sum(|st.stocks|, free) then Failed(InsufficientStock)
    else if created.Keys !! st.rows.Keys then Ok(st.(rows := st.rows + created))
    else Failed(IntegrityError)
  }

  /** The line's rows on the first n stocks, less what the pour takes from each. */
  function Drained(rows: Rows, line: nat, q: int, n: nat): Rows {
    if n == 0 then rows
    else
      var take := Pour(LineRow(rows, line), q, n - 1);
      var drained := Drained(rows, line, q, n - 1);
      if take > 0 then drained[Pair(line, n - 1) := At(rows, line, n - 1) - take] else drained
  }

  function Deallocate(st: State, line: nat, q: int): Result {
    if 0 <= q <= OfLine(st, line) then Ok(st.(rows := Drained(st.rows, line, q, |st.stocks|)))
    else Failed(AllocationError)
  }

  function Cleared(rows: Rows, lines: set<nat>): Rows {
    map k | k in rows :: if k.line in lines then 0 else rows[k]
  }

  /** The first stock of a variant in a warehouse. */
  function FindStock(stocks: seq<Stock>, warehouse: nat, variant: nat): (r: Option<nat>)
    ensures r.Some? ==> r.value < |stocks|
                        && stocks[r.value].warehouse == warehouse && stocks[r.value].variant == variant
    ensures r.None? ==> forall s | s in stocks :: s.warehouse != warehouse || s.variant != variant
  {
    if stocks == [] then None
    else
      var n := |stocks| - 1;
      match FindStock(stocks[..n], warehouse, variant)
      case Some(s) => Some(s)
      case None => if stocks[n].warehouse == warehouse && stocks[n].variant == variant then Some(n) else None
  }

  function Increase(st: State, line: nat, warehouse: nat, q: nat, allocate: bool): State
    requires line < |st.lines|
  {
    var variant := st.lines[line].variant;
    var found := FindStock(st.stocks, warehouse, variant);
    var s := if found.Some? then found.value else |st.stocks|;
    var stocks :=
      if found.Some? then st.stocks[s := st.stocks[s].(quantity := st.stocks[s].quantity + q)]
      else st.stocks + [Stock(warehouse, variant, q)];
    var rows := if allocate then st.rows[Pair(line, s) := At(st.rows, line, s) + q] else st.rows;
    st.(stocks := stocks, rows := rows)
  }

  /** Release what the line holds, up to q; all of it when it holds less than q. */
  function Release(st: State, line: nat, q: int): State {
    match Deallocate(st, line, q)
    case Ok(released) => released
    case Failed(_) => st.(rows := Cleared(st.rows, {line}))
  }

  function Decrease(st: State, line: nat, q: int, warehouse: nat): Result
    requires line < |st.lines|
  {
    var released := Release(st, line, q);
    match FindStock(st.stocks, warehouse, st.lines[line].variant)
    case None => Failed(InsufficientStock)
    case Some(s) =>
      var left := st.stocks[s].quantity - q;
      if left < InStock(released, s) then Failed(InsufficientStock)
      else Ok(released.(stocks := st.stocks[s := st.stocks[s].(quantity := left)]))
  }

  // ----- order/actions.py and order/utils.py -----

  datatype Item = Item(variant: nat, quantity: pos)

  function NewLines(order: nat, items: seq<Item>): seq<OrderLine> {
    seq(|items|, i requires 0 <= i < |items| => OrderLine(order, items[i].variant, items[i].quantity, 0))
  }

  function AddOrder(st: State, items: seq<Item>): State {
    st.(orders := st.orders + [Unfulfilled], lines := st.lines + NewLines(|st.orders|, items))
  }

  /** Allocate the tracked lines from index `from` on, in order; the first failure ends it. */
  function AllocateLines(st: State, zone: set<nat>, from: nat): (r: Result)
    requires from <= |st.lines|
    ensures r.Ok? ==> r.state.tracked == st.tracked
    decreases |st.lines| - from
  {
    if from == |st.lines| then Ok(st)
    else if st.lines[from].variant !in st.tracked then AllocateLines(st, zone, from + 1)
    else
      match Allocate(st, from, zone, st.lines[from].quantity)
      case Failed(e) => Failed(e)
      case Ok(next) => AllocateLines(next, zone, from + 1)
  }

  function Place(st: State, zone: set<nat>, items: seq<Item>): Result {
    AllocateLines(AddOrder(st, items), zone, |st.lines|)
  }

  function FulfillLine(st: State, line: nat, q: int, warehouse: nat): Result
    requires line < |st.lines|
  {
    var moved := if st.lines[line].variant in st.tracked then Decrease(st, line, q, warehouse) else Ok(st);
    match moved
    case Failed(e) => Failed(e)
    case Ok(next) => Ok(AddFulfilled(next, line, q))
  }

  function AddFulfilled(st: State, line: nat, q: int): State
    requires line < |st.lines|
  {
    st.(lines := st.lines[line := st.lines[line].(fulfilled := st.lines[line].fulfilled + q)])
  }

  datatype Ask = Ask(line: nat, quantity: int)

  datatype Parcel = Parcel(warehouse: nat, asks: seq<Ask>)

  predicate KnownLines(st: State, asks: seq<Ask>) {
    forall a | a in asks :: a.line < |st.lines|
  }

  /** Fulfil the asks from index i on out of one warehouse. */
  function FulfillAsks(st: State, warehouse: nat, asks: seq<Ask>, i: nat): (r: Result)
    requires i <= |asks| && KnownLines(st, asks)
    ensures r.Ok? ==> |r.state.lines| == |st.lines| && r.state.orders == st.orders && r.state.tracked == st.tracked
    decreases |asks| - i
  {
    if i == |asks| then Ok(st)
    else if asks[i].quantity <= 0 then FulfillAsks(st, warehouse, asks, i + 1)
    else if FindStock(st.stocks, warehouse, st.lines[asks[i].line].variant).None? then Failed(InsufficientStock)
    else
      match FulfillLine(st, asks[i].line, asks[i].quantity, warehouse)
      case Failed(e) => Failed(e)
      case Ok(next) => FulfillAsks(next, warehouse, asks, i + 1)
  }

  /** The fulfillment lines that the asks from index i on leave behind. */
  function Shipped(asks: seq<Ask>, i: nat): seq<FulfillmentLine>
    requires i <= |asks|
    decreases |asks| - i
  {
    if i == |asks| then []
    else if asks[i].quantity <= 0 then Shipped(asks, i + 1)
    else [FulfillmentLine(asks[i].line, asks[i].quantity)] + Shipped(asks, i + 1)
  }

  predicate KnownParcels(st: State, parcels: seq<Parcel>) {
    forall p | p in parcels :: KnownLines(st, p.asks)
  }

  /** One fulfillment per parcel, from index i on. */
  function FulfillParcels(st: State, order: nat, parcels: seq<Parcel>, i: nat): (r: Result)
    requires i <= |parcels| && KnownParcels(st, parcels)
    ensures r.Ok? ==> |r.state.lines| == |st.lines| && r.state.orders == st.orders && r.state.tracked == st.tracked
    decreases |parcels| - i
  {
    if i == |parcels| then Ok(st)
    else
      match FulfillAsks(st, parcels[i].warehouse, parcels[i].asks, 0)
      case Failed(e) => Failed(e)
      case Ok(next) => FulfillParcels(Record(next, order, parcels[i].asks), order, parcels, i + 1)
  }

  function Record(st: State, order: nat, asks: seq<Ask>): State {
    st.(fulfillments := st.fulfillments + [Fulfillment(order, false, Shipped(asks, 0))])
  }

  function CreateFulfillments(st: State, order: nat, parcels: seq<Parcel>): Result
    requires order < |st.orders| && KnownParcels(st, parcels)
  {
    if parcels == [] then Failed(NothingToFulfill)
    else
      match FulfillParcels(st, order, parcels, 0)
      case Failed(e) => Failed(e)
      case Ok(next) => Ok(UpdateStatus(next, order))
  }

  function FulfilledOf(st: State, order: nat): nat -> int {
    (l: nat) => if l < |st.lines| && st.lines[l].order == order then st.lines[l].fulfilled else 0
  }

  function QuantityOf(st: State, order: nat): nat -> int {
    (l: nat) => if l < |st.lines| && st.lines[l].order == order then st.lines[l].quantity else 0
  }

  function StatusOf(st: State, order: nat): OrderStatus {
    var fulfilled := Sum(|st.lines|, FulfilledOf(st, order));
    if fulfilled <= 0 then Unfulfilled
    else if fulfilled < Sum(|st.lines|, QuantityOf(st, order)) then PartiallyFulfilled
    else Fulfilled
  }

  function UpdateStatus(st: State, order: nat): State
    requires order < |st.orders|
  {
    st.(orders := st.orders[order := StatusOf(st, order)])
  }

  predicate KnownFulfillmentLines(st: State, lines: seq<FulfillmentLine>) {
    forall fl | fl in lines :: fl.line < |st.lines|
  }

  /** Put the fulfillment lines from index i on back into a warehouse, promised to their order lines. */
  function Restock(st: State, warehouse: nat, lines: seq<FulfillmentLine>, i: nat): (r: State)
    requires i <= |lines| && KnownFulfillmentLines(st, lines)
    ensures |r.lines| == |st.lines| && r.orders == st.orders && r.fulfillments == st.fulfillments
    ensures r.tracked == st.tracked
    decreases |lines| - i
  {
    if i == |lines| then st
    else Restock(RestockLine(st, warehouse, lines[i]), warehouse, lines, i + 1)
  }

  function RestockLine(st: State, warehouse: nat, fl: FulfillmentLine): State
    requires fl.line < |st.lines|
  {
    var stocked :=
      if st.lines[fl.line].variant in st.tracked then Increase(st, fl.line, warehouse, fl.quantity, true) else st;
    AddFulfilled(stocked, fl.line, -(fl.quantity as int))
  }

  function MarkCanceled(st: State, f: nat): State
    requires f < |st.fulfillments|
  {
    st.(fulfillments := st.fulfillments[f := st.fulfillments[f].(canceled := true)])
  }

  function CancelFulfillment(st: State, f: nat, warehouse: nat): State
    requires f < |st.fulfillments| && KnownFulfillmentLines(st, st.fulfillments[f].lines)
    requires st.fulfillments[f].order < |st.orders|
  {
    var fulfillment := st.fulfillments[f];
    UpdateStatus(MarkCanceled(Restock(st, warehouse, fulfillment.lines, 0), f), fulfillment.order)
  }

  predicate CanCancel(st: State, order: nat) {
    order < |st.orders| && st.orders[order] != Canceled
    && forall f | f in st.fulfillments && f.order == order :: f.canceled
  }

  function LinesOf(st: State, order: nat): set<nat> {
    set l: nat | l < |st.lines| && st.lines[l].order == order
  }

  function CancelOrder(st: State, order: nat): State
    requires order < |st.orders|
  {
    st.(rows := Cleared(st.rows, LinesOf(st, order)), orders := st.orders[order := Canceled])
  }
}
