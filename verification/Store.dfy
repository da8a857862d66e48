/**
 The order lifecycle as the repository runs it: one object holds the tables, and every service
 function updates them in place. Each method is proved to do what the function of the same name in
 `Ledger` says, with the tables back as they were when it reports an error.
 */
module Store {
  import opened Sums
  import opened Ledger

  /** Success moved the tables to r's state; an error is r's error and left them alone. */
  ghost predicate Commits(r: Result, before: State, after: State, error: Option<Error>) {
    match r
    case Ok(next) => error.None? && after == next
    case Failed(e) => error == Some(e) && after == before
  }

  lemma {:induction false} NewRowsTail(line: nat, m: nat, n: nat, free: nat -> int, q: int)
    requires m <= n && forall s: nat | m <= s < n :: Pour(free, q, s) == 0
    ensures NewRows(line, n, free, q) == NewRows(line, m, free, q)
  {
    if m < n { NewRowsTail(line, m, n - 1, free, q); }
  }

  /** Stocks from which nothing is taken do not show. */
  lemma {:induction false} DrainedTail(rows: Rows, line: nat, q: int, m: nat, n: nat)
    requires m <= n && forall s: nat | m <= s < n :: Pour(LineRow(rows, line), q, s) == 0
    ensures Drained(rows, line, q, n) == Drained(rows, line, q, m)
  {
    if m < n { DrainedTail(rows, line, q, m, n - 1); }
  }

  /** What one turn of the allocation loop takes. */
  lemma {:induction false} AllocateStep(st: State, zone: set<nat>, variant: nat, q: int, i: nat)
    requires i < |st.stocks|
    ensures var free := Free(st, zone, variant);
            && Gathered(i + 1, free, q) == Gathered(i, free, q) + Pour(free, q, i)
            && Pour(free, q, i)
               == if Serves(st, zone, variant, i)
                  then Max(Min(q - Gathered(i, free, q), st.stocks[i].quantity - InStock(st, i)), 0)
                  else 0
  {
    SumNonNegative(i, Free(st, zone, variant));
    PourStep(i, Free(st, zone, variant), q,
             if Serves(st, zone, variant, i) then st.stocks[i].quantity - InStock(st, i) else 0);
  }

  /** What one turn of the deallocation loop takes. */
  lemma {:induction false} DeallocateStep(rows: Rows, line: nat, q: int, i: nat)
    ensures var row := LineRow(rows, line);
            && Gathered(i + 1, row, q) == Gathered(i, row, q) + Pour(row, q, i)
            && Pour(row, q, i) == Max(Min(q - Gathered(i, row, q), At(rows, line, i)), 0)
  {
    SumNonNegative(i, LineRow(rows, line));
    PourStep(i, LineRow(rows, line), q, At(rows, line, i));
  }

  lemma {:induction false} AllocationEnds(line: nat, free: nat -> int, q: int, i: nat, n: nat)
    requires i <= n && (i == n || Gathered(i, free, q) == q)
    requires forall s: nat | s < n :: free(s) >= 0
    ensures Gathered(i, free, q) == q <==> 0 <= q <= Sum(n, free)
    ensures Gathered(i, free, q) == q ==> NewRows(line, i, free, q) == NewRows(line, n, free, q)
  {
    if Gathered(i, free, q) == q {
      RequestMet(n, free, q, i);
      NewRowsTail(line, i, n, free, q);
    }
  }

  lemma {:induction false} DeallocationEnds(rows: Rows, line: nat, q: int, i: nat, n: nat)
    requires i <= n && (i == n || Gathered(i, LineRow(rows, line), q) == q)
    ensures Gathered(i, LineRow(rows, line), q) == q <==> 0 <= q <= Sum(n, LineRow(rows, line))
    ensures Gathered(i, LineRow(rows, line), q) == q ==> Drained(rows, line, q, i) == Drained(rows, line, q, n)
  {
    if Gathered(i, LineRow(rows, line), q) == q {
      RequestMet(n, LineRow(rows, line), q, i);
      DrainedTail(rows, line, q, i, n);
    }
  }

  /** The loop of `allocate_stock`: how much it gathered, and the rows to create. */
  method PickStocks(st: State, line: nat, zone: set<nat>, quantity: int)
    returns (quantityAllocated: int, created: Rows)
    requires line < |st.lines|
    ensures quantityAllocated == quantity <==> 0 <= quantity <= TotalFree(st, zone, st.lines[line].variant)
    ensures quantityAllocated == quantity ==>
              created == NewRows(line, |st.stocks|, Free(st, zone, st.lines[line].variant), quantity)
  {
    hide Free, InStock, Pour;
    var variant := st.lines[line].variant;
    ghost var free := Free(st, zone, variant);
    quantityAllocated, created := 0, map[];
    var i: nat := 0;
    while i < |st.stocks|
      invariant i <= |st.stocks|
      invariant quantityAllocated == Gathered(i, free, quantity)
      invariant created == NewRows(line, i, free, quantity)
    {
      AllocateStep(st, zone, variant, quantity, i);
      if st.stocks[i].variant == variant && st.stocks[i].warehouse in zone {
        var available := st.stocks[i].quantity - InStock(st, i);
        var quantityToAllocate := Min(quantity - quantityAllocated, available);
        if quantityToAllocate > 0 {
          created := created[Pair(line, i) := quantityToAllocate];
          quantityAllocated := quantityAllocated + quantityToAllocate;
          if quantityAllocated == quantity {
            i := i + 1;
            break;
          }
        }
      }
      i := i + 1;
    }
    FreeNonNegative(st, zone, variant);
    AllocationEnds(line, free, quantity, i, |st.stocks|);
  }

  /** The loop of `deallocate_stock`: how much it released, and the line's rows afterwards. */
  method PickAllocations(rows: Rows, line: nat, n: nat, quantity: int)
    returns (quantityDeallocated: int, updated: Rows)
    ensures quantityDeallocated == quantity <==> 0 <= quantity <= Sum(n, LineRow(rows, line))
    ensures quantityDeallocated == quantity ==> updated == Drained(rows, line, quantity, n)
  {
    hide LineRow, Pour;
    ghost var row := LineRow(rows, line);
    quantityDeallocated, updated := 0, rows;
    var i: nat := 0;
    while i < n
      invariant i <= n
      invariant quantityDeallocated == Gathered(i, row, quantity)
      invariant updated == Drained(rows, line, quantity, i)
    {
      DeallocateStep(rows, line, quantity, i);
      if Pair(line, i) in rows {
        var quantityToDeallocate := Min(quantity - quantityDeallocated, rows[Pair(line, i)]);
        if quantityToDeallocate > 0 {
          updated := updated[Pair(line, i) := rows[Pair(line, i)] - quantityToDeallocate];
          quantityDeallocated := quantityDeallocated + quantityToDeallocate;
          if quantityDeallocated == quantity {
            i := i + 1;
            break;
          }
        }
      }
      i := i + 1;
    }
    DeallocationEnds(rows, line, quantity, i, n);
  }

  class Database {
    var stocks: seq<Stock>
    var allocations: Rows
    var lines: seq<OrderLine>
    var orders: seq<OrderStatus>
    var fulfillments: seq<Fulfillment>
    const tracked: set<nat>

    constructor (stocks: seq<Stock>, tracked: set<nat>)
      ensures State() == Ledger.State(stocks, map[], [], [], [], tracked)
    {
      this.stocks, this.tracked := stocks, tracked;
      allocations, lines, orders, fulfillments := map[], [], [], [];
    }

    function State(): State
      reads this
    {
      Ledger.State(stocks, allocations, lines, orders, fulfillments, tracked)
    }

    /** What leaving an atomic block with an exception does. */
    method Rollback(saved: State)
      requires saved.tracked == tracked
      modifies this
      ensures State() == saved
    {
      stocks, allocations, lines := saved.stocks, saved.rows, saved.lines;
      orders, fulfillments := saved.orders, saved.fulfillments;
    }

    method AllocateStock(line: nat, zone: set<nat>, quantity: int) returns (error: Option<Error>)
      requires line < |lines|
      modifies `allocations
      ensures Commits(Allocate(old(State()), line, zone, quantity), old(State()), State(), error)
    {
      var quantityAllocated, created := PickStocks(State(), line, zone, quantity);
      if quantityAllocated != quantity {
        return Some(InsufficientStock);
      }
      if !(created.Keys !! allocations.Keys) {
        return Some(IntegrityError);
      }
      allocations := allocations + created;
      return None;
    }

    method DeallocateStock(line: nat, quantity: int) returns (error: Option<Error>)
      modifies `allocations
      ensures Commits(Deallocate(old(State()), line, quantity), old(State()), State(), error)
    {
      var quantityDeallocated, updated := PickAllocations(allocations, line, |stocks|, quantity);
      if quantityDeallocated != quantity {
        return Some(AllocationError);
      }
      allocations := updated;
      return None;
    }

    method IncreaseStock(line: nat, warehouse: nat, quantity: nat, allocate: bool)
      requires line < |lines|
      modifies `stocks, `allocations
      ensures State() == Increase(old(State()), line, warehouse, quantity, allocate)
    {
      var variant := lines[line].variant;
      var found := FindStock(stocks, warehouse, variant);
      var stock: nat;
      if found.Some? {
        stock := found.value;
        stocks := stocks[stock := stocks[stock].(quantity := stocks[stock].quantity + quantity)];
      } else {
        stock := |stocks|;
        stocks := stocks + [Stock(warehouse, variant, quantity)];
      }
      if allocate {
        if Pair(line, stock) in allocations {
          allocations := allocations[Pair(line, stock) := allocations[Pair(line, stock)] + quantity];
        } else {
          allocations := allocations[Pair(line, stock) := quantity];
        }
      }
    }

    method DecreaseStock(line: nat, quantity: int, warehouse: nat) returns (error: Option<Error>)
      requires line < |lines|
      modifies `stocks, `allocations
      ensures Commits(Decrease(old(State()), line, quantity, warehouse), old(State()), State(), error)
    {
      var saved := State();
      var short := DeallocateStock(line, quantity);
      if short.Some? {
        allocations := Cleared(allocations, {line});
      }
      var found := FindStock(stocks, warehouse, lines[line].variant);
      if found.None? {
        allocations := saved.rows;
        return Some(InsufficientStock);
      }
      var stock := found.value;
      if stocks[stock].quantity - InStock(State(), stock) < quantity {
        allocations := saved.rows;
        return Some(InsufficientStock);
      }
      stocks := stocks[stock := stocks[stock].(quantity := stocks[stock].quantity - quantity)];
      return None;
    }

    /** `_create_order`, the part that writes order lines and allocations. */
    method CreateOrder(zone: set<nat>, items: seq<Item>) returns (error: Option<Error>)
      modifies this
      ensures Commits(Place(old(State()), zone, items), old(State()), State(), error)
    {
      var saved := State();
      lines := lines + NewLines(|orders|, items);
      orders := orders + [Unfulfilled];
      var line: nat := |saved.lines|;
      while line < |lines|
        invariant |saved.lines| <= line <= |lines|
        invariant AllocateLines(State(), zone, line) == Place(saved, zone, items)
      {
        if lines[line].variant in tracked {
          var short := AllocateStock(line, zone, lines[line].quantity);
          if short.Some? {
            Rollback(saved);
            return short;
          }
        }
        line := line + 1;
      }
      return None;
    }

    method FulfillOrderLine(line: nat, quantity: int, warehouse: nat) returns (error: Option<Error>)
      requires line < |lines|
      modifies this
      ensures Commits(FulfillLine(old(State()), line, quantity, warehouse), old(State()), State(), error)
    {
      if lines[line].variant in tracked {
        var short := DecreaseStock(line, quantity, warehouse);
        if short.Some? { return short; }
      }
      lines := lines[line := lines[line].(fulfilled := lines[line].fulfilled + quantity)];
      return None;
    }

    /** On an error the tables hold what was done so far: the caller's atomic block rolls back. */
    method CreateFulfillmentLines(warehouse: nat, asks: seq<Ask>)
      returns (error: Option<Error>, created: seq<FulfillmentLine>)
      requires KnownLines(State(), asks)
      modifies this
      ensures |lines| == |old(lines)| && orders == old(orders) && fulfillments == old(fulfillments)
      ensures match FulfillAsks(old(State()), warehouse, asks, 0)
              case Ok(next) => error.None? && State() == next && created == Shipped(asks, 0)
              case Failed(e) => error == Some(e)
    {
      ghost var before := State();
      created := [];
      var i: nat := 0;
      while i < |asks|
        invariant i <= |asks| && |lines| == |before.lines|
        invariant orders == before.orders && fulfillments == before.fulfillments
        invariant FulfillAsks(State(), warehouse, asks, i) == FulfillAsks(before, warehouse, asks, 0)
        invariant created + Shipped(asks, i) == Shipped(asks, 0)
      {
        var ask := asks[i];
        if ask.quantity > 0 {
          var stock := FindStock(stocks, warehouse, lines[ask.line].variant);
          if stock.None? { return Some(InsufficientStock), created; }
          var short := FulfillOrderLine(ask.line, ask.quantity, warehouse);
          if short.Some? { return short, created; }
          created := created + [FulfillmentLine(ask.line, ask.quantity)];
        }
        i := i + 1;
      }
      return None, created;
    }

    method CreateFulfillments(order: nat, parcels: seq<Parcel>) returns (error: Option<Error>)
      requires order < |orders| && KnownParcels(State(), parcels)
      modifies this
      ensures Commits(Ledger.CreateFulfillments(old(State()), order, parcels), old(State()), State(), error)
    {
      var saved := State();
      if parcels == [] { return Some(NothingToFulfill); }
      var i: nat := 0;
      while i < |parcels|
        invariant i <= |parcels| && |lines| == |saved.lines| && orders == saved.orders
        invariant FulfillParcels(State(), order, parcels, i) == FulfillParcels(saved, order, parcels, 0)
      {
        var short, created := CreateFulfillmentLines(parcels[i].warehouse, parcels[i].asks);
        if short.Some? {
          Rollback(saved);
          return short;
        }
        fulfillments := fulfillments + [Fulfillment(order, false, created)];
        i := i + 1;
      }
      UpdateOrderStatus(order);
      return None;
    }

    method UpdateOrderStatus(order: nat)
      requires order < |orders|
      modifies `orders
      ensures State() == UpdateStatus(old(State()), order)
    {
      var quantityFulfilled := Sum(|lines|, FulfilledOf(State(), order));
      var totalQuantity := Sum(|lines|, QuantityOf(State(), order));
      var status := if quantityFulfilled <= 0 then Unfulfilled
                    else if quantityFulfilled < totalQuantity then PartiallyFulfilled
                    else Fulfilled;
      if status != orders[order] {
        orders := orders[order := status];
      }
    }

    method RestockFulfillmentLines(restocked: seq<FulfillmentLine>, warehouse: nat)
      requires KnownFulfillmentLines(State(), restocked)
      modifies `stocks, `allocations, `lines
      ensures State() == Restock(old(State()), warehouse, restocked, 0)
    {
      ghost var before := State();
      var i: nat := 0;
      while i < |restocked|
        invariant i <= |restocked| && |lines| == |before.lines|
        invariant Restock(State(), warehouse, restocked, i) == Restock(before, warehouse, restocked, 0)
      {
        var line, quantity := restocked[i].line, restocked[i].quantity;
        if lines[line].variant in tracked {
          IncreaseStock(line, warehouse, quantity, true);
        }
        lines := lines[line := lines[line].(fulfilled := lines[line].fulfilled - quantity)];
        i := i + 1;
      }
    }

    method CancelFulfillment(fulfillment: nat, warehouse: nat)
      requires fulfillment < |fulfillments| && fulfillments[fulfillment].order < |orders|
      requires KnownFulfillmentLines(State(), fulfillments[fulfillment].lines)
      modifies this
      ensures State() == Ledger.CancelFulfillment(old(State()), fulfillment, warehouse)
    {
      RestockFulfillmentLines(fulfillments[fulfillment].lines, warehouse);
      fulfillments := fulfillments[fulfillment := fulfillments[fulfillment].(canceled := true)];
      UpdateOrderStatus(fulfillments[fulfillment].order);
    }

    method CancelOrder(order: nat)
      requires order < |orders|
      modifies `allocations, `orders
      ensures State() == Ledger.CancelOrder(old(State()), order)
    {
      allocations := Cleared(allocations, LinesOf(State(), order));
      orders := orders[order := Canceled];
    }
  }
}
