/**
 What the functions of warehouse/management.py do to the two families of sums the order lifecycle
 depends on: units promised out of a stock, and units promised to an order line.
 */
module StockLaws {
  import opened Sums
  import opened Ledger

  /** The tables differ at most in the rows of one order line. */
  ghost predicate OnlyLine(rows: Rows, rows': Rows, line: nat) {
    forall l: nat, s: nat | l != line :: At(rows', l, s) == At(rows, l, s)
  }

  lemma {:induction false} InStockShift(st: State, next: State, line: nat, s: nat)
    requires line < |st.lines| == |next.lines| && OnlyLine(st.rows, next.rows, line)
    ensures InStock(next, s) - InStock(st, s) == At(next.rows, line, s) - At(st.rows, line, s)
  {
    SumPoint(|st.lines|, StockColumn(st.rows, s), StockColumn(next.rows, s), line);
  }

  lemma {:induction false} OtherLineKept(st: State, next: State, line: nat, l: nat)
    requires |st.stocks| == |next.stocks| && OnlyLine(st.rows, next.rows, line) && l != line
    ensures OfLine(next, l) == OfLine(st, l)
  {
    SumEq(|st.stocks|, LineRow(st.rows, l), LineRow(next.rows, l));
  }

  ghost predicate NotOverAllocated(st: State) {
    forall s: nat | s < |st.stocks| :: InStock(st, s) <= st.stocks[s].quantity
  }

  // ----- allocate_stock -----

  lemma {:induction false} NewRowsAt(line: nat, n: nat, free: nat -> int, q: int, k: Pair)
    requires forall s: nat | s < n :: Pour(free, q, s) >= 0
    ensures k in NewRows(line, n, free, q) <==> k.line == line && k.stock < n && Pour(free, q, k.stock) > 0
    ensures k in NewRows(line, n, free, q) ==> NewRows(line, n, free, q)[k] == Pour(free, q, k.stock)
  {
    if n > 0 { NewRowsAt(line, n - 1, free, q, k); }
  }

  /** Every stock gives what the pour takes from it, and no other row changes. */
  lemma {:induction false} AllocateAt(st: State, line: nat, zone: set<nat>, q: int, l: nat, s: nat)
    requires line < |st.lines| && s < |st.stocks|
    requires Allocate(st, line, zone, q).Ok?
    ensures At(Allocate(st, line, zone, q).state.rows, l, s)
         == At(st.rows, l, s) + if l == line then Pour(Free(st, zone, st.lines[line].variant), q, s) else 0
  {
    FreeNonNegative(st, zone, st.lines[line].variant);
    NewRowsAt(line, |st.stocks|, Free(st, zone, st.lines[line].variant), q, Pair(l, s));
  }

  lemma {:induction false} AllocateKeys(st: State, line: nat, zone: set<nat>, q: int, k: Pair)
    requires line < |st.lines| && Allocate(st, line, zone, q).Ok?
    requires k in Allocate(st, line, zone, q).state.rows && k !in st.rows
    ensures k.line == line && Serves(st, zone, st.lines[line].variant, k.stock)
  {
    FreeNonNegative(st, zone, st.lines[line].variant);
    NewRowsAt(line, |st.stocks|, Free(st, zone, st.lines[line].variant), q, k);
  }

  lemma {:induction false} AllocateInStock(st: State, line: nat, zone: set<nat>, q: int, s: nat)
    requires line < |st.lines| && Allocate(st, line, zone, q).Ok? && s < |st.stocks|
    ensures var next := Allocate(st, line, zone, q).state;
            && next == st.(rows := next.rows)
            && InStock(next, s) == InStock(st, s) + Pour(Free(st, zone, st.lines[line].variant), q, s)
  {
    var next := Allocate(st, line, zone, q).state;
    forall l: nat | l != line ensures At(next.rows, l, s) == At(st.rows, l, s) { AllocateAt(st, line, zone, q, l, s); }
    AllocateAt(st, line, zone, q, line, s);
    SumPoint(|st.lines|, StockColumn(st.rows, s), StockColumn(next.rows, s), line);
  }

  /** `allocate_stock` is exact: the line gains the whole request, each stock gives as much of its free
      quantity as is still wanted when its turn comes, and nothing else moves. */
  lemma {:induction false} AllocateEffect(st: State, line: nat, zone: set<nat>, q: int)
    requires line < |st.lines| && Allocate(st, line, zone, q).Ok?
    ensures var next, free := Allocate(st, line, zone, q).state, Free(st, zone, st.lines[line].variant);
            && next == st.(rows := next.rows)
            && OfLine(next, line) == OfLine(st, line) + q
            && (forall l: nat | l != line :: OfLine(next, l) == OfLine(st, l))
            && (forall s: nat | s < |st.stocks| :: InStock(next, s) == InStock(st, s) + Pour(free, q, s))
  {
    var next, free, n := Allocate(st, line, zone, q).state, Free(st, zone, st.lines[line].variant), |st.stocks|;
    FreeNonNegative(st, zone, st.lines[line].variant);
    forall l: nat, s: nat | s < n
      ensures At(next.rows, l, s) == At(st.rows, l, s) + if l == line then Pour(free, q, s) else 0
    {
      AllocateAt(st, line, zone, q, l, s);
    }
    PourTotal(n, free, q);
    SumPlus(n, LineRow(st.rows, line), Poured(free, q), LineRow(next.rows, line));
    forall l: nat | l != line ensures OfLine(next, l) == OfLine(st, l) {
      SumEq(n, LineRow(st.rows, l), LineRow(next.rows, l));
    }
    forall s: nat | s < n ensures InStock(next, s) == InStock(st, s) + Pour(free, q, s) {
      AllocateInStock(st, line, zone, q, s);
    }
  }

  /** The free quantity of each stock in the zone falls by what the stock gives; other variants keep theirs. */
  lemma {:induction false} FreeAfter(st: State, line: nat, zone: set<nat>, q: int, variant: nat, s: nat)
    requires line < |st.lines| && Allocate(st, line, zone, q).Ok? && s < |st.stocks|
    ensures var next, free := Allocate(st, line, zone, q).state, Free(st, zone, variant);
            Free(next, zone, variant)(s)
            == if variant == st.lines[line].variant then free(s) - Pour(free, q, s) else free(s)
  {
    AllocateInStock(st, line, zone, q, s);
    FreeNonNegative(st, zone, st.lines[line].variant);
    hide InStock, Sum, Allocate;
    if variant != st.lines[line].variant && st.stocks[s].variant == variant {
      assert Pour(Free(st, zone, st.lines[line].variant), q, s) == 0;
    }
  }

  /** Allocation never promises more than a stock holds. */
  lemma {:induction false} AllocateSafe(st: State, line: nat, zone: set<nat>, q: int)
    requires line < |st.lines| && Allocate(st, line, zone, q).Ok? && NotOverAllocated(st)
    ensures NotOverAllocated(Allocate(st, line, zone, q).state)
  {
    FreeNonNegative(st, zone, st.lines[line].variant);
    hide InStock, Sum, Allocate;
    forall s: nat | s < |st.stocks|
      ensures InStock(Allocate(st, line, zone, q).state, s) <= st.stocks[s].quantity
    {
      AllocateInStock(st, line, zone, q, s);
    }
  }

  /** Stocks are emptied in primary-key order: one that keeps free units shields all later ones. */
  lemma {:induction false} AllocateInOrder(st: State, line: nat, zone: set<nat>, q: int, s: nat, t: nat)
    requires line < |st.lines| && Allocate(st, line, zone, q).Ok? && s < t < |st.stocks|
    requires Free(Allocate(st, line, zone, q).state, zone, st.lines[line].variant)(s) > 0
    ensures At(Allocate(st, line, zone, q).state.rows, line, t) == At(st.rows, line, t)
  {
    var variant := st.lines[line].variant;
    FreeAfter(st, line, zone, q, variant, s);
    AllocateAt(st, line, zone, q, line, t);
    FreeNonNegative(st, zone, variant);
    PourGreedy(|st.stocks|, Free(st, zone, variant), q, s, t);
  }

  // ----- deallocate_stock -----

  lemma {:induction false} DrainedAt(rows: Rows, line: nat, q: int, n: nat, k: Pair)
    ensures k in Drained(rows, line, q, n) <==> k in rows
    ensures k in rows ==>
              var take := if k.line == line && k.stock < n then Pour(LineRow(rows, line), q, k.stock) else 0;
              Drained(rows, line, q, n)[k] == rows[k] - take
  {
    if n > 0 { DrainedAt(rows, line, q, n - 1, k); }
  }

  /** Row by row, releasing takes what the pour takes, or everything. */
  lemma {:induction false} ReleaseRows(st: State, line: nat, q: int)
    requires line < |st.lines|
    ensures var next := Release(st, line, q);
            && next == st.(rows := next.rows) && next.rows.Keys == st.rows.Keys
            && OnlyLine(st.rows, next.rows, line)
            && (forall s: nat | s < |st.stocks| :: At(next.rows, line, s)
                 == if Deallocate(st, line, q).Ok?
                    then At(st.rows, line, s) - Pour(LineRow(st.rows, line), q, s) else 0)
            && (forall s: nat :: At(next.rows, line, s) <= At(st.rows, line, s))
  {
    forall k: Pair { DrainedAt(st.rows, line, q, |st.stocks|, k); }
    hide Sum, Drained;
  }

  /** Releasing q units: the line's total falls to max(old - q, 0), row by row downwards, and every stock
      is owed exactly as much less as the line gave up on it. A negative q releases everything. */
  lemma {:induction false} ReleaseEffect(st: State, line: nat, q: int)
    requires line < |st.lines|
    ensures var next := Release(st, line, q);
            && next == st.(rows := next.rows) && next.rows.Keys == st.rows.Keys
            && OnlyLine(st.rows, next.rows, line)
            && (forall s: nat :: At(next.rows, line, s) <= At(st.rows, line, s))
            && OfLine(next, line) == (if q < 0 then 0 else Max(OfLine(st, line) - q, 0))
            && (forall s: nat | s < |st.stocks| ::
                 InStock(st, s) - InStock(next, s) == At(st.rows, line, s) - At(next.rows, line, s))
  {
    var next, n, row := Release(st, line, q), |st.stocks|, LineRow(st.rows, line);
    ReleaseRows(st, line, q);
    hide Release, Drained;
    if Deallocate(st, line, q).Ok? {
      PourTotal(n, row, q);
      SumPlus(n, LineRow(next.rows, line), Poured(row, q), row);
    } else {
      SumTail(0, n, LineRow(next.rows, line));
    }
    forall s: nat | s < n
      ensures InStock(st, s) - InStock(next, s) == At(st.rows, line, s) - At(next.rows, line, s)
    {
      InStockShift(st, next, line, s);
    }
  }

  /** `deallocate_stock` succeeds exactly for quantities from zero to what the line is promised. */
  lemma {:induction false} DeallocateIff(st: State, line: nat, q: int)
    ensures Deallocate(st, line, q).Ok? <==> 0 <= q <= Sum(|st.stocks|, (s: nat) => At(st.rows, line, s))
    ensures Deallocate(st, line, q).Ok? || Deallocate(st, line, q) == Failed(AllocationError)
  {
    SumEq(|st.stocks|, LineRow(st.rows, line), (s: nat) => At(st.rows, line, s));
  }

  // ----- decrease_stock and increase_stock -----

  /** `decrease_stock` takes exactly q out of one stock, lowers the line's total to max(old - q, 0), leaves
      the other lines alone and cannot make a stock promise more than it holds. */
  lemma {:induction false} DecreaseEffect(st: State, line: nat, q: nat, warehouse: nat)
    requires line < |st.lines| && Decrease(st, line, q, warehouse).Ok?
    ensures var next := Decrease(st, line, q, warehouse).state;
            var found := FindStock(st.stocks, warehouse, st.lines[line].variant);
            && found.Some? && st.stocks[found.value].quantity >= q
            && next == st.(rows := next.rows, stocks := st.stocks[found.value :=
                 st.stocks[found.value].(quantity := st.stocks[found.value].quantity - q)])
            && next.rows.Keys == st.rows.Keys
            && OfLine(next, line) == Max(OfLine(st, line) - q, 0)
            && (forall l: nat | l != line :: OfLine(next, l) == OfLine(st, l))
            && (NotOverAllocated(st) ==> NotOverAllocated(next))
  {
    var released, next := Release(st, line, q), Decrease(st, line, q, warehouse).state;
    ReleaseEffect(st, line, q);
    hide Release;
    SumEq(|st.stocks|, LineRow(released.rows, line), LineRow(next.rows, line));
    forall l: nat | l != line ensures OfLine(next, l) == OfLine(st, l) { OtherLineKept(st, next, line, l); }
    forall s: nat | s < |st.stocks| ensures InStock(next, s) == InStock(released, s) {}
  }

  /** What `decrease_stock` sets free on stock s before it looks there: the greedy share of q in key order, or all the
      line holds on it. */
  function Share(st: State, line: nat, q: nat, s: nat): int {
    if q <= OfLine(st, line) then Pour(LineRow(st.rows, line), q, s) else At(st.rows, line, s)
  }

  /** `decrease_stock` succeeds exactly when the warehouse has a stock of the variant whose unpromised units, with
      what the release sets free on it, cover the quantity. */
  lemma {:induction false} DecreaseIff(st: State, line: nat, q: nat, warehouse: nat)
    requires line < |st.lines|
    ensures var found := FindStock(st.stocks, warehouse, st.lines[line].variant);
            Decrease(st, line, q, warehouse).Ok?
            <==> found.Some?
                 && q <= st.stocks[found.value].quantity - InStock(st, found.value) + Share(st, line, q, found.value)
    ensures Decrease(st, line, q, warehouse).Ok? || Decrease(st, line, q, warehouse) == Failed(InsufficientStock)
  {
    ReleaseRows(st, line, q);
    ReleaseEffect(st, line, q);
    hide Release, Pour, Sum;
  }

  /** When the line is promised only units of the target stock, at least q of them, and that stock is not
      over-allocated, `decrease_stock` succeeds. */
  lemma {:induction false} DecreaseSucceeds(st: State, line: nat, q: nat, warehouse: nat, s: nat)
    requires line < |st.lines| && s < |st.stocks|
    requires FindStock(st.stocks, warehouse, st.lines[line].variant) == Some(s)
    requires forall t: nat | t < |st.stocks| && t != s :: At(st.rows, line, t) == 0
    requires q <= At(st.rows, line, s) && InStock(st, s) <= st.stocks[s].quantity
    ensures Decrease(st, line, q, warehouse).Ok?
  {
    var released, zero := Release(st, line, q), (i: nat) => 0;
    ReleaseEffect(st, line, q);
    SumTail(0, |st.stocks|, zero);
    SumPoint(|st.stocks|, zero, LineRow(st.rows, line), s);
    SumPoint(|st.stocks|, zero, LineRow(released.rows, line), s);
  }

  /** Allocation rows name existing lines and stocks. */
  ghost predicate RowsKnown(st: State) {
    forall k | k in st.rows :: k.line < |st.lines| && k.stock < |st.stocks|
  }

  /** Where `increase_stock` puts the units: the stock of that warehouse, or a new row at the end. */
  function Shelf(st: State, warehouse: nat, variant: nat): nat {
    var found := FindStock(st.stocks, warehouse, variant);
    if found.Some? then found.value else |st.stocks|
  }

  /** `increase_stock` adds the units to the warehouse's stock of the variant, creates that at the end when there is
      none, and promises them to the line only on request. No other stock and no other row changes. */
  lemma {:induction false} IncreaseMeans(st: State, line: nat, warehouse: nat, q: nat, allocate: bool)
    requires line < |st.lines|
    ensures var next, variant := Increase(st, line, warehouse, q, allocate), st.lines[line].variant;
            var s := Shelf(st, warehouse, variant);
            && next == st.(rows := next.rows, stocks := next.stocks)
            && (s == |st.stocks| <==> forall t | t in st.stocks :: t.warehouse != warehouse || t.variant != variant)
            && next.stocks == (if s == |st.stocks| then st.stocks + [Stock(warehouse, variant, q)]
                               else st.stocks[s := Stock(warehouse, variant, st.stocks[s].quantity + q)])
            && (forall l: nat, t: nat :: At(next.rows, l, t)
                  == At(st.rows, l, t) + if allocate && l == line && t == s then q else 0)
  {
    hide FindStock;
  }

  lemma {:induction false} IncreaseEffect(st: State, line: nat, warehouse: nat, q: nat)
    requires line < |st.lines| && RowsKnown(st)
    ensures var next := Increase(st, line, warehouse, q, true);
            && next == st.(rows := next.rows, stocks := next.stocks)
            && RowsKnown(next)
            && (forall l: nat :: OfLine(next, l) == OfLine(st, l) + if l == line then q else 0)
            && (NotOverAllocated(st) ==> NotOverAllocated(next))
  {
    var next, s := Increase(st, line, warehouse, q, true), Shelf(st, warehouse, st.lines[line].variant);
    var n := |next.stocks|;
    forall l: nat ensures OfLine(next, l) == OfLine(st, l) + if l == line then q else 0 {
      SumTail(|st.stocks|, n, LineRow(st.rows, l));
      if l == line {
        SumPoint(n, LineRow(st.rows, l), LineRow(next.rows, l), s);
      } else {
        SumEq(n, LineRow(st.rows, l), LineRow(next.rows, l));
      }
    }
    forall t: nat ensures InStock(next, t) == InStock(st, t) + if t == s then q else 0 {
      InStockShift(st, next, line, t);
    }
    if s == |st.stocks| { SumTail(0, |st.lines|, StockColumn(st.rows, s)); }
  }
}
