/**
 Placing an order: exactly when all of its lines can be allocated, and how the availability check that
 runs before (warehouse/availability.py) relates to that.
 */
module Placing {
  import opened Sums
  import opened Ledger
  import opened StockLaws
  import opened Shipping

  /** The rows that allocating the lines from index `from` on may have added: each promises units of a stock of the
      line's variant in a warehouse that ships to the customer's country. */
  ghost predicate RowsGrow(st: State, next: State, zone: set<nat>, from: nat) {
    forall k | k in next.rows && k !in st.rows ::
      && from <= k.line && Tracked(st, k.line) && k.stock < |st.stocks|
      && st.stocks[k.stock].variant == st.lines[k.line].variant
      && st.stocks[k.stock].warehouse in zone
  }

  lemma {:induction false} AllocateLinesEffect(st: State, zone: set<nat>, from: nat)
    requires from <= |st.lines| && AllocateLines(st, zone, from).Ok?
    ensures var next := AllocateLines(st, zone, from).state;
            && next == st.(rows := next.rows)
            && (forall l: nat | l < |st.lines| :: OfLine(next, l)
                 == OfLine(st, l) + if from <= l && Tracked(st, l) then st.lines[l].quantity else 0)
            && (NotOverAllocated(st) ==> NotOverAllocated(next))
    decreases |st.lines| - from
  {
    hide Allocate, OfLine, NotOverAllocated, InStock, Pour, Free;
    if from < |st.lines| {
      if Tracked(st, from) {
        var q := st.lines[from].quantity;
        var mid := Allocate(st, from, zone, q).state;
        AllocateEffect(st, from, zone, q);
        if NotOverAllocated(st) { AllocateSafe(st, from, zone, q); }
        AllocateLinesEffect(mid, zone, from + 1);
      } else {
        AllocateLinesEffect(st, zone, from + 1);
      }
    }
  }

  lemma {:induction false} AllocateLinesRows(st: State, zone: set<nat>, from: nat)
    requires from <= |st.lines| && AllocateLines(st, zone, from).Ok?
    ensures var next := AllocateLines(st, zone, from).state;
            && RowsGrow(st, next, zone, from)
            && (forall l: nat, s: nat | l < from :: At(next.rows, l, s) == At(st.rows, l, s))
    decreases |st.lines| - from
  {
    if from < |st.lines| {
      if Tracked(st, from) {
        var q := st.lines[from].quantity;
        var mid := Allocate(st, from, zone, q).state;
        AllocateKeepsStocks(st, from, zone, q);
        assert RowsGrow(st, mid, zone, from) by {
          forall k | k in mid.rows && k !in st.rows { AllocateKeys(st, from, zone, q, k); }
        }
        forall l: nat, s: nat | l < from ensures At(mid.rows, l, s) == At(st.rows, l, s) {
          AllocateOthers(st, from, zone, q, l, s);
        }
        hide Allocate, At;
        AllocateLinesRows(mid, zone, from + 1);
      } else {
        AllocateLinesRows(st, zone, from + 1);
      }
    }
  }

  lemma {:induction false} AllocateOthers(st: State, line: nat, zone: set<nat>, q: int, l: nat, s: nat)
    requires line < |st.lines| && Allocate(st, line, zone, q).Ok? && l != line
    ensures At(Allocate(st, line, zone, q).state.rows, l, s) == At(st.rows, l, s)
  {
    FreeNonNegative(st, zone, st.lines[line].variant);
    NewRowsAt(line, |st.stocks|, Free(st, zone, st.lines[line].variant), q, Pair(l, s));
  }

  // ----- when an order can be placed -----

  /** Units of a variant that the lines from index `from` on want. */
  function Wanted(lines: seq<OrderLine>, from: nat, variant: nat): nat
    requires from <= |lines|
    decreases |lines| - from
  {
    if from == |lines| then 0
    else Wanted(lines, from + 1, variant) + if lines[from].variant == variant then lines[from].quantity else 0
  }

  lemma {:induction false} TotalFreeAfter(st: State, line: nat, zone: set<nat>, q: int, variant: nat)
    requires line < |st.lines| && Allocate(st, line, zone, q).Ok?
    ensures TotalFree(Allocate(st, line, zone, q).state, zone, variant)
         == TotalFree(st, zone, variant) - if variant == st.lines[line].variant then q else 0
  {
    var next, free, n := Allocate(st, line, zone, q).state, Free(st, zone, variant), |st.stocks|;
    FreeNonNegative(st, zone, variant);
    forall s: nat | s < n
      ensures Free(next, zone, variant)(s)
           == if variant == st.lines[line].variant then free(s) - Pour(free, q, s) else free(s)
    {
      FreeAfter(st, line, zone, q, variant, s);
    }
    hide Free, Pour;
    AllocateKeepsStocks(st, line, zone, q);
    if variant == st.lines[line].variant {
      PourTotal(n, free, q);
      SumPlus(n, Free(next, zone, variant), Poured(free, q), free);
    } else {
      SumEq(n, free, Free(next, zone, variant));
    }
  }

  lemma {:induction false} AllocateKeepsStocks(st: State, line: nat, zone: set<nat>, q: int)
    requires line < |st.lines| && Allocate(st, line, zone, q).Ok?
    ensures Allocate(st, line, zone, q).state == st.(rows := Allocate(st, line, zone, q).state.rows)
    ensures 0 <= q <= TotalFree(st, zone, st.lines[line].variant)
  {
  }

  /** Lines without allocation rows can all be allocated, one after the other, exactly when every tracked
      variant has as many free units as the lines want together; otherwise the stock runs short. */
  lemma {:induction false} AllocateLinesIff(st: State, zone: set<nat>, from: nat)
    requires from <= |st.lines| && forall k | k in st.rows :: k.line < from
    ensures AllocateLines(st, zone, from).Ok?
       <==> forall v | v in st.tracked :: Wanted(st.lines, from, v) <= TotalFree(st, zone, v)
    ensures AllocateLines(st, zone, from).Ok? || AllocateLines(st, zone, from) == Failed(InsufficientStock)
    decreases |st.lines| - from
  {
    forall v ensures TotalFree(st, zone, v) >= 0 {
      FreeNonNegative(st, zone, v);
      SumNonNegative(|st.stocks|, Free(st, zone, v));
    }
    hide TotalFree;
    if from < |st.lines| {
      var line := st.lines[from];
      if line.variant !in st.tracked {
        AllocateLinesIff(st, zone, from + 1);
        assert forall v | v in st.tracked :: Wanted(st.lines, from, v) == Wanted(st.lines, from + 1, v);
      } else {
        FreshLineAllocates(st, from, zone, line.quantity);
        if Allocate(st, from, zone, line.quantity).Ok? {
          var next := Allocate(st, from, zone, line.quantity).state;
          AllocateKeepsStocks(st, from, zone, line.quantity);
          forall v { TotalFreeAfter(st, from, zone, line.quantity, v); }
          forall k | k in next.rows ensures k.line < from + 1 {
            if k !in st.rows { AllocateKeys(st, from, zone, line.quantity, k); }
          }
          hide Allocate;
          AllocateLinesIff(next, zone, from + 1);
          assert forall v | v in st.tracked ::
              Wanted(st.lines, from, v) <= TotalFree(st, zone, v)
              <==> Wanted(next.lines, from + 1, v) <= TotalFree(next, zone, v);
        } else {
          assert Wanted(st.lines, from, line.variant) > TotalFree(st, zone, line.variant);
        }
      }
    }
  }

  lemma {:induction false} FreshLineAllocates(st: State, line: nat, zone: set<nat>, q: nat)
    requires line < |st.lines| && forall k | k in st.rows :: k.line < line
    ensures Allocate(st, line, zone, q).Ok? <==> q <= TotalFree(st, zone, st.lines[line].variant)
    ensures Allocate(st, line, zone, q).Ok? || Allocate(st, line, zone, q) == Failed(InsufficientStock)
  {
    var free := Free(st, zone, st.lines[line].variant);
    FreeNonNegative(st, zone, st.lines[line].variant);
    var created := NewRows(line, |st.stocks|, free, q);
    forall k | k in created ensures k !in st.rows { NewRowsAt(line, |st.stocks|, free, q, k); }
  }

  function Demand(items: seq<Item>, i: nat, variant: nat): nat
    requires i <= |items|
    decreases |items| - i
  {
    if i == |items| then 0
    else Demand(items, i + 1, variant) + if items[i].variant == variant then items[i].quantity else 0
  }

  lemma {:induction false} WantedIsDemand(st: State, items: seq<Item>, i: nat, variant: nat)
    requires i <= |items|
    ensures Wanted(AddOrder(st, items).lines, |st.lines| + i, variant) == Demand(items, i, variant)
    decreases |items| - i
  {
    if i < |items| { WantedIsDemand(st, items, i + 1, variant); }
  }

  lemma {:induction false} AddOrderSums(st: State, items: seq<Item>, s: nat, zone: set<nat>, variant: nat)
    requires RowsKnown(st)
    ensures InStock(AddOrder(st, items), s) == InStock(st, s)
    ensures TotalFree(AddOrder(st, items), zone, variant) == TotalFree(st, zone, variant)
  {
    var added := AddOrder(st, items);
    forall t: nat ensures InStock(added, t) == InStock(st, t) {
      SumTail(|st.lines|, |added.lines|, StockColumn(st.rows, t));
    }
    SumEq(|st.stocks|, Free(st, zone, variant), Free(added, zone, variant));
  }

  /** An order can be placed exactly when every tracked variant it names has as many free units in the zone
      as the order wants of it; otherwise the outcome is InsufficientStock. */
  lemma {:induction false} PlaceIff(st: State, zone: set<nat>, items: seq<Item>)
    requires RowsKnown(st)
    ensures Place(st, zone, items).Ok?
       <==> forall v | v in st.tracked :: Demand(items, 0, v) <= TotalFree(st, zone, v)
    ensures Place(st, zone, items).Ok? || Place(st, zone, items) == Failed(InsufficientStock)
  {
    var added := AddOrder(st, items);
    AllocateLinesIff(added, zone, |st.lines|);
    forall v: nat
      ensures Wanted(added.lines, |st.lines|, v) == Demand(items, 0, v)
      ensures TotalFree(added, zone, v) == TotalFree(st, zone, v)
    {
      WantedIsDemand(st, items, 0, v);
      AddOrderSums(st, items, 0, zone, v);
    }
  }

  /** Unpromised units, stock by stock, of the variant's stocks in the warehouses of a zone. */
  function Unpromised(st: State, zone: set<nat>, variant: nat): nat -> int {
    (s: nat) =>
      if s < |st.stocks| && st.stocks[s].variant == variant && st.stocks[s].warehouse in zone
      then Max(st.stocks[s].quantity - InStock(st, s), 0) else 0
  }

  /** `allocate_stock` runs short exactly when the request is negative or more than the country's unpromised units, and
      otherwise fails only on a row that the line has already on a stock it would take from. */
  lemma {:induction false} AllocateIff(st: State, line: nat, zone: set<nat>, q: int)
    requires line < |st.lines|
    ensures var n, units := |st.stocks|, Unpromised(st, zone, st.lines[line].variant);
            && (Allocate(st, line, zone, q) == Failed(InsufficientStock) <==> q < 0 || q > Sum(n, units))
            && (Allocate(st, line, zone, q) == Failed(IntegrityError)
                <==> 0 <= q <= Sum(n, units)
                     && exists s: nat | s < n :: Pair(line, s) in st.rows && Pour(units, q, s) > 0)
            && (Allocate(st, line, zone, q).Failed? ==> Allocate(st, line, zone, q).error != AllocationError)
  {
    var n, units, free :=
      |st.stocks|, Unpromised(st, zone, st.lines[line].variant), Free(st, zone, st.lines[line].variant);
    FreeNonNegative(st, zone, st.lines[line].variant);
    SumEq(n, free, units);
    forall s: nat | s < n ensures Pour(units, q, s) == Pour(free, q, s) { SumEq(s, free, units); }
    forall k: Pair { NewRowsAt(line, n, free, q, k); }
    hide Free, Unpromised, Pour, NewRows, Sum;
    var created := NewRows(line, n, free, q);
    assert !(created.Keys !! st.rows.Keys)
      <==> exists s: nat | s < n :: Pair(line, s) in st.rows && Pour(free, q, s) > 0 by {
      if k :| k in created && k in st.rows { assert k == Pair(line, k.stock); }
      if s: nat :| s < n && Pair(line, s) in st.rows && Pour(free, q, s) > 0 { assert Pair(line, s) in created; }
    }
  }

  /** Only the warehouses that ship to the customer's country count: an order can be placed exactly when their
      unpromised units cover what it wants of every tracked variant, and all it is promised lies there. */
  lemma {:induction false} PlaceInCountry(st: State, zone: set<nat>, items: seq<Item>)
    requires RowsKnown(st)
    ensures Place(st, zone, items).Ok?
       <==> forall v | v in st.tracked :: Demand(items, 0, v) <= Sum(|st.stocks|, Unpromised(st, zone, v))
    ensures Place(st, zone, items).Ok? ==>
              var next := Place(st, zone, items).state;
              forall k | k in next.rows && k !in st.rows ::
                && |st.lines| <= k.line < |next.lines| && k.stock < |st.stocks|
                && st.stocks[k.stock].warehouse in zone
                && st.stocks[k.stock].variant == next.lines[k.line].variant
  {
    PlaceIff(st, zone, items);
    forall v ensures TotalFree(st, zone, v) == Sum(|st.stocks|, Unpromised(st, zone, v)) {
      SumEq(|st.stocks|, Free(st, zone, v), Unpromised(st, zone, v));
    }
    if Place(st, zone, items).Ok? {
      AllocateLinesRows(AddOrder(st, items), zone, |st.lines|);
      AllocateLinesEffect(AddOrder(st, items), zone, |st.lines|);
    }
    hide Place, Demand, TotalFree, Sum, InStock, OfLine, AllocateLines;
  }

  // ----- warehouse/availability.py -----

  /** Quantities of the serving stocks, each value counted once: SQL's SUM(DISTINCT quantity). */
  function Distinct(st: State, zone: set<nat>, variant: nat): nat -> int {
    (s: nat) => if Serves(st, zone, variant, s) && !RepeatsQuantity(st, zone, variant, s)
                then st.stocks[s].quantity else 0
  }

  predicate RepeatsQuantity(st: State, zone: set<nat>, variant: nat, s: nat)
    requires s < |st.stocks|
  {
    exists t: nat | t < s :: Serves(st, zone, variant, t) && st.stocks[t].quantity == st.stocks[s].quantity
  }

  function Stocked(st: State, zone: set<nat>, variant: nat): nat -> int {
    (s: nat) => if Serves(st, zone, variant, s) then st.stocks[s].quantity else 0
  }

  function Promised(st: State, zone: set<nat>, variant: nat): nat -> int {
    (s: nat) => if Serves(st, zone, variant, s) then InStock(st, s) else 0
  }

  function Available(st: State, zone: set<nat>, variant: nat): int {
    Max(Sum(|st.stocks|, Distinct(st, zone, variant)) - Sum(|st.stocks|, Promised(st, zone, variant)), 0)
  }

  /** `check_stock_quantity` returns instead of raising. */
  predicate CheckPasses(st: State, zone: set<nat>, variant: nat, q: int) {
    variant in st.tracked ==>
      (exists s: nat | s < |st.stocks| :: Serves(st, zone, variant, s)) && q <= Available(st, zone, variant)
  }

  /** The different quantities that the variant's stocks in the zone hold, among the first n stocks. */
  function Quantities(st: State, zone: set<nat>, variant: nat, n: nat): set<nat>
    requires n <= |st.stocks|
  {
    set s: nat | s < n && st.stocks[s].variant == variant && st.stocks[s].warehouse in zone :: st.stocks[s].quantity
  }

  function Each(values: set<nat>): nat -> int {
    (x: nat) => if x in values then x else 0
  }

  lemma {:induction false} DistinctSum(st: State, zone: set<nat>, variant: nat, n: nat, bound: nat)
    requires n <= |st.stocks| && forall s | 0 <= s < |st.stocks| :: st.stocks[s].quantity < bound
    ensures Sum(n, Distinct(st, zone, variant)) == Sum(bound, Each(Quantities(st, zone, variant, n)))
  {
    if n == 0 {
      SumTail(0, bound, Each({}));
      assert Quantities(st, zone, variant, 0) == {};
    } else {
      DistinctSum(st, zone, variant, n - 1, bound);
      var before, after, q :=
        Quantities(st, zone, variant, n - 1), Quantities(st, zone, variant, n), st.stocks[n - 1].quantity;
      if Serves(st, zone, variant, n - 1) {
        assert after == before + {q};
        assert RepeatsQuantity(st, zone, variant, n - 1) <==> q in before;
        SumPoint(bound, Each(before), Each(after), q);
      } else {
        assert after == before;
      }
    }
  }

  /** What `check_stock_quantity` lets through: anything of an untracked variant; of a tracked one that some warehouse
      of the country has a stock of, at most the different quantities added up, less all that is promised there. */
  lemma {:induction false} CheckMeans(st: State, zone: set<nat>, variant: nat, q: int, bound: nat)
    requires forall s | 0 <= s < |st.stocks| :: st.stocks[s].quantity < bound
    ensures var n := |st.stocks|;
            var owed := (s: nat) =>
              if s < |st.stocks| && st.stocks[s].variant == variant && st.stocks[s].warehouse in zone
              then InStock(st, s) else 0;
            CheckPasses(st, zone, variant, q)
            <==> variant in st.tracked ==>
                   && (exists s | s in st.stocks :: s.variant == variant && s.warehouse in zone)
                   && q <= Max(Sum(bound, Each(Quantities(st, zone, variant, n))) - Sum(n, owed), 0)
  {
    var owed := (s: nat) =>
      if s < |st.stocks| && st.stocks[s].variant == variant && st.stocks[s].warehouse in zone
      then InStock(st, s) else 0;
    DistinctSum(st, zone, variant, |st.stocks|, bound);
    SumEq(|st.stocks|, Promised(st, zone, variant), owed);
    if stock :| stock in st.stocks && stock.variant == variant && stock.warehouse in zone {
      var s: nat :| s < |st.stocks| && st.stocks[s] == stock;
      assert Serves(st, zone, variant, s);
    }
    if s: nat :| s < |st.stocks| && Serves(st, zone, variant, s) { assert st.stocks[s] in st.stocks; }
    hide Sum, InStock;
  }

  /** The check never promises more than allocation can place. */
  lemma {:induction false} AvailableBound(st: State, zone: set<nat>, variant: nat)
    ensures Available(st, zone, variant) <= TotalFree(st, zone, variant)
  {
    var n, free, promised := |st.stocks|, Free(st, zone, variant), Promised(st, zone, variant);
    var covered := (s: nat) => free(s) + promised(s);
    SumPlus(n, free, promised, covered);
    SumLe(n, Distinct(st, zone, variant), covered);
    SumNonNegative(n, free);
  }

  /** A checkout whose lines name pairwise distinct variants and all pass the check can be placed. */
  lemma {:induction false} CheckedOrderPlaces(st: State, zone: set<nat>, items: seq<Item>)
    requires RowsKnown(st)
    requires forall i, j | 0 <= i < j < |items| :: items[i].variant != items[j].variant
    requires forall i | 0 <= i < |items| :: CheckPasses(st, zone, items[i].variant, items[i].quantity)
    ensures Place(st, zone, items).Ok?
  {
    forall v | v in st.tracked ensures Demand(items, 0, v) <= TotalFree(st, zone, v) {
      AvailableBound(st, zone, v);
      FreeNonNegative(st, zone, v);
      SumNonNegative(|st.stocks|, Free(st, zone, v));
      DemandDistinct(items, 0, v);
      hide TotalFree;
    }
    hide TotalFree;
    PlaceIff(st, zone, items);
  }

  lemma {:induction false} DemandDistinct(items: seq<Item>, i: nat, v: nat)
    requires i <= |items|
    requires forall j, k | i <= j < k < |items| :: items[j].variant != items[k].variant
    ensures (Demand(items, i, v) == 0 && forall j | i <= j < |items| :: items[j].variant != v)
         || exists j | i <= j < |items| :: items[j].variant == v && Demand(items, i, v) == items[j].quantity
    decreases |items| - i
  {
    if i < |items| { DemandDistinct(items, i + 1, v); }
  }

  /** Two serving stocks hold the same positive quantity, so the check counts it once. */
  ghost predicate EqualStocks(st: State, zone: set<nat>, variant: nat) {
    exists t: nat, s: nat | t < s < |st.stocks| ::
      && Serves(st, zone, variant, t) && Serves(st, zone, variant, s)
      && st.stocks[t].quantity == st.stocks[s].quantity > 0
  }

  /** The check accepts exactly what can be allocated, unless two serving stocks hold equal positive
      quantities while something is free: then it refuses requests that would fit. */
  lemma {:induction false} AvailableExact(st: State, zone: set<nat>, variant: nat)
    requires NotOverAllocated(st)
    ensures Available(st, zone, variant) == TotalFree(st, zone, variant)
       <==> TotalFree(st, zone, variant) == 0 || !EqualStocks(st, zone, variant)
  {
    var n, free, promised := |st.stocks|, Free(st, zone, variant), Promised(st, zone, variant);
    var distinct, stocked := Distinct(st, zone, variant), Stocked(st, zone, variant);
    AvailableBound(st, zone, variant);
    SumPlus(n, free, promised, stocked);
    SumNonNegative(n, free);
    if EqualStocks(st, zone, variant) {
      var t: nat, s: nat :| t < s < n && Serves(st, zone, variant, t) && Serves(st, zone, variant, s)
                            && st.stocks[t].quantity == st.stocks[s].quantity > 0;
      assert RepeatsQuantity(st, zone, variant, s);
      SumLt(n, distinct, stocked, s);
    } else {
      SumEq(n, distinct, stocked);
    }
  }

  /** Two warehouses with five units each: the check refuses an order of ten that can be placed. */
  lemma {:induction false} EqualStocksRefused()
    ensures var st := State([Stock(0, 7, 5), Stock(1, 7, 5)], map[], [], [], [], {7});
            !CheckPasses(st, {0, 1}, 7, 10) && Place(st, {0, 1}, [Item(7, 10)]).Ok?
  {
    var st := State([Stock(0, 7, 5), Stock(1, 7, 5)], map[], [], [], [], {7});
    assert Serves(st, {0, 1}, 7, 0) && Serves(st, {0, 1}, 7, 1);
    var f := Free(st, {0, 1}, 7);
    assert Sum(2, f) == f(0) + f(1) == 10;
    AvailableExact(st, {0, 1}, 7);
    AvailableBound(st, {0, 1}, 7);
    hide Available;
    PlaceIff(st, {0, 1}, [Item(7, 10)]);
    assert Demand([Item(7, 10)], 0, 7) == 10;
  }
}
