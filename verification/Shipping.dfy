/**
 The combined effect of fulfilling a whole request, and of putting a fulfillment back: how far every
 line's fulfilled quantity and promised units move, with no assumption on the order's state.
 */
module Shipping {
  import opened Sums
  import opened Ledger
  import opened StockLaws

  /** Same lines, variants and orders; stock rows keep their place and may be followed by new ones. */
  ghost predicate SameShape(st: State, next: State) {
    && next.tracked == st.tracked && next.orders == st.orders
    && |next.lines| == |st.lines|
    && (forall l | 0 <= l < |st.lines| :: next.lines[l] == st.lines[l].(fulfilled := next.lines[l].fulfilled))
    && |st.stocks| <= |next.stocks|
    && (forall s | 0 <= s < |st.stocks| :: next.stocks[s] == st.stocks[s].(quantity := next.stocks[s].quantity))
  }

  predicate Tracked(st: State, l: nat) {
    l < |st.lines| && st.lines[l].variant in st.tracked
  }

  // ----- physical units -----

  function Held(st: State, variant: nat): nat -> int {
    (s: nat) => if s < |st.stocks| && st.stocks[s].variant == variant then st.stocks[s].quantity else 0
  }

  function Delivered(st: State, variant: nat): nat -> int {
    (l: nat) => if l < |st.lines| && st.lines[l].variant == variant then st.lines[l].fulfilled else 0
  }

  /** Units of a variant in the warehouses plus units shipped to customers. */
  function Physical(st: State, variant: nat): int {
    Sum(|st.stocks|, Held(st, variant)) + Sum(|st.lines|, Delivered(st, variant))
  }

  lemma {:induction false} FulfillLineEffect(st: State, line: nat, q: nat, warehouse: nat)
    requires line < |st.lines| && FulfillLine(st, line, q, warehouse).Ok?
    ensures var next := FulfillLine(st, line, q, warehouse).state;
            && SameShape(st, next) && next.fulfillments == st.fulfillments
            && |next.stocks| == |st.stocks| && next.rows.Keys == st.rows.Keys
            && (forall l: nat | l < |st.lines| ::
                 next.lines[l].fulfilled == st.lines[l].fulfilled + if l == line then q else 0)
            && (forall l: nat | l < |st.lines| :: OfLine(next, l)
                 == if l == line && Tracked(st, l) then Max(OfLine(st, l) - q, 0) else OfLine(st, l))
            && (NotOverAllocated(st) ==> NotOverAllocated(next))
  {
    var next := FulfillLine(st, line, q, warehouse).state;
    if Tracked(st, line) { DecreaseEffect(st, line, q, warehouse); }
    hide Decrease;
    var moved := if Tracked(st, line) then Decrease(st, line, q, warehouse).state else st;
    forall l: nat ensures OfLine(next, l) == OfLine(moved, l) {}
    forall s: nat ensures InStock(next, s) == InStock(moved, s) {}
  }

  /** Shipping q units moves them from the shelf to the customer. */
  lemma {:induction false} FulfillLineConserves(st: State, line: nat, q: nat, warehouse: nat, variant: nat)
    requires line < |st.lines| && FulfillLine(st, line, q, warehouse).Ok? && variant in st.tracked
    ensures Physical(FulfillLine(st, line, q, warehouse).state, variant) == Physical(st, variant)
  {
    var next := FulfillLine(st, line, q, warehouse).state;
    if Tracked(st, line) {
      DecreaseEffect(st, line, q, warehouse);
      var s := FindStock(st.stocks, warehouse, st.lines[line].variant).value;
      SumPoint(|st.stocks|, Held(st, variant), Held(next, variant), s);
    } else {
      SumEq(|st.stocks|, Held(st, variant), Held(next, variant));
    }
    SumPoint(|st.lines|, Delivered(st, variant), Delivered(next, variant), line);
  }

  lemma {:induction false} RestockLineEffect(st: State, warehouse: nat, fl: FulfillmentLine)
    requires fl.line < |st.lines| && RowsKnown(st)
    ensures var next := RestockLine(st, warehouse, fl);
            && SameShape(st, next) && next.fulfillments == st.fulfillments && RowsKnown(next)
            && (forall l: nat | l < |st.lines| ::
                 next.lines[l].fulfilled == st.lines[l].fulfilled - if l == fl.line then fl.quantity else 0)
            && (forall l: nat | l < |st.lines| :: OfLine(next, l)
                 == OfLine(st, l) + if l == fl.line && Tracked(st, l) then fl.quantity else 0)
            && (NotOverAllocated(st) ==> NotOverAllocated(next))
  {
    var next := RestockLine(st, warehouse, fl);
    if Tracked(st, fl.line) { IncreaseEffect(st, fl.line, warehouse, fl.quantity); }
    var moved := if Tracked(st, fl.line) then Increase(st, fl.line, warehouse, fl.quantity, true) else st;
    forall l: nat ensures OfLine(next, l) == OfLine(moved, l) {}
    forall s: nat ensures InStock(next, s) == InStock(moved, s) {}
  }

  lemma {:induction false} RestockLineConserves(st: State, warehouse: nat, fl: FulfillmentLine, variant: nat)
    requires fl.line < |st.lines| && variant in st.tracked
    ensures Physical(RestockLine(st, warehouse, fl), variant) == Physical(st, variant)
  {
    var next, n := RestockLine(st, warehouse, fl), |st.stocks|;
    SumTail(n, |next.stocks|, Held(st, variant));
    if Tracked(st, fl.line) {
      var s := Shelf(st, warehouse, st.lines[fl.line].variant);
      SumPoint(|next.stocks|, Held(st, variant), Held(next, variant), s);
    } else {
      SumEq(|next.stocks|, Held(st, variant), Held(next, variant));
    }
    SumPoint(|st.lines|, Delivered(st, variant), Delivered(next, variant), fl.line);
  }

  // ----- a request -----

  /** Units of a line that the asks from index i on want. */
  function Asked(asks: seq<Ask>, i: nat, line: nat): nat
    requires i <= |asks|
    decreases |asks| - i
  {
    if i == |asks| then 0
    else Asked(asks, i + 1, line) + if asks[i].line == line && asks[i].quantity > 0 then asks[i].quantity else 0
  }

  function AskedAll(parcels: seq<Parcel>, i: nat, line: nat): nat
    requires i <= |parcels|
    decreases |parcels| - i
  {
    if i == |parcels| then 0 else Asked(parcels[i].asks, 0, line) + AskedAll(parcels, i + 1, line)
  }

  /** Units of a line in a list of fulfillment lines. */
  function Units(lines: seq<FulfillmentLine>, line: nat): nat {
    if lines == [] then 0
    else Units(lines[1..], line) + if lines[0].line == line then lines[0].quantity else 0
  }

  /** Units of a line in the live fulfillments. */
  function LiveIn(st: State, line: nat): nat -> int {
    (f: nat) => if f < |st.fulfillments| && !st.fulfillments[f].canceled
                then Units(st.fulfillments[f].lines, line) else 0
  }

  function Live(st: State, line: nat): int {
    Sum(|st.fulfillments|, LiveIn(st, line))
  }

  lemma {:induction false} ShippedUnits(asks: seq<Ask>, i: nat, line: nat)
    requires i <= |asks|
    ensures Units(Shipped(asks, i), line) == Asked(asks, i, line)
    decreases |asks| - i
  {
    if i < |asks| {
      ShippedUnits(asks, i + 1, line);
      if asks[i].quantity > 0 {
        assert Shipped(asks, i)[1..] == Shipped(asks, i + 1);
      }
    }
  }

  lemma {:induction false} FulfillAsksEffect(st: State, warehouse: nat, asks: seq<Ask>, i: nat)
    requires i <= |asks| && KnownLines(st, asks) && FulfillAsks(st, warehouse, asks, i).Ok?
    ensures var next := FulfillAsks(st, warehouse, asks, i).state;
            && SameShape(st, next) && next.fulfillments == st.fulfillments
            && |next.stocks| == |st.stocks| && next.rows.Keys == st.rows.Keys
            && (forall l: nat | l < |st.lines| ::
                 next.lines[l].fulfilled == st.lines[l].fulfilled + Asked(asks, i, l))
            && (forall l: nat | l < |st.lines| :: OfLine(next, l)
                 == if Tracked(st, l) then Max(OfLine(st, l) - Asked(asks, i, l), 0) else OfLine(st, l))
            && (NotOverAllocated(st) ==> NotOverAllocated(next))
            && (forall v | v in st.tracked :: Physical(next, v) == Physical(st, v))
    decreases |asks| - i
  {
    hide FulfillLine, OfLine, Physical, NotOverAllocated;
    if i < |asks| {
      if asks[i].quantity <= 0 {
        FulfillAsksEffect(st, warehouse, asks, i + 1);
      } else {
        var line, q := asks[i].line, asks[i].quantity;
        FulfillLineEffect(st, line, q, warehouse);
        forall v | v in st.tracked { FulfillLineConserves(st, line, q, warehouse, v); }
        FulfillAsksEffect(FulfillLine(st, line, q, warehouse).state, warehouse, asks, i + 1);
      }
    }
  }

  /** One parcel: its asks are fulfilled and a live fulfillment records them. */
  lemma {:induction false} ParcelEffect(st: State, order: nat, parcel: Parcel)
    requires KnownLines(st, parcel.asks) && FulfillAsks(st, parcel.warehouse, parcel.asks, 0).Ok?
    ensures var next := Record(FulfillAsks(st, parcel.warehouse, parcel.asks, 0).state, order, parcel.asks);
            && SameShape(st, next)
            && next.fulfillments == st.fulfillments + [Fulfillment(order, false, Shipped(parcel.asks, 0))]
            && |next.stocks| == |st.stocks| && next.rows.Keys == st.rows.Keys
            && (forall l: nat | l < |st.lines| ::
                 next.lines[l].fulfilled == st.lines[l].fulfilled + Asked(parcel.asks, 0, l))
            && (forall l: nat | l < |st.lines| :: OfLine(next, l)
                 == if Tracked(st, l) then Max(OfLine(st, l) - Asked(parcel.asks, 0, l), 0) else OfLine(st, l))
            && (forall l: nat :: Live(next, l) == Live(st, l) + Asked(parcel.asks, 0, l))
            && (NotOverAllocated(st) ==> NotOverAllocated(next))
            && (forall v | v in st.tracked :: Physical(next, v) == Physical(st, v))
  {
    var done := FulfillAsks(st, parcel.warehouse, parcel.asks, 0).state;
    var next := Record(done, order, parcel.asks);
    FulfillAsksEffect(st, parcel.warehouse, parcel.asks, 0);
    hide FulfillAsks;
    forall l: nat ensures OfLine(next, l) == OfLine(done, l)
                       && Live(next, l) == Live(st, l) + Asked(parcel.asks, 0, l)
    {
      ShippedUnits(parcel.asks, 0, l);
      SumEq(|st.fulfillments|, LiveIn(st, l), LiveIn(next, l));
    }
    forall s: nat ensures InStock(next, s) == InStock(done, s) {}
    forall v ensures Physical(next, v) == Physical(done, v) {}
  }

  lemma {:induction false} FulfillParcelsEffect(st: State, order: nat, parcels: seq<Parcel>, i: nat)
    requires i <= |parcels| && KnownParcels(st, parcels) && FulfillParcels(st, order, parcels, i).Ok?
    ensures var next := FulfillParcels(st, order, parcels, i).state;
            && SameShape(st, next)
            && |next.stocks| == |st.stocks| && next.rows.Keys == st.rows.Keys
            && (forall l: nat | l < |st.lines| ::
                 next.lines[l].fulfilled == st.lines[l].fulfilled + AskedAll(parcels, i, l))
            && (forall l: nat | l < |st.lines| :: OfLine(next, l)
                 == if Tracked(st, l) then Max(OfLine(st, l) - AskedAll(parcels, i, l), 0) else OfLine(st, l))
            && (forall l: nat :: Live(next, l) == Live(st, l) + AskedAll(parcels, i, l))
            && (NotOverAllocated(st) ==> NotOverAllocated(next))
            && (forall v | v in st.tracked :: Physical(next, v) == Physical(st, v))
    decreases |parcels| - i
  {
    hide OfLine, Live, Physical, NotOverAllocated, FulfillAsks, Record, Asked;
    if i < |parcels| {
      ParcelEffect(st, order, parcels[i]);
      var done := FulfillAsks(st, parcels[i].warehouse, parcels[i].asks, 0).state;
      FulfillParcelsEffect(Record(done, order, parcels[i].asks), order, parcels, i + 1);
    }
  }

  /** A request adds one live fulfillment per parcel, which belongs to the order and holds the asks. */
  lemma {:induction false} FulfillParcelsAdds(st: State, order: nat, parcels: seq<Parcel>, i: nat)
    requires i <= |parcels| && KnownParcels(st, parcels) && FulfillParcels(st, order, parcels, i).Ok?
    ensures var next, n := FulfillParcels(st, order, parcels, i).state, |st.fulfillments|;
            && |next.fulfillments| == n + |parcels| - i
            && next.fulfillments[..n] == st.fulfillments
            && forall j | i <= j < |parcels| ::
                 next.fulfillments[n + j - i] == Fulfillment(order, false, Shipped(parcels[j].asks, 0))
    decreases |parcels| - i
  {
    if i < |parcels| {
      ParcelEffect(st, order, parcels[i]);
      var noted := Record(FulfillAsks(st, parcels[i].warehouse, parcels[i].asks, 0).state, order, parcels[i].asks);
      var next, n := FulfillParcels(st, order, parcels, i).state, |st.fulfillments|;
      hide FulfillAsks, Record;
      FulfillParcelsAdds(noted, order, parcels, i + 1);
      assert next.fulfillments[..n] == next.fulfillments[..n + 1][..n];
      assert next.fulfillments[n] == next.fulfillments[..n + 1][n];
      forall j | i < j < |parcels|
        ensures next.fulfillments[n + j - i] == Fulfillment(order, false, Shipped(parcels[j].asks, 0))
      {
        assert n + j - i == n + 1 + j - (i + 1);
      }
    }
  }

  lemma {:induction false} FulfillParcelsNew(st: State, order: nat, parcels: seq<Parcel>)
    requires KnownParcels(st, parcels) && FulfillParcels(st, order, parcels, 0).Ok?
    ensures forall f | f in FulfillParcels(st, order, parcels, 0).state.fulfillments ::
              f in st.fulfillments
              || exists p | p in parcels :: f == Fulfillment(order, false, Shipped(p.asks, 0))
  {
    var next, n := FulfillParcels(st, order, parcels, 0).state, |st.fulfillments|;
    FulfillParcelsAdds(st, order, parcels, 0);
    hide FulfillParcels, Shipped;
    forall i | 0 <= i < |next.fulfillments|
      ensures var f := next.fulfillments[i];
              f in st.fulfillments || exists p | p in parcels :: f == Fulfillment(order, false, Shipped(p.asks, 0))
    {
      if i < n {
        assert next.fulfillments[i] == next.fulfillments[..n][i];
      } else {
        assert next.fulfillments[n + (i - n) - 0] == Fulfillment(order, false, Shipped(parcels[i - n].asks, 0));
      }
    }
  }

  lemma {:induction false} RestockEffect(st: State, warehouse: nat, lines: seq<FulfillmentLine>, i: nat)
    requires i <= |lines| && KnownFulfillmentLines(st, lines) && RowsKnown(st)
    ensures var next := Restock(st, warehouse, lines, i);
            && SameShape(st, next) && next.fulfillments == st.fulfillments && RowsKnown(next)
            && (forall l: nat | l < |st.lines| ::
                 next.lines[l].fulfilled == st.lines[l].fulfilled - Units(lines[i..], l))
            && (forall l: nat | l < |st.lines| :: OfLine(next, l)
                 == OfLine(st, l) + if Tracked(st, l) then Units(lines[i..], l) else 0)
            && (NotOverAllocated(st) ==> NotOverAllocated(next))
            && (forall v | v in st.tracked :: Physical(next, v) == Physical(st, v))
    decreases |lines| - i
  {
    hide RestockLine, OfLine, Physical, NotOverAllocated;
    if i < |lines| {
      RestockLineEffect(st, warehouse, lines[i]);
      forall v | v in st.tracked { RestockLineConserves(st, warehouse, lines[i], v); }
      assert lines[i..][1..] == lines[i + 1..];
      RestockEffect(RestockLine(st, warehouse, lines[i]), warehouse, lines, i + 1);
    }
  }
}
