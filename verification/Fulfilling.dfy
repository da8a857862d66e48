/**
 Fulfilling an order. What every accepted request keeps, exactly which ones leave the orders in good order, and
 exactly which of those that go through take the fallback of `decrease_stock`.
 */
module Fulfilling {
  import opened Sums
  import opened Ledger
  import opened StockLaws
  import opened Shipping
  import opened Lifecycle

  predicate DistinctLines(asks: seq<Ask>) {
    forall i, j | 0 <= i < j < |asks| :: asks[i].line != asks[j].line
  }

  /** What the mutation in front of `create_fulfillments` makes sure of: there is something to ship, the lines
      exist, and no warehouse ships a line twice. Neither the order the lines belong to nor the quantity they
      still lack is part of it. */
  predicate Accepted(st: State, order: nat, parcels: seq<Parcel>) {
    && order < |st.orders| && parcels != [] && KnownParcels(st, parcels)
    && forall p | p in parcels :: DistinctLines(p.asks)
  }

  function Lacks(st: State, l: nat): int
    requires l < |st.lines|
  {
    st.lines[l].quantity - st.lines[l].fulfilled
  }

  // ----- what every accepted request keeps -----

  lemma {:induction false} ShippedGood(st: State, order: nat, asks: seq<Ask>, i: nat)
    requires i <= |asks| && DistinctLines(asks) && KnownLines(st, asks)
    ensures GoodShipment(st, Fulfillment(order, false, Shipped(asks, i)))
    ensures forall fl | fl in Shipped(asks, i) :: exists j | i <= j < |asks| :: asks[j].line == fl.line
    decreases |asks| - i
  {
    if i < |asks| { ShippedGood(st, order, asks, i + 1); }
  }

  lemma {:induction false} FulfillKeepsSound(st: State, order: nat, parcels: seq<Parcel>)
    requires Sound(st) && Accepted(st, order, parcels) && CreateFulfillments(st, order, parcels).Ok?
    ensures Sound(CreateFulfillments(st, order, parcels).state)
  {
    var next := CreateFulfillments(st, order, parcels).state;
    FulfillParcelsEffect(st, order, parcels, 0);
    FulfillParcelsNew(st, order, parcels);
    forall p | p in parcels ensures GoodShipment(st, Fulfillment(order, false, Shipped(p.asks, 0))) {
      ShippedGood(st, order, p.asks, 0);
    }
    KeysKept(st, next);
    hide FulfillParcels, OfLine, NotOverAllocated, Live, Physical, AskedAll, StatusOf, Shipped, KeysSound;
    forall f | f in next.fulfillments ensures f.order < |next.orders| && GoodShipment(next, f) {
      assert GoodShipment(st, f);
    }
  }

  /** The new status does not touch any sum. */
  lemma {:induction false} StatusFrame(mid: State, order: nat)
    requires order < |mid.orders|
    ensures var next := UpdateStatus(mid, order);
            && (forall l: nat :: OfLine(next, l) == OfLine(mid, l) && Live(next, l) == Live(mid, l))
            && (forall s: nat :: InStock(next, s) == InStock(mid, s))
            && (forall v :: Physical(next, v) == Physical(mid, v))
  {
    var next := UpdateStatus(mid, order);
    forall l: nat ensures Live(next, l) == Live(mid, l) {
      SumEq(|mid.fulfillments|, LiveIn(mid, l), LiveIn(next, l));
    }
  }

  /** Every accepted request, whatever lines it names and however much it asks for, leaves keys sound, no stock
      over-allocated and fulfilled quantities equal to live units. */
  lemma {:induction false} FulfillKeepsSafe(st: State, order: nat, parcels: seq<Parcel>)
    requires Safe(st) && Accepted(st, order, parcels) && CreateFulfillments(st, order, parcels).Ok?
    ensures Safe(CreateFulfillments(st, order, parcels).state)
  {
    var mid := FulfillParcels(st, order, parcels, 0).state;
    FulfillKeepsSound(st, order, parcels);
    FulfillParcelsEffect(st, order, parcels, 0);
    StatusFrame(mid, order);
    hide FulfillParcels, OfLine, Live, Physical, AskedAll, StatusOf, InStock, Sound;
  }

  // ----- which requests keep the orders in good order -----

  /** A line of another order is not asked for, no line for more than it lacks, and the tracked lines of a
      cancelled order for all of it. */
  ghost predicate OrderlyLine(st: State, order: nat, parcels: seq<Parcel>, l: nat)
    requires l < |st.lines|
  {
    var asked := AskedAll(parcels, 0, l);
    && (st.lines[l].order != order ==> asked == 0)
    && asked <= Lacks(st, l)
    && (st.lines[l].order == order && IsCanceled(st, order) && Tracked(st, l) ==> asked == Lacks(st, l))
  }

  ghost predicate Orderly(st: State, order: nat, parcels: seq<Parcel>) {
    forall l: nat | l < |st.lines| :: OrderlyLine(st, order, parcels, l)
  }

  /** A line is among the shipped ones exactly when units of it are asked for. */
  lemma {:induction false} ShippedAsked(asks: seq<Ask>, i: nat, line: nat)
    requires i <= |asks|
    ensures Asked(asks, i, line) > 0 <==> exists fl | fl in Shipped(asks, i) :: fl.line == line
    decreases |asks| - i
  {
    if i < |asks| {
      ShippedAsked(asks, i + 1, line);
      if asks[i].quantity > 0 {
        var first, rest := FulfillmentLine(asks[i].line, asks[i].quantity), Shipped(asks, i + 1);
        assert forall fl :: fl in Shipped(asks, i) <==> fl == first || fl in rest;
      }
    }
  }

  lemma {:induction false} AskedSomewhere(parcels: seq<Parcel>, i: nat, line: nat)
    requires i <= |parcels|
    ensures AskedAll(parcels, i, line) > 0
       <==> exists j | i <= j < |parcels| :: Asked(parcels[j].asks, 0, line) > 0
    decreases |parcels| - i
  {
    if i < |parcels| { AskedSomewhere(parcels, i + 1, line); }
  }

  lemma {:induction false} ShippedKnown(st: State, asks: seq<Ask>, i: nat)
    requires i <= |asks| && KnownLines(st, asks)
    ensures KnownFulfillmentLines(st, Shipped(asks, i))
    decreases |asks| - i
  {
    if i < |asks| { ShippedKnown(st, asks, i + 1); }
  }

  lemma {:induction false} OwnShipment(st: State, order: nat, asks: seq<Ask>)
    requires KnownLines(st, asks)
    ensures OwnLines(st, Fulfillment(order, false, Shipped(asks, 0)))
       <==> forall l: nat | l < |st.lines| && st.lines[l].order != order :: Asked(asks, 0, l) == 0
  {
    var f := Fulfillment(order, false, Shipped(asks, 0));
    ShippedKnown(st, asks, 0);
    forall l: nat { ShippedAsked(asks, 0, l); }
    if fl :| fl in f.lines && st.lines[fl.line].order != order { assert Asked(asks, 0, fl.line) > 0; }
  }

  /** Afterwards fulfillments hold lines of their own orders exactly when no foreign line was asked for. */
  lemma {:induction false} FulfillOwnedIff(st: State, order: nat, parcels: seq<Parcel>)
    requires Owned(st) && Accepted(st, order, parcels) && CreateFulfillments(st, order, parcels).Ok?
    ensures Owned(CreateFulfillments(st, order, parcels).state)
       <==> forall l: nat | l < |st.lines| && st.lines[l].order != order :: AskedAll(parcels, 0, l) == 0
  {
    var next, n := CreateFulfillments(st, order, parcels).state, |st.fulfillments|;
    FulfillParcelsEffect(st, order, parcels, 0);
    FulfillParcelsAdds(st, order, parcels, 0);
    FulfillParcelsNew(st, order, parcels);
    forall l: nat { AskedSomewhere(parcels, 0, l); }
    forall p | p in parcels { OwnShipment(st, order, p.asks); }
    hide FulfillParcels, OfLine, NotOverAllocated, Live, Physical, AskedAll, Asked, StatusOf, Shipped;
    assert forall f :: OwnLines(next, f) <==> OwnLines(st, f);
    if Owned(next) {
      forall j | 0 <= j < |parcels|
        ensures OwnLines(st, Fulfillment(order, false, Shipped(parcels[j].asks, 0)))
      {
        assert next.fulfillments[n + j - 0] in next.fulfillments;
      }
    }
  }

  /** What a request makes of one line. */
  lemma {:induction false} FulfilledLine(st: State, order: nat, parcels: seq<Parcel>, l: nat)
    requires Accepted(st, order, parcels) && CreateFulfillments(st, order, parcels).Ok? && l < |st.lines|
    ensures var next, asked := CreateFulfillments(st, order, parcels).state, AskedAll(parcels, 0, l);
            && l < |next.lines| && next.tracked == st.tracked
            && next.lines[l] == st.lines[l].(fulfilled := st.lines[l].fulfilled + asked)
            && OfLine(next, l) == (if Tracked(st, l) then Max(OfLine(st, l) - asked, 0) else OfLine(st, l))
            && forall o: nat :: IsCanceled(next, o) <==> o != order && IsCanceled(st, o)
  {
    FulfillParcelsEffect(st, order, parcels, 0);
    StatusFrame(FulfillParcels(st, order, parcels, 0).state, order);
    hide FulfillParcels, AskedAll, Live, Physical, NotOverAllocated, InStock, OfLine, FulfilledOf, QuantityOf;
  }

  /** A line stays covered exactly when it was not asked for more than it lacks and, on a cancelled order, if it
      is tracked, for all of it. Lines of other orders are no exception. */
  lemma {:induction false} FulfillCoversLine(st: State, order: nat, parcels: seq<Parcel>, l: nat)
    requires Inv(st) && Accepted(st, order, parcels) && CreateFulfillments(st, order, parcels).Ok?
    requires l < |st.lines|
    ensures var asked := AskedAll(parcels, 0, l);
            LineCovered(CreateFulfillments(st, order, parcels).state, l)
            <==> asked <= Lacks(st, l)
                 && (st.lines[l].order == order && IsCanceled(st, order) && Tracked(st, l) ==> asked == Lacks(st, l))
  {
    hide FulfillParcels, AskedAll, Live, Physical, NotOverAllocated, InStock, OfLine, Sum, Safe, Owned, Accepted;
    assert LineCovered(st, l);
    hide Inv;
    FulfilledLine(st, order, parcels, l);
  }

  lemma {:induction false} FulfillKeepsIdle(st: State, order: nat, parcels: seq<Parcel>)
    requires Safe(st) && CanceledIdle(st) && Accepted(st, order, parcels)
    requires CreateFulfillments(st, order, parcels).Ok?
    ensures CanceledIdle(CreateFulfillments(st, order, parcels).state)
    ensures !IsCanceled(CreateFulfillments(st, order, parcels).state, order)
  {
    FulfillParcelsEffect(st, order, parcels, 0);
    FulfillParcelsNew(st, order, parcels);
    hide FulfillParcels, OfLine, NotOverAllocated, Live, Physical, AskedAll, FulfilledOf, QuantityOf, Shipped;
  }

  lemma {:induction false} FulfillKeepsStatus(st: State, order: nat, parcels: seq<Parcel>)
    requires StatusCurrent(st) && Accepted(st, order, parcels) && CreateFulfillments(st, order, parcels).Ok?
    requires Orderly(st, order, parcels)
    ensures StatusCurrent(CreateFulfillments(st, order, parcels).state)
  {
    var mid := FulfillParcels(st, order, parcels, 0).state;
    FulfillParcelsEffect(st, order, parcels, 0);
    hide FulfillParcels, OfLine, NotOverAllocated, Live, Physical, AskedAll, StatusOf;
    forall l: nat | l < |st.lines| && st.lines[l].order != order ensures mid.lines[l] == st.lines[l] {
      assert OrderlyLine(st, order, parcels, l);
    }
    StatusAfter(st, mid, order);
  }

  /** The missing guards, exactly: an accepted request that goes through keeps the orders in good order if and
      only if it asks for no line of another order, for no more than a line lacks, and for all of the tracked
      lines when the order is cancelled. */
  lemma {:induction false} FulfillExact(st: State, order: nat, parcels: seq<Parcel>)
    requires Inv(st) && Accepted(st, order, parcels) && CreateFulfillments(st, order, parcels).Ok?
    ensures Inv(CreateFulfillments(st, order, parcels).state) <==> Orderly(st, order, parcels)
  {
    var next := CreateFulfillments(st, order, parcels).state;
    FulfillKeepsSafe(st, order, parcels);
    FulfillKeepsIdle(st, order, parcels);
    FulfillOwnedIff(st, order, parcels);
    FulfillParcelsEffect(st, order, parcels, 0);
    hide CreateFulfillments, OfLine, NotOverAllocated, Live, Physical, AskedAll, Safe, Owned, LineCovered;
    forall l: nat | l < |st.lines|
      ensures OrderlyLine(st, order, parcels, l)
         <==> LineCovered(next, l) && (st.lines[l].order != order ==> AskedAll(parcels, 0, l) == 0)
    {
      FulfillCoversLine(st, order, parcels, l);
    }
    assert Orderly(st, order, parcels) <==> Covered(next) && Owned(next);
    if Orderly(st, order, parcels) { FulfillKeepsStatus(st, order, parcels); }
  }

  /** Whatever is shipped for one order, every other order keeps its status and stays as cancellable as it was:
      the shipped lines of another order do not show there. */
  lemma {:induction false} ForeignUnseen(st: State, order: nat, parcels: seq<Parcel>, other: nat)
    requires Accepted(st, order, parcels) && CreateFulfillments(st, order, parcels).Ok?
    requires other < |st.orders| && other != order
    ensures var next := CreateFulfillments(st, order, parcels).state;
            && next.orders[other] == st.orders[other]
            && (CanCancel(next, other) <==> CanCancel(st, other))
            && forall l: nat | l < |st.lines| ::
                 next.lines[l].fulfilled == st.lines[l].fulfilled + AskedAll(parcels, 0, l)
  {
    var next, n := CreateFulfillments(st, order, parcels).state, |st.fulfillments|;
    FulfillParcelsEffect(st, order, parcels, 0);
    FulfillParcelsNew(st, order, parcels);
    FulfillParcelsAdds(st, order, parcels, 0);
    hide FulfillParcels, OfLine, NotOverAllocated, Live, Physical, AskedAll, StatusOf, Shipped;
    forall f | f in st.fulfillments ensures f in next.fulfillments { assert f in next.fulfillments[..n]; }
  }

  // ----- the fallback in decrease_stock -----

  /** Along these asks `deallocate_stock` always finds enough, so the handler that empties the line's
      allocations instead is not entered. */
  ghost predicate AsksReleased(st: State, warehouse: nat, asks: seq<Ask>, i: nat)
    requires i <= |asks| && KnownLines(st, asks)
    decreases |asks| - i
  {
    if i == |asks| then true
    else if asks[i].quantity <= 0 then AsksReleased(st, warehouse, asks, i + 1)
    else if FindStock(st.stocks, warehouse, st.lines[asks[i].line].variant).None? then true
    else
      && (Tracked(st, asks[i].line) ==> Deallocate(st, asks[i].line, asks[i].quantity).Ok?)
      && (var r := FulfillLine(st, asks[i].line, asks[i].quantity, warehouse);
          r.Ok? ==> AsksReleased(r.state, warehouse, asks, i + 1))
  }

  ghost predicate ParcelsReleased(st: State, order: nat, parcels: seq<Parcel>, i: nat)
    requires i <= |parcels| && KnownParcels(st, parcels)
    decreases |parcels| - i
  {
    if i == |parcels| then true
    else
      && AsksReleased(st, parcels[i].warehouse, parcels[i].asks, 0)
      && (var r := FulfillAsks(st, parcels[i].warehouse, parcels[i].asks, 0);
          r.Ok? ==> ParcelsReleased(Record(r.state, order, parcels[i].asks), order, parcels, i + 1))
  }

  lemma {:induction false} AsksReleasedIff(st: State, warehouse: nat, asks: seq<Ask>, i: nat)
    requires i <= |asks| && KnownLines(st, asks)
    ensures (forall l: nat | Tracked(st, l) :: Asked(asks, i, l) <= OfLine(st, l))
            ==> AsksReleased(st, warehouse, asks, i)
    ensures FulfillAsks(st, warehouse, asks, i).Ok? && AsksReleased(st, warehouse, asks, i)
            ==> forall l: nat | Tracked(st, l) :: Asked(asks, i, l) <= OfLine(st, l)
    decreases |asks| - i
  {
    if i < |asks| {
      var line, q := asks[i].line, asks[i].quantity;
      if q <= 0 {
        AsksReleasedIff(st, warehouse, asks, i + 1);
      } else if FulfillLine(st, line, q, warehouse).Ok? {
        FulfillLineEffect(st, line, q, warehouse);
        hide FulfillLine, OfLine, NotOverAllocated;
        AsksReleasedIff(FulfillLine(st, line, q, warehouse).state, warehouse, asks, i + 1);
      }
    }
  }

  lemma {:induction false} ParcelsReleasedIff(st: State, order: nat, parcels: seq<Parcel>, i: nat)
    requires i <= |parcels| && KnownParcels(st, parcels)
    ensures (forall l: nat | Tracked(st, l) :: AskedAll(parcels, i, l) <= OfLine(st, l))
            ==> ParcelsReleased(st, order, parcels, i)
    ensures FulfillParcels(st, order, parcels, i).Ok? && ParcelsReleased(st, order, parcels, i)
            ==> forall l: nat | Tracked(st, l) :: AskedAll(parcels, i, l) <= OfLine(st, l)
    decreases |parcels| - i
  {
    hide OfLine, NotOverAllocated, FulfillAsks, Record, Asked, AsksReleased, Live, Physical;
    if i < |parcels| {
      AsksReleasedIff(st, parcels[i].warehouse, parcels[i].asks, 0);
      var r := FulfillAsks(st, parcels[i].warehouse, parcels[i].asks, 0);
      if r.Ok? {
        ParcelEffect(st, order, parcels[i]);
        ParcelsReleasedIff(Record(r.state, order, parcels[i].asks), order, parcels, i + 1);
      }
    }
  }

  /** In terms a caller can check: no tracked line is asked for more than it lacks, and none of a cancelled order
      is asked for at all. */
  ghost predicate AsksPromised(st: State, parcels: seq<Parcel>) {
    forall l: nat | Tracked(st, l) && AskedAll(parcels, 0, l) > 0 ::
      !IsCanceled(st, st.lines[l].order) && AskedAll(parcels, 0, l) <= Lacks(st, l)
  }

  /** The AllocationError handler, exactly. From orders in good order, a request that goes through enters it if
      and only if it ships a tracked line of a cancelled order or more of a tracked line than that lacks; one
      that asks for neither does not enter it even when it fails later on. */
  lemma {:induction false} FallbackExact(st: State, order: nat, parcels: seq<Parcel>)
    requires Inv(st) && KnownParcels(st, parcels)
    ensures AsksPromised(st, parcels) ==> ParcelsReleased(st, order, parcels, 0)
    ensures FulfillParcels(st, order, parcels, 0).Ok?
            ==> (ParcelsReleased(st, order, parcels, 0) <==> AsksPromised(st, parcels))
  {
    ParcelsReleasedIff(st, order, parcels, 0);
    hide FulfillParcels, ParcelsReleased, AskedAll, NotOverAllocated, Accounted;
    forall l: nat | Tracked(st, l)
      ensures AskedAll(parcels, 0, l) <= OfLine(st, l)
         <==> AskedAll(parcels, 0, l) > 0
              ==> !IsCanceled(st, st.lines[l].order) && AskedAll(parcels, 0, l) <= Lacks(st, l)
    {
      assert LineCovered(st, l);
    }
  }
}
