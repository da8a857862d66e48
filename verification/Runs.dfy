/**
 Whole runs of the order lifecycle: what holds after any sequence of requests, and exactly which requests break
 the good order of the orders.
 */
module Runs {
  import opened Sums
  import opened Ledger
  import opened StockLaws
  import opened Shipping
  import opened Placing
  import opened Lifecycle
  import opened Fulfilling
  import opened Granting
  import opened Requests

  datatype Op =
    | PlaceOp(zone: set<nat>, items: seq<Item>)
    | FulfillOp(order: nat, input: seq<LineInput>)
    | CancelFulfillmentOp(fulfillment: nat, warehouse: nat)
    | CancelOrderOp(order: nat)

  function Committed(st: State, r: Result): State {
    match r
    case Ok(next) => next
    case Failed(_) => st
  }

  /** `can_edit`, for a fulfillment whose foreign keys resolve. */
  predicate CanEdit(st: State, f: nat) {
    && f < |st.fulfillments| && !st.fulfillments[f].canceled
    && st.fulfillments[f].order < |st.orders| && KnownFulfillmentLines(st, st.fulfillments[f].lines)
  }

  /** One request with the check its mutation makes first. A refused or failed one changes nothing. */
  function Step(st: State, op: Op): (next: State)
    ensures next.tracked == st.tracked
  {
    match op
    case PlaceOp(zone, items) => Committed(st, Place(st, zone, items))
    case FulfillOp(order, input) =>
      if order < |st.orders| && InputAccepted(st, input) then Committed(st, OrderFulfill(st, order, input)) else st
    case CancelFulfillmentOp(f, warehouse) =>
      if CanEdit(st, f) then CancelFulfillment(st, f, warehouse) else st
    case CancelOrderOp(order) =>
      if CanCancel(st, order) then CancelOrder(st, order) else st
  }

  function Run(st: State, ops: seq<Op>): (end: State)
    ensures end.tracked == st.tracked
  {
    if ops == [] then st else Step(Run(st, ops[..|ops| - 1]), ops[|ops| - 1])
  }

  /** The state in front of the k-th request of a run. */
  function Before(st: State, ops: seq<Op>, k: nat): State
    requires k <= |ops|
  {
    Run(st, ops[..k])
  }

  lemma {:induction false} RunOn(st: State, ops: seq<Op>, k: nat)
    requires k < |ops|
    ensures Before(st, ops, k + 1) == Step(Before(st, ops, k), ops[k])
  {
    assert ops[..k + 1][..k] == ops[..k];
  }

  // ----- what every run keeps -----

  lemma {:induction false} StepKeepsSafe(st: State, op: Op)
    requires Safe(st)
    ensures Safe(Step(st, op))
  {
    match op
    case PlaceOp(zone, items) =>
      if Place(st, zone, items).Ok? { PlaceKeepsSafe(st, zone, items); }
    case FulfillOp(order, input) =>
      if order < |st.orders| && InputAccepted(st, input) {
        GroupedAccepted(st, order, input);
        if OrderFulfill(st, order, input).Ok? { FulfillKeepsSafe(st, order, Grouped(input)); }
      }
    case CancelFulfillmentOp(f, warehouse) =>
      if CanEdit(st, f) { CancelFulfillmentKeepsSafe(st, f, warehouse); }
    case CancelOrderOp(order) =>
      if CanCancel(st, order) { CancelOrderKeepsSafe(st, order); }
  }

  /** The main safety theorem, for every run of any requests: no stock is over-allocated, keys stay sound and the
      fulfilled quantities are those of the live fulfillments. */
  lemma {:induction false} RunKeepsSafe(st: State, ops: seq<Op>)
    requires Safe(st)
    ensures Safe(Run(st, ops))
  {
    if ops != [] {
      RunKeepsSafe(st, ops[..|ops| - 1]);
      StepKeepsSafe(Run(st, ops[..|ops| - 1]), ops[|ops| - 1]);
    }
  }

  // ----- which requests put the orders in disorder -----

  /** A fulfillment request that goes through. */
  predicate Ships(st: State, op: Op) {
    && op.FulfillOp? && op.order < |st.orders| && InputAccepted(st, op.input)
    && OrderFulfill(st, op.order, op.input).Ok?
  }

  /** It ships a line of another order, more of a line than that lacks, or a cancelled order incompletely. */
  ghost predicate Breaks(st: State, op: Op) {
    Ships(st, op) && !Orderly(st, op.order, Grouped(op.input))
  }

  lemma {:induction false} StepExact(st: State, op: Op)
    requires Inv(st)
    ensures Inv(Step(st, op)) <==> !Breaks(st, op)
  {
    match op
    case PlaceOp(zone, items) =>
      if Place(st, zone, items).Ok? { PlaceKeeps(st, zone, items); }
    case FulfillOp(order, input) =>
      if order < |st.orders| && InputAccepted(st, input) {
        GroupedAccepted(st, order, input);
        if OrderFulfill(st, order, input).Ok? { FulfillExact(st, order, Grouped(input)); }
      }
    case CancelFulfillmentOp(f, warehouse) =>
      if CanEdit(st, f) { CancelFulfillmentKeeps(st, f, warehouse); }
    case CancelOrderOp(order) =>
      if CanCancel(st, order) { CancelOrderKeeps(st, order); }
  }

  ghost predicate NoneBreaks(st: State, ops: seq<Op>, n: nat)
    requires n <= |ops|
  {
    forall k: nat | k < n :: !Breaks(Before(st, ops, k), ops[k])
  }

  lemma {:induction false} InvUpTo(st: State, ops: seq<Op>, n: nat)
    requires Inv(st) && n <= |ops| && NoneBreaks(st, ops, n)
    ensures Inv(Before(st, ops, n))
  {
    if n > 0 {
      InvUpTo(st, ops, n - 1);
      RunOn(st, ops, n - 1);
      StepExact(Before(st, ops, n - 1), ops[n - 1]);
    }
  }

  /** Orders stay in good order throughout a run, every line promised and received what was ordered and every
      status current, exactly when none of its requests breaks them. */
  lemma {:induction false} RunKeepsInv(st: State, ops: seq<Op>)
    requires Inv(st)
    ensures (forall k: nat | k <= |ops| :: Inv(Before(st, ops, k))) <==> NoneBreaks(st, ops, |ops|)
  {
    if NoneBreaks(st, ops, |ops|) {
      forall k: nat | k <= |ops| ensures Inv(Before(st, ops, k)) { InvUpTo(st, ops, k); }
    } else {
      var k: nat :| k < |ops| && Breaks(Before(st, ops, k), ops[k]);
      RunOn(st, ops, k);
      if Inv(Before(st, ops, k)) { StepExact(Before(st, ops, k), ops[k]); }
    }
  }

  // ----- the fallback in decrease_stock -----

  /** A fulfillment request that passes the mutation's checks. */
  predicate Attempts(st: State, op: Op) {
    op.FulfillOp? && op.order < |st.orders| && InputAccepted(st, op.input)
  }

  /** The request enters the AllocationError handler, whether it goes through or fails later on. */
  ghost predicate FallsBack(st: State, op: Op) {
    Attempts(st, op) && KnownParcels(st, Grouped(op.input)) && !ParcelsReleased(st, op.order, Grouped(op.input), 0)
  }

  /** Some draw of the request asks for more of a tracked line than that was promised, and those in front of it go
      through. */
  ghost predicate Overreaches(st: State, op: Op) {
    && Attempts(st, op)
    && var draws := RequestDraws(Grouped(op.input));
       && KnownDraws(st, draws)
       && exists k: nat | k < |draws| :: Overdrawn(st, draws, k) && forall j: nat | j < k :: Fits(st, draws, j)
  }

  /** It ships tracked units that no stock has promised to their line. */
  ghost predicate Overdraws(st: State, op: Op) {
    && Ships(st, op)
    && exists l: nat | Tracked(st, l) :: AskedAll(Grouped(op.input), 0, l) > OfLine(st, l)
  }

  /** It ships tracked units of a cancelled order. */
  ghost predicate ShipsCanceled(st: State, op: Op) {
    && Ships(st, op) && IsCanceled(st, op.order)
    && exists l: nat | Tracked(st, l) && st.lines[l].order == op.order :: AskedAll(Grouped(op.input), 0, l) > 0
  }

  /** In any state, a request enters the handler exactly when it overreaches; one that goes through, exactly when it
      ships tracked units that were not promised. */
  lemma {:induction false} StepFallsBack(st: State, op: Op)
    ensures FallsBack(st, op) <==> Overreaches(st, op)
    ensures Ships(st, op) ==> (FallsBack(st, op) <==> Overdraws(st, op))
  {
    if Attempts(st, op) {
      GroupedAccepted(st, op.order, op.input);
      EntersHandlerIff(st, op.order, Grouped(op.input));
      ParcelsReleasedIff(st, op.order, Grouped(op.input), 0);
      hide InputAccepted, Grouped, RequestDraws, ParcelsReleased, Overdrawn, Fits, AskedAll, FulfillParcels, OfLine;
    }
  }

  /** Of the requests that go through and keep the orders in good order, those that complete a cancelled order enter
      the handler and no others. */
  lemma {:induction false} CleanStepFallsBack(st: State, op: Op)
    requires Inv(st) && Ships(st, op) && !Breaks(st, op)
    ensures FallsBack(st, op) <==> ShipsCanceled(st, op)
  {
    var parcels := Grouped(op.input);
    GroupedAccepted(st, op.order, op.input);
    FallbackExact(st, op.order, parcels);
    hide Inv, InputAccepted, Grouped, AskedAll, ParcelsReleased, FulfillParcels;
    assert FallsBack(st, op) <==> !AsksPromised(st, parcels);
    forall l: nat | Tracked(st, l)
      ensures AskedAll(parcels, 0, l) > 0 ==> st.lines[l].order == op.order && AskedAll(parcels, 0, l) <= Lacks(st, l)
    {
      assert OrderlyLine(st, op.order, parcels, l);
    }
  }

  /** Along every run that keeps the orders in good order, of the requests that go through exactly those that complete
      a cancelled order enter the AllocationError handler. */
  lemma {:induction false} RunFallsBack(st: State, ops: seq<Op>, k: nat)
    requires Inv(st) && NoneBreaks(st, ops, |ops|) && k < |ops| && Ships(Before(st, ops, k), ops[k])
    ensures FallsBack(Before(st, ops, k), ops[k]) <==> ShipsCanceled(Before(st, ops, k), ops[k])
  {
    InvUpTo(st, ops, k);
    CleanStepFallsBack(Before(st, ops, k), ops[k]);
  }

  // ----- requests that a caller can tell to be harmless -----

  /** Fulfillment requests name an order that is not cancelled, lines of that order, and no negative quantity. */
  predicate Proper(st: State, op: Op) {
    op.FulfillOp? ==>
      && !IsCanceled(st, op.order)
      && forall i | 0 <= i < |op.input| ::
           && op.input[i].line < |st.lines| && st.lines[op.input[i].line].order == op.order
           && forall j | 0 <= j < |op.input[i].stocks| :: op.input[i].stocks[j].quantity >= 0
  }

  /** A proper request, granted or refused, leaves the orders in good order and stays clear of the handler. */
  lemma {:induction false} ProperStep(st: State, op: Op)
    requires Inv(st) && Proper(st, op)
    ensures !Breaks(st, op) && !FallsBack(st, op)
  {
    if Attempts(st, op) {
      var parcels := Grouped(op.input);
      GroupedAccepted(st, op.order, op.input);
      forall l: nat | l < |st.lines|
        ensures 0 <= AskedAll(parcels, 0, l) <= Lacks(st, l)
        ensures st.lines[l].order != op.order ==> AskedAll(parcels, 0, l) == 0
      {
        assert LineCovered(st, l);
        GroupedAsked(op.input, |op.input|, l);
        InputAskedOnce(op.input, |op.input|, l);
        if AskedAll(parcels, 0, l) > Lacks(st, l) { OverAskNeedsNegative(st, op.input, l); }
      }
      hide Grouped, AskedAll, InputAccepted, Covered, Safe;
      assert Orderly(st, op.order, parcels);
      FallbackExact(st, op.order, parcels);
    }
  }

  /** Over every run of proper requests, granted or refused, the orders stay in good order and the AllocationError
      handler is never entered. */
  lemma {:induction false} ProperRun(st: State, ops: seq<Op>, n: nat)
    requires Inv(st) && n <= |ops| && forall k: nat | k < |ops| :: Proper(Before(st, ops, k), ops[k])
    ensures forall k: nat | k <= n :: Inv(Before(st, ops, k))
    ensures forall k: nat | k < n :: !FallsBack(Before(st, ops, k), ops[k])
  {
    hide Inv, Proper, FallsBack, Breaks, Step;
    if n > 0 {
      ProperRun(st, ops, n - 1);
      ProperStep(Before(st, ops, n - 1), ops[n - 1]);
      RunOn(st, ops, n - 1);
      StepExact(Before(st, ops, n - 1), ops[n - 1]);
    }
  }

  // ----- conservation -----

  lemma {:induction false} RestockConserves(st: State, warehouse: nat, lines: seq<FulfillmentLine>, i: nat, v: nat)
    requires i <= |lines| && KnownFulfillmentLines(st, lines) && v in st.tracked
    ensures Physical(Restock(st, warehouse, lines, i), v) == Physical(st, v)
    decreases |lines| - i
  {
    if i < |lines| {
      RestockLineConserves(st, warehouse, lines[i], v);
      RestockConserves(RestockLine(st, warehouse, lines[i]), warehouse, lines, i + 1, v);
    }
  }

  lemma {:induction false} SamePhysical(st: State, next: State, v: nat)
    requires next.stocks == st.stocks && next.lines == st.lines
    ensures Physical(next, v) == Physical(st, v)
  {
  }

  lemma {:induction false} StepConserves(st: State, op: Op, v: nat)
    requires v in st.tracked
    ensures Physical(Step(st, op), v) == Physical(st, v)
  {
    match op
    case PlaceOp(zone, items) =>
      if Place(st, zone, items).Ok? {
        var added := AddOrder(st, items);
        AllocateLinesEffect(added, zone, |st.lines|);
        SumTail(|st.lines|, |added.lines|, Delivered(added, v));
        SumEq(|st.lines|, Delivered(st, v), Delivered(added, v));
        SumEq(|st.stocks|, Held(st, v), Held(added, v));
        SamePhysical(added, Step(st, op), v);
      }
    case FulfillOp(order, input) =>
      if Ships(st, op) {
        var parcels := Grouped(input);
        GroupedAccepted(st, order, input);
        FulfillParcelsEffect(st, order, parcels, 0);
        SamePhysical(FulfillParcels(st, order, parcels, 0).state, Step(st, op), v);
      }
    case CancelFulfillmentOp(f, warehouse) =>
      if CanEdit(st, f) {
        RestockConserves(st, warehouse, st.fulfillments[f].lines, 0, v);
        SamePhysical(Restock(st, warehouse, st.fulfillments[f].lines, 0), Step(st, op), v);
      }
    case CancelOrderOp(order) =>
      if CanCancel(st, order) { SamePhysical(st, Step(st, op), v); }
  }

  /** Physical conservation, over every run of any requests from any state: units of a tracked variant on the
      shelves plus units shipped never change. */
  lemma {:induction false} RunConserves(st: State, ops: seq<Op>, v: nat)
    requires v in st.tracked
    ensures Physical(Run(st, ops), v) == Physical(st, v)
  {
    if ops != [] {
      RunConserves(st, ops[..|ops| - 1], v);
      StepConserves(Run(st, ops[..|ops| - 1]), ops[|ops| - 1], v);
    }
  }

  /** An order that can be cancelled has shipped nothing, and all its tracked units are still promised. */
  lemma {:induction false} CancellableUnshipped(st: State, order: nat, l: nat)
    requires Inv(st) && CanCancel(st, order) && l in LinesOf(st, order)
    ensures st.lines[l].fulfilled == 0
    ensures Tracked(st, l) ==> OfLine(st, l) == st.lines[l].quantity
  {
    NothingLive(st, l);
    assert LineCovered(st, l);
  }

  // ----- status -----

  lemma {:induction false} FulfilledBounds(st: State, l: nat)
    requires Inv(st) && l < |st.lines|
    ensures 0 <= st.lines[l].fulfilled <= st.lines[l].quantity
  {
    assert LineCovered(st, l);
    SumNonNegative(|st.fulfillments|, LiveIn(st, l));
  }

  /** How the two sums behind the status compare, in terms of single lines. */
  lemma {:induction false} SumsPerLine(st: State, order: nat)
    requires forall l: nat | l < |st.lines| :: 0 <= st.lines[l].fulfilled <= st.lines[l].quantity
    ensures var done, all := Sum(|st.lines|, FulfilledOf(st, order)), Sum(|st.lines|, QuantityOf(st, order));
            && 0 <= done <= all
            && (done == 0 <==> forall l | l in LinesOf(st, order) :: st.lines[l].fulfilled == 0)
            && (done == all <==> forall l | l in LinesOf(st, order) :: st.lines[l].fulfilled == st.lines[l].quantity)
            && (all == 0 <==> LinesOf(st, order) == {})
  {
    var n, done, all, zero := |st.lines|, FulfilledOf(st, order), QuantityOf(st, order), (l: nat) => 0;
    SumTail(0, n, zero);
    SumLe(n, zero, done);
    SumLe(n, done, all);
    if l :| l in LinesOf(st, order) && st.lines[l].fulfilled > 0 {
      SumLt(n, zero, done, l);
    } else {
      SumEq(n, zero, done);
    }
    if l :| l in LinesOf(st, order) && st.lines[l].fulfilled < st.lines[l].quantity {
      SumLt(n, done, all, l);
    } else {
      SumEq(n, done, all);
    }
    if l :| l in LinesOf(st, order) { SumLt(n, zero, all, l); } else { SumEq(n, zero, all); }
  }

  /** An open order with at least one line says FULFILLED, UNFULFILLED or PARTIALLY_FULFILLED exactly as its
      lines, one by one, do; an order without lines says UNFULFILLED. */
  lemma {:induction false} StatusPerLine(st: State, order: nat)
    requires Inv(st) && order < |st.orders| && st.orders[order] != Canceled
    ensures LinesOf(st, order) == {} ==> st.orders[order] == Unfulfilled
    ensures LinesOf(st, order) != {} ==>
              && (st.orders[order] == Fulfilled
                  <==> forall l | l in LinesOf(st, order) :: st.lines[l].fulfilled == st.lines[l].quantity)
              && (st.orders[order] == Unfulfilled
                  <==> forall l | l in LinesOf(st, order) :: st.lines[l].fulfilled == 0)
              && (st.orders[order] == PartiallyFulfilled
                  <==> (exists l | l in LinesOf(st, order) :: st.lines[l].fulfilled < st.lines[l].quantity)
                       && (exists l | l in LinesOf(st, order) :: st.lines[l].fulfilled > 0))
  {
    forall l: nat | l < |st.lines| ensures 0 <= st.lines[l].fulfilled <= st.lines[l].quantity {
      FulfilledBounds(st, l);
    }
    assert st.orders[order] == StatusOf(st, order);
    hide Inv, Sum;
    SumsPerLine(st, order);
  }
}
