/**
 A fulfillment request as a sequence of draws, each of one line from one warehouse: exactly when the request goes
 through, and exactly when it enters the AllocationError handler, in terms of the state it starts from.
 */
module Granting {
  import opened Sums
  import opened Ledger
  import opened StockLaws
  import opened Shipping
  import opened Fulfilling

  datatype Draw = Draw(warehouse: nat, line: nat, quantity: int)

  predicate KnownDraws(st: State, draws: seq<Draw>) {
    forall k | 0 <= k < |draws| :: draws[k].line < |st.lines|
  }

  /** The stock a draw is made on. */
  function Target(st: State, d: Draw): Option<nat>
    requires d.line < |st.lines|
  {
    FindStock(st.stocks, d.warehouse, st.lines[d.line].variant)
  }

  function DrawOne(st: State, d: Draw): (r: Result)
    requires d.line < |st.lines|
    ensures r.Ok? ==> |r.state.lines| == |st.lines|
  {
    if d.quantity <= 0 then Ok(st)
    else if Target(st, d).None? then Failed(InsufficientStock)
    else FulfillLine(st, d.line, d.quantity, d.warehouse)
  }

  /** The first n draws, in order. */
  function DrawFirst(st: State, draws: seq<Draw>, n: nat): (r: Result)
    requires n <= |draws| && KnownDraws(st, draws)
    ensures r.Ok? ==> |r.state.lines| == |st.lines|
  {
    if n == 0 then Ok(st)
    else
      match DrawFirst(st, draws, n - 1)
      case Failed(e) => Failed(e)
      case Ok(mid) => DrawOne(mid, draws[n - 1])
  }

  // ----- what the first draws amount to -----

  /** Units of a line in the first n draws. */
  function DrawnLine(draws: seq<Draw>, n: nat, l: nat): nat
    requires n <= |draws|
  {
    if n == 0 then 0
    else
      var d := draws[n - 1];
      DrawnLine(draws, n - 1, l) + if d.line == l && d.quantity > 0 then d.quantity else 0
  }

  /** Units the first n draws take out of a stock. */
  function DrawnStock(st: State, draws: seq<Draw>, n: nat, s: nat): nat
    requires n <= |draws| && KnownDraws(st, draws)
  {
    if n == 0 then 0
    else
      var d := draws[n - 1];
      DrawnStock(st, draws, n - 1, s)
      + if d.quantity > 0 && Tracked(st, d.line) && Target(st, d) == Some(s) then d.quantity else 0
  }

  /** An allocation row of a line once a units of it have been released, in one go or in several. */
  function RowAfter(st: State, l: nat, s: nat, a: nat): int {
    if a <= OfLine(st, l) then At(st.rows, l, s) - Pour(LineRow(st.rows, l), a, s) else 0
  }

  /** What a stock still owes the lines after the first n draws. */
  function Owed(st: State, draws: seq<Draw>, n: nat, s: nat): nat -> int
    requires n <= |draws|
  {
    (l: nat) => if Tracked(st, l) then RowAfter(st, l, s, DrawnLine(draws, n, l)) else At(st.rows, l, s)
  }

  /** Draw k finds a stock in its warehouse which, with that and the earlier draws taken out, still holds what it
      owes. */
  ghost predicate Fits(st: State, draws: seq<Draw>, k: nat)
    requires k < |draws| && KnownDraws(st, draws)
  {
    var d := draws[k];
    d.quantity > 0 ==>
      match Target(st, d)
      case None => false
      case Some(s) =>
        Tracked(st, d.line) ==>
          DrawnStock(st, draws, k + 1, s) + Sum(|st.lines|, Owed(st, draws, k + 1, s)) <= st.stocks[s].quantity
  }

  /** Draw k finds a stock, and with the earlier draws asks for more of its line than the line was promised. */
  ghost predicate Overdrawn(st: State, draws: seq<Draw>, k: nat)
    requires k < |draws| && KnownDraws(st, draws)
  {
    var d := draws[k];
    && d.quantity > 0 && Target(st, d).Some? && Tracked(st, d.line)
    && DrawnLine(draws, k + 1, d.line) > OfLine(st, d.line)
  }

  /** `deallocate_stock` finds enough, if the draw gets that far. */
  predicate DrawReleased(cur: State, d: Draw)
    requires d.line < |cur.lines|
  {
    d.quantity > 0 && Target(cur, d).Some? && Tracked(cur, d.line) ==> Deallocate(cur, d.line, d.quantity).Ok?
  }

  // ----- releasing several times -----

  lemma {:induction false} SumLess(n: nat, f: nat -> int, g: nat -> int, a: int)
    requires forall i: nat | i < n :: f(i) >= 0 && g(i) == f(i) - Pour(f, a, i)
    ensures Sum(n, g) == Sum(n, f) - Gathered(n, f, a)
  {
    PourTotal(n, f, a);
    SumPlus(n, g, Poured(f, a), f);
  }

  /** Pouring a and then q from what is left is pouring a + q. */
  lemma {:induction false} PourTwice(n: nat, f: nat -> int, g: nat -> int, a: nat, q: nat, i: nat)
    requires i < n && forall j: nat | j < n :: f(j) >= 0 && g(j) == f(j) - Pour(f, a, j)
    ensures Pour(f, a, i) + Pour(g, q, i) == Pour(f, a + q, i)
  {
    SumLess(i, f, g, a);
    SumNonNegative(i, f);
  }

  lemma {:induction false} ReleaseAgain(st: State, cur: State, l: nat, a: nat, q: pos)
    requires l < |cur.lines| && |cur.stocks| == |st.stocks|
    requires forall s: nat | s < |st.stocks| :: At(cur.rows, l, s) == RowAfter(st, l, s, a)
    ensures Deallocate(cur, l, q).Ok? <==> a + q <= OfLine(st, l)
    ensures forall s: nat | s < |st.stocks| :: At(Release(cur, l, q).rows, l, s) == RowAfter(st, l, s, a + q)
  {
    var n, row, left := |st.stocks|, LineRow(st.rows, l), LineRow(cur.rows, l);
    ReleaseRows(cur, l, q);
    if a <= OfLine(st, l) {
      SumLess(n, row, left, a);
      forall s: nat | s < n ensures Pour(row, a, s) + Pour(left, q, s) == Pour(row, a + q, s) {
        PourTwice(n, row, left, a, q, s);
      }
    } else {
      SumTail(0, n, left);
    }
    hide Release, Pour, Sum;
  }

  // ----- the state after the first draws -----

  /** cur is what the first n draws make of st, as far as draws look. */
  ghost predicate Drawn(st: State, draws: seq<Draw>, n: nat, cur: State)
    requires n <= |draws| && KnownDraws(st, draws)
  {
    && cur.tracked == st.tracked && |cur.lines| == |st.lines| && |cur.stocks| == |st.stocks|
    && (forall l | 0 <= l < |st.lines| :: cur.lines[l].variant == st.lines[l].variant)
    && (forall s: nat | s < |st.stocks| ::
         && cur.stocks[s].warehouse == st.stocks[s].warehouse && cur.stocks[s].variant == st.stocks[s].variant
         && cur.stocks[s].quantity == st.stocks[s].quantity - DrawnStock(st, draws, n, s))
    && (forall l: nat, s: nat | l < |st.lines| && s < |st.stocks| ::
         At(cur.rows, l, s) == Owed(st, draws, n, s)(l))
  }

  lemma {:induction false} FindSame(a: seq<Stock>, b: seq<Stock>, warehouse: nat, variant: nat)
    requires |a| == |b|
    requires forall s | 0 <= s < |a| :: a[s].warehouse == b[s].warehouse && a[s].variant == b[s].variant
    ensures FindStock(a, warehouse, variant) == FindStock(b, warehouse, variant)
  {
    if a != [] { FindSame(a[..|a| - 1], b[..|b| - 1], warehouse, variant); }
  }

  /** The rows after one more draw that releases. */
  lemma {:induction false} OwedRows(st: State, draws: seq<Draw>, n: nat, cur: State)
    requires n < |draws| && KnownDraws(st, draws) && Drawn(st, draws, n, cur)
    requires draws[n].quantity > 0 && Tracked(st, draws[n].line)
    ensures var d := draws[n];
            var released := Release(cur, d.line, d.quantity);
            && (Deallocate(cur, d.line, d.quantity).Ok? <==> DrawnLine(draws, n + 1, d.line) <= OfLine(st, d.line))
            && released == cur.(rows := released.rows)
            && forall l: nat, s: nat | l < |st.lines| && s < |st.stocks| ::
                 At(released.rows, l, s) == Owed(st, draws, n + 1, s)(l)
  {
    var d := draws[n];
    ReleaseAgain(st, cur, d.line, DrawnLine(draws, n, d.line), d.quantity);
    ReleaseRows(cur, d.line, d.quantity);
    hide Release, Deallocate, RowAfter, Sum, OfLine, DrawnStock;
  }

  lemma {:induction false} OwedNext(st: State, draws: seq<Draw>, n: nat, cur: State, s: nat)
    requires n < |draws| && KnownDraws(st, draws) && Drawn(st, draws, n, cur)
    requires draws[n].quantity > 0 && Tracked(st, draws[n].line) && s < |st.stocks|
    ensures InStock(Release(cur, draws[n].line, draws[n].quantity), s)
         == Sum(|st.lines|, Owed(st, draws, n + 1, s))
  {
    OwedRows(st, draws, n, cur);
    hide Release, Deallocate, RowAfter, DrawnStock;
    SumEq(|st.lines|, StockColumn(Release(cur, draws[n].line, draws[n].quantity).rows, s), Owed(st, draws, n + 1, s));
  }

  /** Draw n goes through exactly when it fits, and enters the handler exactly when it is overdrawn. */
  lemma {:induction false} DrawDecided(st: State, draws: seq<Draw>, n: nat, cur: State)
    requires n < |draws| && KnownDraws(st, draws) && Drawn(st, draws, n, cur)
    ensures DrawOne(cur, draws[n]).Ok? <==> Fits(st, draws, n)
    ensures DrawOne(cur, draws[n]).Ok? || DrawOne(cur, draws[n]) == Failed(InsufficientStock)
    ensures DrawReleased(cur, draws[n]) <==> !Overdrawn(st, draws, n)
  {
    var d := draws[n];
    FindSame(cur.stocks, st.stocks, d.warehouse, st.lines[d.line].variant);
    if d.quantity > 0 && Tracked(st, d.line) {
      OwedRows(st, draws, n, cur);
      if Target(st, d).Some? { OwedNext(st, draws, n, cur, Target(st, d).value); }
    }
    hide Release, Deallocate, RowAfter, InStock, FindStock, Sum, OfLine, Owed;
  }

  lemma {:induction false} DrawNext(st: State, draws: seq<Draw>, n: nat, cur: State)
    requires n < |draws| && KnownDraws(st, draws) && Drawn(st, draws, n, cur)
    requires DrawOne(cur, draws[n]).Ok?
    ensures Drawn(st, draws, n + 1, DrawOne(cur, draws[n]).state)
  {
    var d := draws[n];
    FindSame(cur.stocks, st.stocks, d.warehouse, st.lines[d.line].variant);
    if d.quantity > 0 && Tracked(st, d.line) { OwedRows(st, draws, n, cur); }
    hide Release, Deallocate, RowAfter, InStock, FindStock, Sum, OfLine;
  }

  lemma {:induction false} NothingDrawn(st: State, draws: seq<Draw>)
    requires KnownDraws(st, draws)
    ensures Drawn(st, draws, 0, st)
  {
    forall l: nat ensures OfLine(st, l) >= 0 {}
    forall l: nat, s: nat ensures Pour(LineRow(st.rows, l), 0, s) == 0 { SumNonNegative(s, LineRow(st.rows, l)); }
  }

  /** The first n draws go through exactly when each of them fits. */
  lemma {:induction false} DrawFirstIff(st: State, draws: seq<Draw>, n: nat)
    requires n <= |draws| && KnownDraws(st, draws)
    ensures DrawFirst(st, draws, n).Ok? <==> forall k: nat | k < n :: Fits(st, draws, k)
    ensures DrawFirst(st, draws, n).Ok? || DrawFirst(st, draws, n) == Failed(InsufficientStock)
    ensures DrawFirst(st, draws, n).Ok? ==> Drawn(st, draws, n, DrawFirst(st, draws, n).state)
  {
    hide Fits, Drawn, DrawOne;
    if n == 0 {
      NothingDrawn(st, draws);
    } else {
      DrawFirstIff(st, draws, n - 1);
      if DrawFirst(st, draws, n - 1).Ok? {
        var mid := DrawFirst(st, draws, n - 1).state;
        DrawDecided(st, draws, n - 1, mid);
        if DrawOne(mid, draws[n - 1]).Ok? { DrawNext(st, draws, n - 1, mid); }
      }
    }
  }

  // ----- requests as draws -----

  function DrawsOf(parcel: Parcel): seq<Draw> {
    seq(|parcel.asks|, i requires 0 <= i < |parcel.asks| =>
      Draw(parcel.warehouse, parcel.asks[i].line, parcel.asks[i].quantity))
  }

  /** The draws of the first n parcels. */
  function AllDraws(parcels: seq<Parcel>, n: nat): seq<Draw>
    requires n <= |parcels|
  {
    if n == 0 then [] else AllDraws(parcels, n - 1) + DrawsOf(parcels[n - 1])
  }

  function RequestDraws(parcels: seq<Parcel>): seq<Draw> {
    AllDraws(parcels, |parcels|)
  }

  lemma {:induction false} AllDrawsKnown(st: State, parcels: seq<Parcel>, n: nat)
    requires n <= |parcels| && KnownParcels(st, parcels)
    ensures KnownDraws(st, AllDraws(parcels, n))
  {
    if n > 0 { AllDrawsKnown(st, parcels, n - 1); }
  }

  lemma {:induction false} AllDrawsPrefix(parcels: seq<Parcel>, m: nat, n: nat)
    requires m <= n <= |parcels|
    ensures AllDraws(parcels, m) <= AllDraws(parcels, n)
  {
    if m < n { AllDrawsPrefix(parcels, m, n - 1); }
  }

  /** Fulfillments play no part in a draw. */
  lemma {:induction false} DrawFrame(st: State, d: Draw, fulfillments: seq<Fulfillment>)
    requires d.line < |st.lines|
    ensures var other := st.(fulfillments := fulfillments);
            && DrawReleased(other, d) == DrawReleased(st, d)
            && DrawOne(other, d) == match DrawOne(st, d)
                                    case Ok(next) => Ok(next.(fulfillments := fulfillments))
                                    case Failed(e) => Failed(e)
  {
  }

  lemma {:induction false} DrawFirstFails(st: State, draws: seq<Draw>, m: nat, n: nat)
    requires m <= n <= |draws| && KnownDraws(st, draws) && DrawFirst(st, draws, m).Failed?
    ensures DrawFirst(st, draws, n) == DrawFirst(st, draws, m)
  {
    if m < n { DrawFirstFails(st, draws, m, n - 1); }
  }

  /** st is what the first n draws make of start, fulfillments aside. */
  ghost predicate Reached(start: State, draws: seq<Draw>, n: nat, st: State)
    requires n <= |draws| && KnownDraws(start, draws)
  {
    DrawFirst(start, draws, n).Ok? && st == DrawFirst(start, draws, n).state.(fulfillments := st.fulfillments)
  }

  /** Of draws m to n, those that are reached release enough. */
  ghost predicate DrawsReleased(start: State, draws: seq<Draw>, m: nat, n: nat)
    requires n <= |draws| && KnownDraws(start, draws)
  {
    forall k: nat | m <= k < n && DrawFirst(start, draws, k).Ok? ::
      DrawReleased(DrawFirst(start, draws, k).state, draws[k])
  }

  lemma {:induction false} AskStep(st: State, warehouse: nat, asks: seq<Ask>, i: nat)
    requires i < |asks| && KnownLines(st, asks)
    ensures var r := DrawOne(st, Draw(warehouse, asks[i].line, asks[i].quantity));
            && FulfillAsks(st, warehouse, asks, i)
               == (match r case Failed(e) => Failed(e) case Ok(next) => FulfillAsks(next, warehouse, asks, i + 1))
            && (AsksReleased(st, warehouse, asks, i)
                <==> DrawReleased(st, Draw(warehouse, asks[i].line, asks[i].quantity))
                     && (r.Ok? ==> AsksReleased(r.state, warehouse, asks, i + 1)))
  {
    hide FulfillLine, Deallocate, FindStock;
  }

  lemma {:induction false} NoAsksLeft(start: State, draws: seq<Draw>, n: nat, st: State, warehouse: nat, asks: seq<Ask>)
    requires n <= |draws| && KnownDraws(start, draws) && KnownLines(st, asks)
    ensures DrawsReleased(start, draws, n, n) && AsksReleased(st, warehouse, asks, |asks|)
    ensures FulfillAsks(st, warehouse, asks, |asks|) == Ok(st)
  {
  }

  lemma {:induction false} ReachedNext(start: State, draws: seq<Draw>, n: nat, st: State, end: nat)
    requires n < end <= |draws| && KnownDraws(start, draws) && Reached(start, draws, n, st)
    ensures match DrawOne(st, draws[n])
            case Ok(next) => Reached(start, draws, n + 1, next) && next.fulfillments == st.fulfillments
            case Failed(e) => DrawFirst(start, draws, n + 1) == Failed(e)
    ensures DrawsReleased(start, draws, n, end)
       <==> DrawReleased(st, draws[n])
            && (DrawOne(st, draws[n]).Ok? ==> DrawsReleased(start, draws, n + 1, end))
  {
    var mid := DrawFirst(start, draws, n).state;
    DrawFrame(mid, draws[n], st.fulfillments);
    hide DrawOne, DrawReleased;
    if DrawFirst(start, draws, n + 1).Failed? {
      forall k: nat | n < k <= |draws| ensures DrawFirst(start, draws, k).Failed? {
        DrawFirstFails(start, draws, n + 1, k);
      }
    }
  }

  /** The draws from `base` on are the asks of a parcel. */
  ghost predicate IsSlice(draws: seq<Draw>, base: nat, warehouse: nat, asks: seq<Ask>) {
    && base + |asks| <= |draws|
    && forall k | 0 <= k < |asks| :: draws[base + k] == Draw(warehouse, asks[k].line, asks[k].quantity)
  }

  lemma {:induction false} AsksAsDraws(start: State, draws: seq<Draw>, base: nat, st: State, warehouse: nat,
                                       asks: seq<Ask>, i: nat)
    requires i <= |asks| && IsSlice(draws, base, warehouse, asks)
    requires KnownDraws(start, draws) && KnownLines(st, asks)
    requires Reached(start, draws, base + i, st)
    ensures AsksReleased(st, warehouse, asks, i) <==> DrawsReleased(start, draws, base + i, base + |asks|)
    ensures match FulfillAsks(st, warehouse, asks, i)
            case Ok(next) => Reached(start, draws, base + |asks|, next) && next.fulfillments == st.fulfillments
            case Failed(e) => DrawFirst(start, draws, base + |asks|) == Failed(e)
    decreases |asks| - i
  {
    hide DrawFirst, DrawOne, DrawReleased, DrawsReleased, Reached, KnownDraws, FulfillAsks, AsksReleased;
    if i == |asks| {
      NoAsksLeft(start, draws, base + i, st, warehouse, asks);
    } else {
      assert draws[base + i] == Draw(warehouse, asks[i].line, asks[i].quantity);
      hide IsSlice;
      AskStep(st, warehouse, asks, i);
      ReachedNext(start, draws, base + i, st, base + |asks|);
      match DrawOne(st, draws[base + i]) {
        case Ok(next) => AsksAsDraws(start, draws, base, next, warehouse, asks, i + 1);
        case Failed(_) => DrawFirstFails(start, draws, base + i + 1, base + |asks|);
      }
    }
  }

  /** One parcel of a request is a slice of its draws. */
  lemma {:induction false} ParcelSlice(parcels: seq<Parcel>, j: nat)
    requires j < |parcels|
    ensures var draws, base := RequestDraws(parcels), |AllDraws(parcels, j)|;
            && IsSlice(draws, base, parcels[j].warehouse, parcels[j].asks)
            && |AllDraws(parcels, j + 1)| == base + |parcels[j].asks|
  {
    AllDrawsPrefix(parcels, j + 1, |parcels|);
    var base, asks := |AllDraws(parcels, j)|, parcels[j].asks;
    assert AllDraws(parcels, j + 1) == AllDraws(parcels, j) + DrawsOf(parcels[j]);
    forall k | 0 <= k < |asks|
      ensures RequestDraws(parcels)[base + k] == Draw(parcels[j].warehouse, asks[k].line, asks[k].quantity)
    {
      assert RequestDraws(parcels)[base + k] == AllDraws(parcels, j + 1)[base + k];
    }
  }

  lemma {:induction false} ReleasedSplit(start: State, draws: seq<Draw>, m: nat, n: nat, end: nat)
    requires m <= n <= end <= |draws| && KnownDraws(start, draws)
    ensures DrawsReleased(start, draws, m, end)
       <==> DrawsReleased(start, draws, m, n) && DrawsReleased(start, draws, n, end)
    ensures DrawFirst(start, draws, n).Failed? ==> DrawsReleased(start, draws, n, end)
  {
    hide DrawReleased;
    if DrawFirst(start, draws, n).Failed? {
      forall k: nat | n <= k < end ensures DrawFirst(start, draws, k).Failed? { DrawFirstFails(start, draws, n, k); }
    }
  }

  /** The parcels from j on are the draws from there on. */
  lemma {:induction false} ParcelsAsDraws(start: State, order: nat, parcels: seq<Parcel>, st: State, j: nat)
    requires j <= |parcels| && KnownParcels(st, parcels) && KnownDraws(start, RequestDraws(parcels))
    requires |AllDraws(parcels, j)| <= |RequestDraws(parcels)|
    requires Reached(start, RequestDraws(parcels), |AllDraws(parcels, j)|, st)
    ensures var draws := RequestDraws(parcels);
            && (ParcelsReleased(st, order, parcels, j)
                <==> DrawsReleased(start, draws, |AllDraws(parcels, j)|, |draws|))
            && match FulfillParcels(st, order, parcels, j)
               case Ok(next) => Reached(start, draws, |draws|, next)
               case Failed(e) => DrawFirst(start, draws, |draws|) == Failed(e)
    decreases |parcels| - j
  {
    hide DrawFirst, DrawReleased, KnownDraws, AllDraws, AsksReleased, FulfillAsks;
    if j < |parcels| {
      var draws, base, asks := RequestDraws(parcels), |AllDraws(parcels, j)|, parcels[j].asks;
      var end := base + |asks|;
      ParcelSlice(parcels, j);
      AsksAsDraws(start, draws, base, st, parcels[j].warehouse, asks, 0);
      ReleasedSplit(start, draws, base, end, |draws|);
      hide DrawsReleased, IsSlice;
      match FulfillAsks(st, parcels[j].warehouse, asks, 0) {
        case Ok(done) =>
          ParcelsAsDraws(start, order, parcels, Record(done, order, asks), j + 1);
        case Failed(_) =>
          DrawFirstFails(start, draws, end, |draws|);
      }
    }
  }

  // ----- the two exact conditions -----

  /** Whether a request goes through, as the state it starts from tells: every draw of it has to fit. It fails with
      InsufficientStock otherwise. */
  lemma {:induction false} GrantedIff(st: State, order: nat, parcels: seq<Parcel>)
    requires order < |st.orders| && KnownParcels(st, parcels) && parcels != []
    ensures KnownDraws(st, RequestDraws(parcels))
    ensures CreateFulfillments(st, order, parcels).Ok?
       <==> forall k: nat | k < |RequestDraws(parcels)| :: Fits(st, RequestDraws(parcels), k)
    ensures CreateFulfillments(st, order, parcels).Ok?
            || CreateFulfillments(st, order, parcels) == Failed(InsufficientStock)
  {
    AllDrawsKnown(st, parcels, |parcels|);
    ParcelsAsDraws(st, order, parcels, st, 0);
    DrawFirstIff(st, RequestDraws(parcels), |RequestDraws(parcels)|);
    hide FulfillParcels, ParcelsReleased, Fits;
  }

  /** A request for nothing is refused. */
  lemma {:induction false} NothingRequested(st: State, order: nat)
    requires order < |st.orders|
    ensures CreateFulfillments(st, order, []) == Failed(NothingToFulfill)
  {
  }

  /** Whether a request enters the AllocationError handler, be it granted in the end or not: some draw is overdrawn,
      and the draws in front of it fit. */
  lemma {:induction false} EntersHandlerIff(st: State, order: nat, parcels: seq<Parcel>)
    requires KnownParcels(st, parcels)
    ensures KnownDraws(st, RequestDraws(parcels))
    ensures !ParcelsReleased(st, order, parcels, 0)
       <==> exists k: nat | k < |RequestDraws(parcels)| ::
              Overdrawn(st, RequestDraws(parcels), k) && forall j: nat | j < k :: Fits(st, RequestDraws(parcels), j)
  {
    var draws := RequestDraws(parcels);
    AllDrawsKnown(st, parcels, |parcels|);
    ParcelsAsDraws(st, order, parcels, st, 0);
    forall k: nat | k < |draws|
      ensures (DrawFirst(st, draws, k).Ok? <==> forall j: nat | j < k :: Fits(st, draws, j))
      ensures DrawFirst(st, draws, k).Ok?
              ==> (DrawReleased(DrawFirst(st, draws, k).state, draws[k]) <==> !Overdrawn(st, draws, k))
    {
      DrawFirstIff(st, draws, k);
      if DrawFirst(st, draws, k).Ok? { DrawDecided(st, draws, k, DrawFirst(st, draws, k).state); }
    }
    hide FulfillParcels, ParcelsReleased, Fits, Overdrawn, DrawReleased, DrawFirst;
  }
}
