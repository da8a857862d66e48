/**
 The fulfillment mutation (graphql/order/mutations/fulfillments.py): its checks, the grouping of its input by
 warehouse, and the call of `create_fulfillments`.
 */
module Requests {
  import opened Sums
  import opened Ledger
  import opened Shipping
  import opened Fulfilling

  datatype StockInput = StockInput(warehouse: nat, quantity: int)

  datatype LineInput = LineInput(line: nat, stocks: seq<StockInput>)

  // ----- the checks -----

  /** What the check adds up: the first n requested quantities, negative ones included. */
  function Requested(stocks: seq<StockInput>, n: nat): int
    requires n <= |stocks|
  {
    if n == 0 then 0 else Requested(stocks, n - 1) + stocks[n - 1].quantity
  }

  function TotalRequested(input: seq<LineInput>, n: nat): int
    requires n <= |input|
  {
    if n == 0 then 0 else TotalRequested(input, n - 1) + Requested(input[n - 1].stocks, |input[n - 1].stocks|)
  }

  predicate DistinctWarehouses(stocks: seq<StockInput>) {
    forall i, j | 0 <= i < j < |stocks| :: stocks[i].warehouse != stocks[j].warehouse
  }

  /** `clean_lines` for one line. */
  predicate LineAccepted(lacks: int, stocks: seq<StockInput>) {
    Requested(stocks, |stocks|) <= lacks
  }

  /** `clean_input` returns instead of raising. */
  predicate InputAccepted(st: State, input: seq<LineInput>) {
    && (forall i | 0 <= i < |input| :: DistinctWarehouses(input[i].stocks))
    && (forall i, j | 0 <= i < j < |input| :: input[i].line != input[j].line)
    && (forall i | 0 <= i < |input| ::
         input[i].line < |st.lines| && LineAccepted(Lacks(st, input[i].line), input[i].stocks))
    && TotalRequested(input, |input|) > 0
  }

  // ----- the grouping -----

  /** The parcel of a warehouse, or the end of the sequence. */
  function ParcelOf(parcels: seq<Parcel>, warehouse: nat): (k: nat)
    ensures k <= |parcels| && (k < |parcels| ==> parcels[k].warehouse == warehouse)
    ensures forall i | 0 <= i < k :: parcels[i].warehouse != warehouse
  {
    if parcels == [] then 0
    else
      var n := |parcels| - 1;
      var k := ParcelOf(parcels[..n], warehouse);
      if k < n || parcels[n].warehouse == warehouse then k else |parcels|
  }

  /** A new ask goes to the end of its warehouse's parcel, which is opened at the end when there is none. */
  function AddAsk(parcels: seq<Parcel>, warehouse: nat, ask: Ask): seq<Parcel> {
    var k := ParcelOf(parcels, warehouse);
    if k < |parcels| then parcels[k := Parcel(warehouse, parcels[k].asks + [ask])]
    else parcels + [Parcel(warehouse, [ask])]
  }

  function GroupStocks(parcels: seq<Parcel>, line: nat, stocks: seq<StockInput>, n: nat): seq<Parcel>
    requires n <= |stocks|
  {
    if n == 0 then parcels
    else
      var grouped := GroupStocks(parcels, line, stocks, n - 1);
      var stock := stocks[n - 1];
      if stock.quantity > 0 then AddAsk(grouped, stock.warehouse, Ask(line, stock.quantity)) else grouped
  }

  function GroupLines(input: seq<LineInput>, n: nat): seq<Parcel>
    requires n <= |input|
  {
    if n == 0 then []
    else GroupStocks(GroupLines(input, n - 1), input[n - 1].line, input[n - 1].stocks, |input[n - 1].stocks|)
  }

  /** What is passed on for shipping, warehouse by warehouse. */
  function Grouped(input: seq<LineInput>): seq<Parcel> {
    GroupLines(input, |input|)
  }

  /** `clean_input`: the checks, then the two loops that group what is to be shipped. */
  method CleanInput(st: State, input: seq<LineInput>) returns (cleaned: Option<seq<Parcel>>)
    ensures cleaned == if InputAccepted(st, input) then Some(Grouped(input)) else None
  {
    if !InputAccepted(st, input) { return None; }
    var parcels := [];
    var i: nat := 0;
    while i < |input|
      invariant i <= |input| && parcels == GroupLines(input, i)
    {
      var line, stocks := input[i].line, input[i].stocks;
      var j: nat := 0;
      while j < |stocks|
        invariant j <= |stocks| && parcels == GroupStocks(GroupLines(input, i), line, stocks, j)
      {
        if stocks[j].quantity > 0 {
          parcels := AddAsk(parcels, stocks[j].warehouse, Ask(line, stocks[j].quantity));
        }
        j := j + 1;
      }
      i := i + 1;
    }
    return Some(parcels);
  }

  // ----- what the checks are worth -----

  /** What is passed on of the first n quantities: the positive ones only. */
  function PassedOn(stocks: seq<StockInput>, n: nat): nat
    requires n <= |stocks|
  {
    if n == 0 then 0
    else PassedOn(stocks, n - 1) + if stocks[n - 1].quantity > 0 then stocks[n - 1].quantity else 0
  }

  lemma {:induction false} PassedOnAtLeast(stocks: seq<StockInput>, n: nat)
    requires n <= |stocks|
    ensures PassedOn(stocks, n) >= Requested(stocks, n)
    ensures PassedOn(stocks, n) == Requested(stocks, n) <==> forall i | 0 <= i < n :: stocks[i].quantity >= 0
  {
    if n > 0 { PassedOnAtLeast(stocks, n - 1); }
  }

  /** Acceptance bounds what is shipped, whatever the line lacks, exactly when no quantity is negative. */
  lemma {:induction false} CheckBoundsShipping(stocks: seq<StockInput>)
    ensures (forall lacks: int | LineAccepted(lacks, stocks) :: PassedOn(stocks, |stocks|) <= lacks)
       <==> forall i | 0 <= i < |stocks| :: stocks[i].quantity >= 0
  {
    PassedOnAtLeast(stocks, |stocks|);
    assert LineAccepted(Requested(stocks, |stocks|), stocks);
  }

  // ----- what the grouping passes on -----

  lemma {:induction false} AskedAppend(asks: seq<Ask>, ask: Ask, i: nat, line: nat)
    requires i <= |asks|
    ensures Asked(asks + [ask], i, line)
         == Asked(asks, i, line) + if ask.line == line && ask.quantity > 0 then ask.quantity else 0
    decreases |asks| - i
  {
    if i < |asks| {
      AskedAppend(asks, ask, i + 1, line);
    } else {
      assert (asks + [ask])[i] == ask && Asked(asks + [ask], i + 1, line) == 0;
    }
  }

  lemma {:induction false} AskedAllAppend(parcels: seq<Parcel>, parcel: Parcel, i: nat, line: nat)
    requires i <= |parcels|
    ensures AskedAll(parcels + [parcel], i, line) == AskedAll(parcels, i, line) + Asked(parcel.asks, 0, line)
    decreases |parcels| - i
  {
    if i < |parcels| {
      AskedAllAppend(parcels, parcel, i + 1, line);
    } else {
      assert (parcels + [parcel])[i] == parcel && AskedAll(parcels + [parcel], i + 1, line) == 0;
    }
  }

  lemma {:induction false} AskedAllUpdate(parcels: seq<Parcel>, k: nat, parcel: Parcel, i: nat, line: nat)
    requires k < |parcels| && i <= |parcels|
    ensures AskedAll(parcels[k := parcel], i, line) - AskedAll(parcels, i, line)
         == if i <= k then Asked(parcel.asks, 0, line) - Asked(parcels[k].asks, 0, line) else 0
    decreases |parcels| - i
  {
    if i < |parcels| { AskedAllUpdate(parcels, k, parcel, i + 1, line); }
  }

  lemma {:induction false} AddAskAsked(parcels: seq<Parcel>, warehouse: nat, ask: Ask, line: nat)
    ensures AskedAll(AddAsk(parcels, warehouse, ask), 0, line)
         == AskedAll(parcels, 0, line) + if ask.line == line && ask.quantity > 0 then ask.quantity else 0
  {
    var k := ParcelOf(parcels, warehouse);
    if k < |parcels| {
      AskedAllUpdate(parcels, k, Parcel(warehouse, parcels[k].asks + [ask]), 0, line);
      AskedAppend(parcels[k].asks, ask, 0, line);
    } else {
      AskedAllAppend(parcels, Parcel(warehouse, [ask]), 0, line);
      assert Asked([ask], 1, line) == 0;
    }
  }

  lemma {:induction false} GroupStocksAsked(parcels: seq<Parcel>, line: nat, stocks: seq<StockInput>, n: nat, l: nat)
    requires n <= |stocks|
    ensures AskedAll(GroupStocks(parcels, line, stocks, n), 0, l)
         == AskedAll(parcels, 0, l) + if line == l then PassedOn(stocks, n) else 0
  {
    if n > 0 {
      GroupStocksAsked(parcels, line, stocks, n - 1, l);
      AddAskAsked(GroupStocks(parcels, line, stocks, n - 1), stocks[n - 1].warehouse,
                  Ask(line, stocks[n - 1].quantity), l);
    }
  }

  /** Units of an order line that the first n line inputs pass on. */
  function InputAsked(input: seq<LineInput>, n: nat, l: nat): nat
    requires n <= |input|
  {
    if n == 0 then 0
    else
      var last := input[n - 1];
      InputAsked(input, n - 1, l) + if last.line == l then PassedOn(last.stocks, |last.stocks|) else 0
  }

  /** Grouping by warehouse neither loses nor invents units: of every order line the parcels ask for the positive
      quantities of its input. */
  lemma {:induction false} GroupedAsked(input: seq<LineInput>, n: nat, l: nat)
    requires n <= |input|
    ensures AskedAll(GroupLines(input, n), 0, l) == InputAsked(input, n, l)
  {
    if n > 0 {
      GroupedAsked(input, n - 1, l);
      GroupStocksAsked(GroupLines(input, n - 1), input[n - 1].line, input[n - 1].stocks, |input[n - 1].stocks|, l);
    }
  }

  /** An accepted input asks for something. */
  lemma {:induction false} SomethingAsked(input: seq<LineInput>, n: nat) returns (l: nat)
    requires n <= |input| && TotalRequested(input, n) > 0
    ensures InputAsked(input, n, l) > 0
  {
    var last := input[n - 1];
    if Requested(last.stocks, |last.stocks|) > 0 {
      PassedOnAtLeast(last.stocks, |last.stocks|);
      l := last.line;
    } else {
      l := SomethingAsked(input, n - 1);
    }
  }

  /** A line is asked for through the one input that names it. */
  lemma {:induction false} InputAskedOnce(input: seq<LineInput>, n: nat, l: nat)
    requires n <= |input| && forall i, j | 0 <= i < j < |input| :: input[i].line != input[j].line
    ensures InputAsked(input, n, l) == 0
         || exists i | 0 <= i < n ::
              input[i].line == l && InputAsked(input, n, l) == PassedOn(input[i].stocks, |input[i].stocks|)
    ensures (forall i | 0 <= i < n :: input[i].line != l) ==> InputAsked(input, n, l) == 0
  {
    if n > 0 { InputAskedOnce(input, n - 1, l); }
  }

  /** An accepted input asks for more of a line than that lacks only by means of a negative quantity. */
  lemma {:induction false} OverAskNeedsNegative(st: State, input: seq<LineInput>, l: nat)
    requires InputAccepted(st, input) && l < |st.lines|
    requires AskedAll(Grouped(input), 0, l) > Max(Lacks(st, l), 0)
    ensures exists i, j | 0 <= i < |input| && 0 <= j < |input[i].stocks| ::
              input[i].line == l && input[i].stocks[j].quantity < 0
  {
    GroupedAsked(input, |input|, l);
    InputAskedOnce(input, |input|, l);
    var i :| 0 <= i < |input| && input[i].line == l
             && InputAsked(input, |input|, l) == PassedOn(input[i].stocks, |input[i].stocks|);
    PassedOnAtLeast(input[i].stocks, |input[i].stocks|);
  }

  // ----- the grouping, in closed form -----

  /** A positive quantity of the input. */
  datatype Wish = Wish(warehouse: nat, ask: Ask)

  function StockWishes(line: nat, stocks: seq<StockInput>, n: nat): seq<Wish>
    requires n <= |stocks|
  {
    if n == 0 then []
    else
      StockWishes(line, stocks, n - 1)
      + if stocks[n - 1].quantity > 0 then [Wish(stocks[n - 1].warehouse, Ask(line, stocks[n - 1].quantity))] else []
  }

  /** The positive quantities of the first n line inputs, in input order. */
  function Wishes(input: seq<LineInput>, n: nat): seq<Wish>
    requires n <= |input|
  {
    if n == 0 then []
    else Wishes(input, n - 1) + StockWishes(input[n - 1].line, input[n - 1].stocks, |input[n - 1].stocks|)
  }

  /** What is wished from one warehouse, in order. */
  function WishedFrom(wishes: seq<Wish>, warehouse: nat): seq<Ask> {
    if wishes == [] then []
    else
      var last := wishes[|wishes| - 1];
      WishedFrom(wishes[..|wishes| - 1], warehouse) + if last.warehouse == warehouse then [last.ask] else []
  }

  /** The warehouses in order of their first appearance. */
  function Warehouses(wishes: seq<Wish>): (r: seq<nat>)
    ensures forall w :: w in r <==> exists i | 0 <= i < |wishes| :: wishes[i].warehouse == w
    ensures forall i, j | 0 <= i < j < |r| :: r[i] != r[j]
  {
    if wishes == [] then []
    else
      var n := |wishes| - 1;
      var before, w := Warehouses(wishes[..n]), wishes[n].warehouse;
      assert forall i | 0 <= i < n :: wishes[..n][i] == wishes[i];
      if w in before then before else before + [w]
  }

  ghost predicate Groups(parcels: seq<Parcel>, wishes: seq<Wish>) {
    && |parcels| == |Warehouses(wishes)|
    && forall k | 0 <= k < |parcels| ::
         && parcels[k].warehouse == Warehouses(wishes)[k]
         && parcels[k].asks == WishedFrom(wishes, parcels[k].warehouse)
  }

  lemma {:induction false} NotWishedFrom(wishes: seq<Wish>, warehouse: nat)
    requires forall i | 0 <= i < |wishes| :: wishes[i].warehouse != warehouse
    ensures WishedFrom(wishes, warehouse) == []
  {
    if wishes != [] { NotWishedFrom(wishes[..|wishes| - 1], warehouse); }
  }

  lemma {:induction false} AddAskGroups(parcels: seq<Parcel>, wishes: seq<Wish>, warehouse: nat, ask: Ask)
    requires Groups(parcels, wishes)
    ensures Groups(AddAsk(parcels, warehouse, ask), wishes + [Wish(warehouse, ask)])
  {
    var more, k := wishes + [Wish(warehouse, ask)], ParcelOf(parcels, warehouse);
    assert more[..|wishes|] == wishes;
    assert warehouse in Warehouses(wishes) <==> k < |parcels| by {
      if warehouse in Warehouses(wishes) {
        var j :| 0 <= j < |parcels| && Warehouses(wishes)[j] == warehouse;
        assert parcels[j].warehouse == warehouse;
      }
    }
    if k == |parcels| { NotWishedFrom(wishes, warehouse); }
    hide ParcelOf;
  }

  lemma {:induction false} StocksGroup(parcels: seq<Parcel>, wishes: seq<Wish>, line: nat, stocks: seq<StockInput>,
                                       n: nat)
    requires n <= |stocks| && Groups(parcels, wishes)
    ensures Groups(GroupStocks(parcels, line, stocks, n), wishes + StockWishes(line, stocks, n))
  {
    if n == 0 {
      assert wishes + [] == wishes;
    } else {
      StocksGroup(parcels, wishes, line, stocks, n - 1);
      var grouped, all := GroupStocks(parcels, line, stocks, n - 1), wishes + StockWishes(line, stocks, n - 1);
      var stock := stocks[n - 1];
      hide Groups;
      if stock.quantity > 0 {
        AddAskGroups(grouped, all, stock.warehouse, Ask(line, stock.quantity));
        assert wishes + StockWishes(line, stocks, n) == all + [Wish(stock.warehouse, Ask(line, stock.quantity))];
      } else {
        assert wishes + StockWishes(line, stocks, n) == all;
      }
    }
  }

  /** One parcel for each warehouse that something positive is wished from, in order of first appearance, and in it
      exactly these wishes in input order. */
  lemma {:induction false} GroupedByWarehouse(input: seq<LineInput>, n: nat)
    requires n <= |input|
    ensures Groups(GroupLines(input, n), Wishes(input, n))
  {
    if n > 0 {
      GroupedByWarehouse(input, n - 1);
      hide Groups;
      StocksGroup(GroupLines(input, n - 1), Wishes(input, n - 1), input[n - 1].line, input[n - 1].stocks,
                  |input[n - 1].stocks|);
    }
  }

  // ----- the grouped request is an accepted one -----

  /** Each parcel names a line once, and only lines out of a set. */
  predicate Tidy(parcels: seq<Parcel>, lines: set<nat>) {
    forall k | 0 <= k < |parcels| ::
      DistinctLines(parcels[k].asks) && forall a | a in parcels[k].asks :: a.line in lines
  }

  /** A line was asked of the first n warehouses only. */
  predicate AskedOfFirst(parcels: seq<Parcel>, line: nat, stocks: seq<StockInput>, n: nat)
    requires n <= |stocks|
  {
    forall k, a | 0 <= k < |parcels| && a in parcels[k].asks && a.line == line ::
      exists i | 0 <= i < n :: stocks[i].warehouse == parcels[k].warehouse
  }

  lemma {:induction false} GroupStocksTidy(parcels: seq<Parcel>, line: nat, stocks: seq<StockInput>, n: nat,
                                           lines: set<nat>)
    requires n <= |stocks| && DistinctWarehouses(stocks) && Tidy(parcels, lines) && line !in lines
    ensures Tidy(GroupStocks(parcels, line, stocks, n), lines + {line})
    ensures AskedOfFirst(GroupStocks(parcels, line, stocks, n), line, stocks, n)
  {
    if n > 0 {
      var grouped, stock := GroupStocks(parcels, line, stocks, n - 1), stocks[n - 1];
      GroupStocksTidy(parcels, line, stocks, n - 1, lines);
      if stock.quantity > 0 { AddAskTidy(grouped, line, stocks, n - 1, lines + {line}); }
    }
  }

  lemma {:induction false} AddAskTidy(parcels: seq<Parcel>, line: nat, stocks: seq<StockInput>, n: nat, lines: set<nat>)
    requires n < |stocks| && DistinctWarehouses(stocks) && Tidy(parcels, lines) && line in lines
    requires AskedOfFirst(parcels, line, stocks, n)
    ensures var added := AddAsk(parcels, stocks[n].warehouse, Ask(line, stocks[n].quantity));
            Tidy(added, lines) && AskedOfFirst(added, line, stocks, n + 1)
  {
    var warehouse, ask := stocks[n].warehouse, Ask(line, stocks[n].quantity);
    var k := ParcelOf(parcels, warehouse);
    if k < |parcels| {
      forall a | a in parcels[k].asks ensures a.line != line {}
      assert DistinctLines(parcels[k].asks + [ask]);
    }
  }

  lemma {:induction false} GroupLinesTidy(input: seq<LineInput>, n: nat)
    requires n <= |input| && forall i | 0 <= i < |input| :: DistinctWarehouses(input[i].stocks)
    requires forall i, j | 0 <= i < j < |input| :: input[i].line != input[j].line
    ensures Tidy(GroupLines(input, n), set i | 0 <= i < n :: input[i].line)
  {
    if n > 0 {
      var seen := set i | 0 <= i < n - 1 :: input[i].line;
      GroupLinesTidy(input, n - 1);
      GroupStocksTidy(GroupLines(input, n - 1), input[n - 1].line, input[n - 1].stocks, |input[n - 1].stocks|, seen);
      assert seen + {input[n - 1].line} == set i | 0 <= i < n :: input[i].line;
    }
  }

  /** Whatever the mutation accepts is an accepted request for whichever order it is sent. */
  lemma {:induction false} GroupedAccepted(st: State, order: nat, input: seq<LineInput>)
    requires order < |st.orders| && InputAccepted(st, input)
    ensures Accepted(st, order, Grouped(input))
  {
    GroupLinesTidy(input, |input|);
    var l := SomethingAsked(input, |input|);
    GroupedAsked(input, |input|, l);
  }

  /** The mutation: a refused input changes nothing, and the order plays no part in the checks. */
  function OrderFulfill(st: State, order: nat, input: seq<LineInput>): Result
    requires order < |st.orders| && InputAccepted(st, input)
  {
    GroupedAccepted(st, order, input);
    CreateFulfillments(st, order, Grouped(input))
  }
}
