/**
 The lifecycle driven on the database object: every sequence of requests is a run of the state machine.
 */
module Service {
  import opened Ledger
  import opened Store
  import opened Lifecycle
  import opened Requests
  import opened Runs

  /** One request, with the check its mutation makes first. */
  method Handle(db: Database, op: Op)
    modifies db
    ensures db.State() == Step(old(db.State()), op)
  {
    match op
    case PlaceOp(zone, items) =>
      var _ := db.CreateOrder(zone, items);
    case FulfillOp(order, input) =>
      var cleaned := CleanInput(db.State(), input);
      if order < |db.orders| && cleaned.Some? {
        GroupedAccepted(db.State(), order, input);
        var _ := db.CreateFulfillments(order, cleaned.value);
      }
    case CancelFulfillmentOp(f, warehouse) =>
      if CanEdit(db.State(), f) { db.CancelFulfillment(f, warehouse); }
    case CancelOrderOp(order) =>
      if CanCancel(db.State(), order) { db.CancelOrder(order); }
  }

  /** Any number of requests, one after the other. */
  method HandleAll(db: Database, ops: seq<Op>)
    modifies db
    ensures db.State() == Run(old(db.State()), ops)
    ensures Safe(old(db.State())) ==> Safe(db.State())
    ensures Inv(old(db.State())) && NoneBreaks(old(db.State()), ops, |ops|) ==> Inv(db.State())
  {
    ghost var start := db.State();
    var i: nat := 0;
    while i < |ops|
      invariant i <= |ops| && db.State() == Before(start, ops, i)
    {
      RunOn(start, ops, i);
      Handle(db, ops[i]);
      i := i + 1;
    }
    assert ops[..|ops|] == ops;
    if Safe(start) { RunKeepsSafe(start, ops); }
    if Inv(start) && NoneBreaks(start, ops, |ops|) { InvUpTo(start, ops, |ops|); }
  }
}
