/**
 A payment row told from its history: what charge status, activity and pending confirmation every mixture of gateway
 operations and notifications leaves.
 */
module PaymentHistory {
  import opened Ledger
  import opened Payments
  import opened PaymentLaws
  import opened PaymentBooks

  /** A successful transaction at the time it was handled: whether it asked the customer for an action, whether the
      payment was in a charged status before, and how much was captured afterwards. */
  datatype Moment = Moment(kind: Kind, action: bool, charged: bool, captured: int)

  function HandledOn(p: Payment, i: nat): seq<Moment>
    requires i < |p.txns|
  {
    var t := p.txns[i];
    if t.success && (t.actionRequired || !t.processed)
    then [Moment(t.kind, t.actionRequired, p.status in {PartiallyCharged, FullyCharged}, Settle(p, i).captured)]
    else []
  }

  /** What one entry handles; `capture` has its transaction handled twice. */
  function Handled(p: Payment, e: Entry): seq<Moment> {
    match e
    case Notice(t) => HandledOn(Received(p, t), |p.txns|)
    case Operation(call) =>
      if !call.snapshot || !Admitted(p, call) then []
      else
        var (booked, i) := Booked(p, QueryOf(p, call), Validated(call.response));
        var once := Settle(booked, i);
        HandledOn(booked, i)
        + if call.CaptureCall? && booked.txns[i].success && i < |once.txns| then HandledOn(once, i) else []
  }

  function History(p: Payment, entries: seq<Entry>): seq<Moment>
    decreases |entries|
  {
    if entries == [] then [] else Handled(p, entries[0]) + History(Entered(p, entries[0]), entries[1..])
  }

  // ----- what the history says -----

  predicate SetsStatus(m: Moment) {
    && !m.action
    && (m.kind in {Capture, RefundReversed, Refund, Pending, Cancel} || (m.kind == CaptureFailed && m.charged))
  }

  /** The status that a moment leaves. */
  function Says(m: Moment, total: nat): ChargeStatus {
    match m.kind
    case Pending => Awaiting
    case Cancel => Cancelled
    case Refund => if m.captured <= 0 then FullyRefunded else PartiallyRefunded
    case CaptureFailed => if m.captured <= 0 then NotCharged else PartiallyCharged
    case _ => if m.captured >= total then FullyCharged else PartiallyCharged
  }

  /** The status that the last moment to set one leaves. */
  function LastStatus(start: ChargeStatus, total: nat, history: seq<Moment>): ChargeStatus {
    if history == [] then start
    else
      var m := history[|history| - 1];
      if SetsStatus(m) then Says(m, total) else LastStatus(start, total, history[..|history| - 1])
  }

  /** The customer is asked for an action as long as that was the last thing that succeeded. */
  predicate LastAction(start: bool, history: seq<Moment>) {
    if history == [] then start else history[|history| - 1].action
  }

  predicate Ends(m: Moment) {
    !m.action && (m.kind == Void || (m.kind == Refund && m.captured <= 0))
  }

  /** The row agrees with what its history says. */
  ghost predicate Tells(p: Payment, history: seq<Moment>, next: Payment) {
    && next.total == p.total
    && next.status == LastStatus(p.status, p.total, history)
    && next.toConfirm == LastAction(p.toConfirm, history)
    && (next.active <==> p.active && forall k | 0 <= k < |history| :: !Ends(history[k]))
  }

  lemma {:induction false} LastStatusAppend(start: ChargeStatus, total: nat, a: seq<Moment>, b: seq<Moment>)
    ensures LastStatus(start, total, a + b) == LastStatus(LastStatus(start, total, a), total, b)
  {
    if b == [] {
      assert a + b == a;
    } else {
      assert (a + b)[..|a + b| - 1] == a + b[..|b| - 1];
      LastStatusAppend(start, total, a, b[..|b| - 1]);
    }
  }

  lemma {:induction false} TellsOn(p: Payment, a: seq<Moment>, mid: Payment, b: seq<Moment>, next: Payment)
    requires Tells(p, a, mid) && Tells(mid, b, next)
    ensures Tells(p, a + b, next)
  {
    LastStatusAppend(p.status, p.total, a, b);
    hide SetsStatus, Says, Ends, LastStatus;
    assert forall k | 0 <= k < |a| :: (a + b)[k] == a[k];
    assert forall k | 0 <= k < |b| :: (a + b)[|a| + k] == b[k];
    if b == [] { assert a + b == a; }
  }

  lemma {:induction false} AppliedTells(p: Payment, kind: Kind, amount: int)
    ensures var next := Applied(p, kind, amount);
            var m := Moment(kind, false, p.status == PartiallyCharged || p.status == FullyCharged, next.captured);
            && next.total == p.total && next.toConfirm == p.toConfirm
            && next.status == (if SetsStatus(m) then Says(m, p.total) else p.status)
            && (next.active <==> p.active && !Ends(m))
  {
  }

  lemma {:induction false} SettleTells(p: Payment, i: nat)
    requires i < |p.txns|
    ensures Tells(p, HandledOn(p, i), Settle(p, i))
  {
    var t, h := p.txns[i], HandledOn(p, i);
    AppliedTells(p, t.kind, t.amount);
    hide Applied, SetsStatus, Says;
    if t.success && !t.actionRequired && !t.processed {
      assert h[..0] == [] && LastStatus(p.status, p.total, h[..0]) == p.status;
    } else if h != [] {
      ActionSetsNothing(p.status, p.total, h[0]);
    }
  }

  lemma {:induction false} ActionSetsNothing(start: ChargeStatus, total: nat, m: Moment)
    requires m.action
    ensures LastStatus(start, total, [m]) == start && !Ends(m)
  {
    assert [m][..0] == [];
  }

  lemma {:induction false} SettleSize(p: Payment, i: nat)
    requires i < |p.txns|
    ensures |Settle(p, i).txns| == |p.txns|
  {
    AppliedFrame(p, p.txns[i].kind, p.txns[i].amount);
    hide Applied;
  }

  lemma {:induction false} EntryTells(p: Payment, e: Entry)
    ensures Tells(p, Handled(p, e), Entered(p, e))
  {
    match e {
      case Notice(t) => SettleTells(Received(p, t), |p.txns|);
      case Operation(call) =>
        if call.snapshot && Admitted(p, call) {
          var (booked, i) := Booked(p, QueryOf(p, call), Validated(call.response));
          var once := Settle(booked, i);
          SettleSize(booked, i);
          SettleTells(booked, i);
          SettleTells(once, i);
          hide Settle, HandledOn, Admitted, QueryOf, LastStatus, LastAction, Ends;
          if call.CaptureCall? && booked.txns[i].success {
            TellsOn(booked, HandledOn(booked, i), once, HandledOn(once, i), Settle(once, i));
          }
        }
    }
  }

  /** Over every run, with arbitrary gateways and callers: the status is what the last transaction to set one says,
      the row is active as long as nothing was voided or refunded in full, and the customer is to act exactly when the
      last success asked for it. */
  lemma {:induction false} HistoryTells(p: Payment, entries: seq<Entry>)
    ensures Tells(p, History(p, entries), EnterAll(p, entries))
    decreases |entries|
  {
    hide Entered, Handled, LastStatus, LastAction, Ends;
    if entries == [] {
      NothingTold(p);
    } else {
      EntryTells(p, entries[0]);
      var mid := Entered(p, entries[0]);
      HistoryTells(mid, entries[1..]);
      TellsOn(p, Handled(p, entries[0]), mid, History(mid, entries[1..]), EnterAll(mid, entries[1..]));
    }
  }

  lemma {:induction false} NothingTold(p: Payment)
    ensures Tells(p, [], p)
  {
  }

  /** The moment at k set the status, and none after it did. */
  ghost predicate LastSetter(history: seq<Moment>, k: nat) {
    k < |history| && SetsStatus(history[k]) && forall j | k < j < |history| :: !SetsStatus(history[j])
  }

  lemma {:induction false} LastStatusMeans(start: ChargeStatus, total: nat, history: seq<Moment>)
    ensures (exists k: nat :: LastSetter(history, k) && LastStatus(start, total, history) == Says(history[k], total))
            || (LastStatus(start, total, history) == start
                && forall j | 0 <= j < |history| :: !SetsStatus(history[j]))
  {
    if history != [] {
      var n := |history| - 1;
      if SetsStatus(history[n]) {
        assert LastSetter(history, n);
      } else {
        LastStatusMeans(start, total, history[..n]);
        if k: nat :| LastSetter(history[..n], k) && LastStatus(start, total, history[..n]) == Says(history[k], total) {
          assert LastSetter(history, k);
        }
      }
    }
  }

  /** From a new payment, the status is pending exactly when the last transaction to set one is a pending one, and
      cancelled exactly when it is a cancellation. */
  lemma {:induction false} PendingOrCancelled(p: Payment, entries: seq<Entry>)
    requires p.status == NotCharged
    ensures var history, end := History(p, entries), EnterAll(p, entries);
            && (end.status == Awaiting <==> exists k: nat :: LastSetter(history, k) && history[k].kind == Pending)
            && (end.status == Cancelled <==> exists k: nat :: LastSetter(history, k) && history[k].kind == Cancel)
  {
    HistoryTells(p, entries);
    LastStatusMeans(p.status, p.total, History(p, entries));
    hide History, EnterAll, LastStatus;
  }

  /** Authorizations, voids, pending, cancelled and confirming transactions move no captured money. */
  lemma {:induction false} MoneyUnmoved(p: Payment, i: nat)
    requires i < |p.txns| && p.txns[i].kind !in {Capture, RefundReversed, Refund, CaptureFailed}
    ensures Settle(p, i).captured == p.captured
  {
  }

  /** A failed capture of everything that was captured leaves the payment not charged. */
  lemma {:induction false} CaptureFailedWhole(p: Payment, t: Transaction)
    requires t.kind == CaptureFailed && t.success && !t.actionRequired && t.amount == p.captured
    requires p.status == PartiallyCharged || p.status == FullyCharged
    ensures var next := Entered(p, Notice(t));
            next.captured == 0 && next.status == NotCharged && next.active == p.active
  {
  }
}
