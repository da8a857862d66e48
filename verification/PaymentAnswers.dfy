/**
 Gateway operations and their answers: which calls reach the gateway, what they ask for, how an answer is recorded, and
 that an answer reported again counts once.
 */
module PaymentAnswers {
  import opened Ledger
  import opened Payments
  import opened PaymentLaws
  import opened PaymentBooks

  // ----- what is asked of the gateway -----

  /** The call gets past the decorators and the checks on the locked row. */
  predicate Reaches(p: Payment, call: Call) {
    && call.snapshot
    && match call
       case ProcessPayment(_, _, _) => true
       case ConfirmCall(_, _) => true
       case Authorize(_, _, _) => p.active && p.status == NotCharged
       case CaptureCall(_, requested, _) =>
         var amount := if requested.Some? then requested.value else p.total - p.captured;
         && 0 < amount <= p.total - p.captured && amount <= p.total && p.active && p.status == NotCharged
         && exists t | t in p.txns :: t.kind == Auth && t.success
       case RefundCall(_, requested, _) =>
         var amount := if requested.Some? then requested.value else p.captured;
         && 0 < amount <= p.captured && p.active && !p.manual
         && (p.status == PartiallyCharged || p.status == FullyCharged || p.status == PartiallyRefunded)
         && exists t | t in p.txns :: t.kind == Capture && t.success
       case VoidCall(_, _) => exists t | t in p.txns :: t.kind == Auth && t.success
  }

  /** Transaction i is the last successful one of a kind. */
  predicate LastOf(txns: seq<Transaction>, kind: Kind, i: nat) {
    && i < |txns| && txns[i].kind == kind && txns[i].success
    && forall j | i < j < |txns| :: txns[j].kind != kind || !txns[j].success
  }

  /** The token of the last successful transaction of a kind, 0 when there is none. */
  ghost predicate LastToken(txns: seq<Transaction>, kind: Kind, token: nat) {
    || (exists i: nat :: LastOf(txns, kind, i) && txns[i].token == token)
    || (token == 0 && forall t | t in txns :: t.kind != kind || !t.success)
  }

  lemma {:induction false} PastTokenLast(txns: seq<Transaction>, kind: Kind)
    ensures LastToken(txns, kind, PastToken(txns, kind))
  {
    if txns != [] {
      var n := |txns| - 1;
      if txns[n].kind == kind && txns[n].success {
        assert LastOf(txns, kind, n);
      } else {
        PastTokenLast(txns[..n], kind);
        if i: nat :| LastOf(txns[..n], kind, i) && txns[i].token == PastToken(txns[..n], kind) {
          assert LastOf(txns, kind, i);
        }
      }
    }
  }

  /** What a call asks the gateway for: captures refer to the authorization, refunds to the capture, voids to the
      authorization and confirmations to the action that is to be confirmed. */
  lemma {:induction false} AskedOfGateway(p: Payment, call: Call)
    ensures var query := QueryOf(p, call);
            match call
            case ProcessPayment(_, token, _) => query == Query(Capture, p.total, token, true)
            case Authorize(_, token, _) => query == Query(Auth, p.total, token, false)
            case CaptureCall(_, requested, _) =>
              && query.kind == Capture && LastToken(p.txns, Auth, query.token) && !query.mayRequireAction
              && query.amount == if requested.Some? then requested.value else p.total - p.captured
            case RefundCall(_, requested, _) =>
              && query.kind == Refund && LastToken(p.txns, Capture, query.token) && !query.mayRequireAction
              && query.amount == if requested.Some? then requested.value else p.captured
            case VoidCall(_, _) =>
              && query.kind == Void && LastToken(p.txns, Auth, query.token) && !query.mayRequireAction
              && query.amount == p.total
            case ConfirmCall(_, _) =>
              && query.kind == Confirm && LastToken(p.txns, ActionToConfirm, query.token) && query.mayRequireAction
              && query.amount == p.total
  {
    PastTokenLast(p.txns, Auth);
    PastTokenLast(p.txns, Capture);
    PastTokenLast(p.txns, ActionToConfirm);
    hide PastToken, LastToken;
  }

  // ----- how an answer is recorded -----

  /** Answers of these kinds are accepted from gateways. */
  predicate Acceptable(kind: Kind) {
    kind in {Auth, Pending, ActionToConfirm, Refund, RefundOngoing, Capture, Void, Confirm, Cancel}
  }

  /** The transaction has the answer's fields. */
  predicate HasFields(t: Transaction, r: Response) {
    && t.kind == r.kind && t.amount == r.amount && t.token == r.token
    && t.success == r.success && t.actionRequired == r.actionRequired
  }

  lemma {:induction false} NoneFound(txns: seq<Transaction>, r: Response)
    requires forall t | t in txns :: !HasFields(t, r)
    ensures FindTxn(txns, r).None?
  {
    if txns != [] {
      assert txns[|txns| - 1] in txns;
      NoneFound(txns[..|txns| - 1], r);
    }
  }

  /** Handling marks the transaction and changes no other; doing it again changes neither. */
  lemma {:induction false} RecordedOnce(p: Payment, i: nat)
    requires i < |p.txns|
    ensures var t := p.txns[i];
            var marked := p.txns[i := t.(processed := t.processed || (t.success && !t.actionRequired))];
            Settle(p, i).txns == marked && Settle(Settle(p, i), i).txns == marked
  {
    AppliedFrame(p, p.txns[i].kind, p.txns[i].amount);
    SettleSpent(p, i);
    hide Applied;
    var once := Settle(p, i);
    assert Spent(once, i);
  }

  /** The transaction an answer leaves: its fields, the action flag for `process_payment` and `confirm` only; without
      an acceptable answer, an unsuccessful one of what was asked for. It is processed at once if it was successful and
      needs no action. */
  ghost predicate Records(t: Transaction, call: Call, query: Query) {
    && (if call.response.Some? && Acceptable(call.response.value.kind)
        then
          var r := call.response.value;
          && t.kind == r.kind && t.amount == r.amount && t.token == r.token && t.success == r.success
          && t.actionRequired == (r.actionRequired && (call.ProcessPayment? || call.ConfirmCall?))
        else
          && t.kind == query.kind && t.amount == query.amount && t.token == query.token
          && !t.success && !t.actionRequired)
    && t.processed == (t.success && !t.actionRequired)
  }

  /** What is on the books before the answer is handled. */
  lemma {:induction false} AnswerBooked(p: Payment, call: Call)
    requires call.response.Some? && call.response.value.already && Acceptable(call.response.value.kind) ==>
               forall t | t in p.txns :: !HasFields(t, call.response.value)
    ensures var query, response := QueryOf(p, call), Validated(call.response);
            var t := NewTxn(query, response);
            && Booked(p, query, response) == (p.(txns := p.txns + [t]), |p.txns|)
            && !t.processed && Records(t.(processed := t.success && !t.actionRequired), call, query)
  {
    var response := Validated(call.response);
    if response.Some? && response.value.already { NoneFound(p.txns, response.value); }
    hide FindTxn;
  }

  /** A call that is refused leaves the row alone and is an error. One that is not, with an answer that was not reported
      before or that no transaction matches, adds exactly one transaction, and is an error if that is unsuccessful. */
  lemma {:induction false} AnswerRecorded(p: Payment, call: Call)
    requires call.response.Some? && call.response.value.already && Acceptable(call.response.value.kind) ==>
               forall t | t in p.txns :: !HasFields(t, call.response.value)
    ensures var (next, reply) := Called(p, call);
            if !Reaches(p, call) then (next, reply) == (p, PaymentError)
            else
              && |next.txns| == |p.txns| + 1 && next.txns[..|p.txns|] == p.txns
              && Records(next.txns[|p.txns|], call, QueryOf(p, call))
              && reply == if next.txns[|p.txns|].success then Done(|p.txns|) else PaymentError
  {
    assert Reaches(p, call) <==> call.snapshot && Admitted(p, call);
    if Reaches(p, call) {
      AnswerBooked(p, call);
      RecordedOnce(Booked(p, QueryOf(p, call), Validated(call.response)).0, |p.txns|);
      hide Settle, Booked, NewTxn, Reaches, Admitted, Records, QueryOf;
    }
  }

  // ----- an answer reported again -----

  /** Successful transactions that need no action have been processed. */
  ghost predicate AllHandled(p: Payment) {
    forall k | 0 <= k < |p.txns| :: p.txns[k].success && !p.txns[k].actionRequired ==> p.txns[k].processed
  }

  lemma {:induction false} FoundMatches(txns: seq<Transaction>, r: Response)
    requires exists t | t in txns :: HasFields(t, r)
    ensures FindTxn(txns, r).Some? && HasFields(txns[FindTxn(txns, r).value], r)
    ensures forall j | FindTxn(txns, r).value < j < |txns| :: !HasFields(txns[j], r)
  {
    var n := |txns| - 1;
    if !Matches(txns[n], r) { FoundMatches(txns[..n], r); }
  }

  /** Reported again and on the books. */
  predicate Known(p: Payment, call: Call) {
    && call.response.Some? && call.response.value.already && Acceptable(call.response.value.kind)
    && exists t | t in p.txns :: HasFields(t, call.response.value)
  }

  /** An answer that the row holds already and that is reported as such adds nothing and moves nothing, whatever call it
      answers; only if it asks for an action, that is asked for again. */
  lemma {:induction false} KnownAnswer(p: Payment, call: Call)
    requires AllHandled(p) && Known(p, call)
    ensures var r := call.response.value;
            Called(p, call).0
            == if Reaches(p, call) && r.success && r.actionRequired then p.(toConfirm := true) else p
  {
    assert Reaches(p, call) <==> call.snapshot && Admitted(p, call);
    if Reaches(p, call) {
      FoundMatches(p.txns, call.response.value);
      hide FindTxn, Admitted, Reaches, QueryOf, Applied;
    }
  }

  // ----- whole runs -----

  lemma {:induction false} SettleHandles(p: Payment, i: nat)
    requires i < |p.txns|
    requires forall k | 0 <= k < |p.txns| && k != i ::
               p.txns[k].success && !p.txns[k].actionRequired ==> p.txns[k].processed
    ensures AllHandled(Settle(p, i)) && |Settle(p, i).txns| == |p.txns|
  {
    RecordedOnce(p, i);
    hide Settle;
  }

  /** Every entry handles what it records. */
  lemma {:induction false} EntryHandles(p: Payment, e: Entry)
    requires AllHandled(p)
    ensures AllHandled(Entered(p, e))
  {
    match e {
      case Notice(t) => SettleHandles(Received(p, t), |p.txns|);
      case Operation(call) =>
        if call.snapshot && Admitted(p, call) {
          var (booked, i) := Booked(p, QueryOf(p, call), Validated(call.response));
          SettleHandles(booked, i);
          SettleHandles(Settle(booked, i), i);
          hide Settle, Admitted, QueryOf;
        }
    }
  }

  /** A processed transaction stays on the books. */
  lemma {:induction false} EntryKeeps(p: Payment, e: Entry, t: Transaction)
    requires t in p.txns && t.processed
    ensures t in Entered(p, e).txns
  {
    var k :| 0 <= k < |p.txns| && p.txns[k] == t;
    match e {
      case Notice(n) =>
        RecordedOnce(Received(p, n), |p.txns|);
        assert Entered(p, e).txns[k] == t;
      case Operation(call) =>
        if call.snapshot && Admitted(p, call) {
          var (booked, i) := Booked(p, QueryOf(p, call), Validated(call.response));
          RecordedOnce(booked, i);
          hide Settle, Admitted, QueryOf;
          assert Entered(p, e).txns[k] == t;
        }
    }
  }

  /** The entry delivers an answer again whose transaction was processed. */
  ghost predicate Echo(p: Payment, e: Entry) {
    && e.Operation? && e.call.response.Some? && e.call.response.value.already
    && exists t | t in p.txns :: t.processed && t.success && !t.actionRequired && Acceptable(t.kind)
                                && HasFields(t, e.call.response.value)
  }

  lemma {:induction false} EchoSilent(p: Payment, e: Entry)
    requires AllHandled(p) && Echo(p, e)
    ensures Entered(p, e) == p
  {
    KnownAnswer(p, e.call);
  }

  /** The run without the answers that were delivered again. */
  ghost function WithoutEchoes(p: Payment, entries: seq<Entry>): seq<Entry>
    decreases |entries|
  {
    if entries == [] then []
    else if Echo(p, entries[0]) then WithoutEchoes(p, entries[1..])
    else [entries[0]] + WithoutEchoes(Entered(p, entries[0]), entries[1..])
  }

  /** Processed answers may be delivered again, by any call, any number of times and at any later point of a run: it
      ends as if each had been delivered once. */
  lemma {:induction false} EchoesHarmless(p: Payment, entries: seq<Entry>)
    requires AllHandled(p)
    ensures EnterAll(p, entries) == EnterAll(p, WithoutEchoes(p, entries))
    decreases |entries|
  {
    if entries != [] {
      hide Echo, AllHandled, Entered;
      if Echo(p, entries[0]) {
        EchoSilent(p, entries[0]);
        EchoesHarmless(p, entries[1..]);
      } else {
        EntryHandles(p, entries[0]);
        EchoesHarmless(Entered(p, entries[0]), entries[1..]);
        assert WithoutEchoes(p, entries)[1..] == WithoutEchoes(Entered(p, entries[0]), entries[1..]);
      }
    }
  }

  /** Once an answer's transaction was processed, delivering the answer again is an echo ever after. */
  lemma {:induction false} EchoEverAfter(p: Payment, entries: seq<Entry>, t: Transaction, call: Call)
    requires t in p.txns && t.processed && t.success && !t.actionRequired && Acceptable(t.kind)
    requires call.response == Some(Response(t.kind, t.amount, true, false, t.token, true))
    ensures Echo(EnterAll(p, entries), Operation(call))
    decreases |entries|
  {
    if entries != [] {
      EntryKeeps(p, entries[0], t);
      EchoEverAfter(Entered(p, entries[0]), entries[1..], t, call);
    }
  }

  // ----- authorizations -----

  /** The first authorization of a payment makes it voidable exactly when it requires no action. */
  lemma {:induction false} AuthorizationVoidable(p: Payment, token: nat, r: Response)
    requires p.active && p.status == NotCharged && r.kind == Auth && r.success && !r.already
    requires forall t | t in p.txns :: t.kind != Auth || !t.success || t.actionRequired
    ensures CanVoid(Called(p, ProcessPayment(true, token, Some(r))).0) <==> !r.actionRequired
  {
    var call := ProcessPayment(true, token, Some(r));
    AnswerRecorded(p, call);
    var next := Called(p, call).0;
    assert next.active && next.status == NotCharged;
    hide Called;
    assert forall t :: t in next.txns <==> t in p.txns || t == next.txns[|p.txns|] by {
      assert next.txns == p.txns + [next.txns[|p.txns|]];
    }
  }

  /** `payment_refund_or_void` refunds everything captured where money was charged through a gateway, voids an
      authorization that needs no more action where nothing was charged, and otherwise does nothing. */
  lemma {:induction false} GiveBackMeans(p: Payment, response: Option<Response>)
    ensures var charged := p.status == PartiallyCharged || p.status == FullyCharged || p.status == PartiallyRefunded;
            var authorized := exists t | t in p.txns :: t.kind == Auth && t.success && !t.actionRequired;
            RefundOrVoid(p, response)
            == if p.active && charged && !p.manual then Called(p, RefundCall(true, None, response))
               else if p.active && p.status == NotCharged && authorized then Called(p, VoidCall(true, response))
               else (p, Done(0))
  {
    hide Called;
  }

  /** Money recorded by hand never goes back through a gateway. */
  lemma {:induction false} ManualStays(p: Payment, call: Call, response: Option<Response>)
    requires p.manual && call.RefundCall?
    ensures !CanRefund(p) && Called(p, call) == (p, PaymentError)
    ensures p.status != NotCharged ==> RefundOrVoid(p, response) == (p, Done(0))
  {
  }

  /** Without an amount, `capture` takes all that is open and `refund` all that was captured. */
  lemma {:induction false} DefaultAmounts(p: Payment, r: Response)
    requires r.success && !r.already
    ensures var capture := CaptureCall(true, None, Some(r));
            Reaches(p, capture) && r.kind == Capture && r.amount == p.total - p.captured ==>
              Called(p, capture).0.captured == p.total && Called(p, capture).0.status == FullyCharged
    ensures var refund := RefundCall(true, None, Some(r));
            Reaches(p, refund) && r.kind == Refund && r.amount == p.captured ==>
              Called(p, refund).0.captured == 0 && Called(p, refund).0.status == FullyRefunded
  {
    var capture, refund := CaptureCall(true, None, Some(r)), RefundCall(true, None, Some(r));
    assert Reaches(p, capture) ==> Admitted(p, capture);
    assert Reaches(p, refund) ==> Admitted(p, refund);
    if Reaches(p, capture) && r.kind == Capture && r.amount == p.total - p.captured {
      CaptureCountsOnce(p, capture, r);
    }
    if Reaches(p, refund) && r.kind == Refund && r.amount == p.captured {
      RefundCountsOnce(p, refund, r);
    }
  }
}
