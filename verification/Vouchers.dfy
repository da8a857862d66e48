/**
 A voucher's usage counter and its per-customer records.
 */
module Vouchers {
  import opened Ledger

  datatype Voucher = Voucher(used: int, limit: Option<nat>, oncePerCustomer: bool, customers: set<string>)

  /** The `active` filter, evaluated on the locked row; `inWindow` says that today is within its dates. */
  predicate IsActive(v: Voucher, inWindow: bool) {
    (v.limit.None? || v.used < v.limit.value) && inWindow
  }

  datatype Reservation = NotFound | Refused | Reserved

  /** `_get_voucher_data_for_order`: count one use, then record the customer. The count stays when the
      customer turns out to have used the voucher before. */
  function Reserve(v: Voucher, inWindow: bool, email: string): (Voucher, Reservation) {
    if !IsActive(v, inWindow) then (v, NotFound)
    else if !v.oncePerCustomer then (v.(used := v.used + 1), Reserved)
    else if email in v.customers then (v.(used := v.used + 1), Refused)
    else (v.(used := v.used + 1, customers := v.customers + {email}), Reserved)
  }

  /** `release_voucher_usage`: the customer's record goes whatever kind of voucher it is. */
  function GiveBack(v: Voucher, email: string): Voucher {
    v.(used := v.used - 1, customers := v.customers - {email})
  }

  /** Which reservations succeed, and what each leaves: a use is counted within the dates and below the limit only, and
      a record is made of successful reservations of once-per-customer vouchers only. */
  lemma {:induction false} ReserveMeans(v: Voucher, inWindow: bool, email: string)
    ensures var (next, r) := Reserve(v, inWindow, email);
            var usable := inWindow && (v.limit.Some? ==> v.used < v.limit.value);
            && (r == NotFound <==> !usable)
            && (r == Refused <==> usable && v.oncePerCustomer && email in v.customers)
            && next.used == v.used + (if usable then 1 else 0)
            && (forall e :: e in next.customers
                  <==> e in v.customers || (e == email && r == Reserved && v.oncePerCustomer))
            && next.limit == v.limit && next.oncePerCustomer == v.oncePerCustomer
  {
  }

  /** Giving back a reservation restores the counter, and the customer records exactly when the voucher is
      once per customer or the customer had none. */
  lemma {:induction false} GiveBackRestores(v: Voucher, inWindow: bool, email: string)
    requires Reserve(v, inWindow, email).1 == Reserved
    ensures var back := GiveBack(Reserve(v, inWindow, email).0, email);
            && back == v.(customers := v.customers - {email})
            && (back == v <==> v.oncePerCustomer || email !in v.customers)
  {
  }

  /** A reservation that fails counts a use all the same exactly when the voucher was active, is once per
      customer and this customer already has a record. */
  lemma {:induction false} FailedReservationLeaks(v: Voucher, inWindow: bool, email: string)
    requires Reserve(v, inWindow, email).1 != Reserved
    ensures Reserve(v, inWindow, email).0 != v
       <==> IsActive(v, inWindow) && v.oncePerCustomer && email in v.customers
  {
  }

  // ----- interleaved checkouts -----

  /** The voucher, the checkouts that hold a use they may still give back, each with its customer, and the customers of
      the checkouts that were finished. */
  datatype Usage = Usage(voucher: Voucher, holders: map<nat, string>, finished: seq<string>)

  datatype Event =
    | Start(checkout: nat, inWindow: bool, email: string)
    | Fail(checkout: nat)
    | Finish(checkout: nat)

  function Next(u: Usage, e: Event): Usage {
    match e
    case Start(c, inWindow, email) =>
      if c in u.holders then u
      else
        var (v, r) := Reserve(u.voucher, inWindow, email);
        u.(voucher := v, holders := if r == Reserved then u.holders[c := email] else u.holders)
    case Fail(c) =>
      if c in u.holders then u.(voucher := GiveBack(u.voucher, u.holders[c]), holders := u.holders - {c}) else u
    case Finish(c) =>
      if c in u.holders then u.(holders := u.holders - {c}, finished := u.finished + [u.holders[c]]) else u
  }

  function Play(u: Usage, events: seq<Event>): Usage
    decreases |events|
  {
    if events == [] then u else Play(Next(u, events[0]), events[1..])
  }

  /** Uses held or made, all of them counted; and no more counted than the limit allows. */
  ghost predicate WithinLimit(u: Usage) {
    && |u.holders| + |u.finished| <= u.voucher.used
    && (u.voucher.limit.Some? ==> u.voucher.used <= u.voucher.limit.value)
  }

  lemma {:induction false} SizeWith(m: map<nat, string>, c: nat, email: string)
    requires c !in m
    ensures |m[c := email]| == |m| + 1
  {
  }

  lemma {:induction false} SizeWithout(m: map<nat, string>, c: nat)
    requires c in m
    ensures |m - {c}| == |m| - 1
  {
    SizeWith(m - {c}, c, m[c]);
    assert m == (m - {c})[c := m[c]];
  }

  lemma {:induction false} StartKeeps(u: Usage, c: nat, inWindow: bool, email: string)
    requires WithinLimit(u)
    ensures WithinLimit(Next(u, Start(c, inWindow, email)))
  {
    if c !in u.holders {
      SizeWith(u.holders, c, email);
      ReserveMeans(u.voucher, inWindow, email);
      hide Reserve;
    }
  }

  lemma {:induction false} NextKeeps(u: Usage, e: Event)
    requires WithinLimit(u)
    ensures WithinLimit(Next(u, e))
  {
    if e.Start? {
      StartKeeps(u, e.checkout, e.inWindow, e.email);
    } else if e.checkout in u.holders {
      hide Reserve;
      SizeWithout(u.holders, e.checkout);
    }
  }

  /** Over every interleaving of checkouts starting, failing and finishing, a voucher is never used more often
      than its limit allows, and every use held or made is counted. */
  lemma {:induction false} LimitKept(u: Usage, events: seq<Event>)
    requires WithinLimit(u)
    ensures WithinLimit(Play(u, events)) && Play(u, events).voucher.used >= 0
    decreases |events|
  {
    if events != [] {
      NextKeeps(u, events[0]);
      LimitKept(Next(u, events[0]), events[1..]);
    }
  }

  /** Of a once-per-customer voucher: customers with a use, held or made, are different, and all are on record. */
  ghost predicate OnceEach(u: Usage) {
    && u.voucher.oncePerCustomer
    && (forall c | c in u.holders :: u.holders[c] in u.voucher.customers && u.holders[c] !in u.finished)
    && (forall c, d | c in u.holders && d in u.holders && c != d :: u.holders[c] != u.holders[d])
    && (forall i | 0 <= i < |u.finished| :: u.finished[i] in u.voucher.customers)
    && (forall i, j | 0 <= i < j < |u.finished| :: u.finished[i] != u.finished[j])
  }

  lemma {:induction false} NextOnceEach(u: Usage, e: Event)
    requires OnceEach(u)
    ensures OnceEach(Next(u, e))
  {
  }

  /** Over every interleaving, no customer uses a once-per-customer voucher twice, in one checkout after the other or
      in two at the same time. */
  lemma {:induction false} OncePerCustomer(u: Usage, events: seq<Event>)
    requires OnceEach(u)
    ensures OnceEach(Play(u, events))
    decreases |events|
  {
    if events != [] {
      NextOnceEach(u, events[0]);
      OncePerCustomer(Next(u, events[0]), events[1..]);
    }
  }

  // ----- what the two defects lead to -----

  /** A voucher for two uses, once per customer. The customer uses it, comes back and is refused: the second use is
      gone as well, and another customer is turned away. */
  lemma {:induction false} RefusedUseCounted()
    ensures var first := Play(Usage(Voucher(0, Some(2), true, {}), map[], []), [Start(1, true, "a"), Finish(1)]);
            var second := Next(first, Start(2, true, "a"));
            && first.voucher.used == 1 && Reserve(first.voucher, true, "a").1 == Refused
            && second.voucher.used == 2 && second.holders == map[] && second.finished == ["a"]
            && Reserve(second.voucher, true, "b").1 == NotFound
  {
    var start := Usage(Voucher(0, Some(2), true, {}), map[], []);
    var events := [Start(1, true, "a"), Finish(1)];
    assert events[1..] == [Finish(1)] && [Finish(1)][1..] == [];
    assert Play(start, events) == Next(Next(start, events[0]), Finish(1));
    assert Next(Next(start, events[0]), Finish(1)).holders == map[];
  }

  /** The voucher is for once per customer, then for everybody, then once per customer again. A customer who used it in
      the first period and whose checkout fails in the second can use it again in the third. */
  lemma {:induction false} RecordLost()
    ensures var used := Reserve(Voucher(0, None, true, {}), true, "a").0;
            var forAll := used.(oncePerCustomer := false);
            var failed := GiveBack(Reserve(forAll, true, "a").0, "a");
            && Reserve(used, true, "a").1 == Refused
            && failed.used == used.used
            && Reserve(failed.(oncePerCustomer := true), true, "a").1 == Reserved
  {
  }
}
