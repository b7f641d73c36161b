/** Whole runs of the digital shop: revocation sticks, tokens follow paid orders, the order of payments is irrelevant. */
module DigitalGoodsRuns {
  import opened Prelude
  import opened DigitalGoods

  datatype Op =
    | DoStock(id: string, item: Product)
    | DoOrder(id: string, provider: string, tenant: string, user: string, product: string, price: int, currency: string, now: int)
    | DoPay(payment: Payment, now: int)
    | DoIssue(hash: string, id: string, tenant: string, user: string, now: int, ttl: int)

  function Do(s: Shop, op: Op): Shop {
    match op
    case DoStock(id, p) => Stock(s, id, p)
    case DoOrder(id, provider, tenant, user, product, price, currency, now) =>
      PlaceOrder(s, id, provider, tenant, user, product, price, currency, now).0
    case DoPay(e, now) => Pay(s, e, now).0
    case DoIssue(hash, id, tenant, user, now, ttl) => IssueToken(s, hash, id, tenant, user, now, ttl).0
  }

  function Perform(s: Shop, ops: seq<Op>): Shop {
    if ops == [] then s else Do(Perform(s, ops[..|ops| - 1]), ops[|ops| - 1])
  }

  /** Only payments that the verifier can emit. */
  predicate Verified(op: Op) { op.DoPay? ==> op.payment.kind in ALLOWED }

  predicate AllVerified(ops: seq<Op>) { forall k :: 0 <= k < |ops| ==> Verified(ops[k]) }

  // ----- the invariant -----

  predicate OrderIndexed(s: Shop, id: string, o: Order) {
    o.id == id && o.product in s.products && o.provider in s.byProvider && s.byProvider[o.provider] == id
  }

  predicate Indexed(s: Shop) {
    && (forall id :: id in s.orders ==> OrderIndexed(s, id, s.orders[id]))
    && (forall p :: p in s.byProvider ==> s.byProvider[p] in s.orders && s.orders[s.byProvider[p]].provider == p)
    && (forall i :: 0 <= i < |s.log| ==> s.log[i].provider in s.byProvider)
  }

  /** A token carries its order's account, and while unrevoked the order is PAID. */
  predicate TokenOk(s: Shop, t: Token) {
    && t.order in s.orders
    && t.tenant == s.orders[t.order].tenant && t.user == s.orders[t.order].user && t.product == s.orders[t.order].product
    && (!t.revoked ==> s.orders[t.order].state == Paid)
  }

  predicate TokensOk(s: Shop) {
    forall h :: h in s.tokens ==> TokenOk(s, s.tokens[h])
  }

  /** What the logged rows of one provider order add up to. */
  function Fold(log: seq<PaymentRow>, provider: string): OrderState {
    if log == [] then Pending
    else
      var last, before := log[|log| - 1], Fold(log[..|log| - 1], provider);
      if last.provider != provider then before
      else if before == Revoked || Target(last.kind) == Some(Revoked) then Revoked
      else Paid
  }

  predicate StatesFold(s: Shop) {
    forall id :: id in s.orders ==> s.orders[id].state == Fold(s.log, s.orders[id].provider)
  }

  predicate Safe(s: Shop) { Indexed(s) && TokensOk(s) && StatesFold(s) }

  lemma FoldSnoc(log: seq<PaymentRow>, row: PaymentRow, provider: string)
    ensures Fold(log + [row], provider) ==
            (var before := Fold(log, provider);
             if row.provider != provider then before
             else if before == Revoked || Target(row.kind) == Some(Revoked) then Revoked
             else Paid)
  {
    assert (log + [row])[..|log|] == log;
  }

  lemma {:induction false} FoldAbsent(log: seq<PaymentRow>, provider: string)
    requires forall i :: 0 <= i < |log| ==> log[i].provider != provider
    ensures Fold(log, provider) == Pending
  {
    if log != [] { FoldAbsent(log[..|log| - 1], provider); }
  }

  lemma AllowedTargets(kind: string)
    requires kind in ALLOWED
    ensures Target(kind) == Some(Paid) || Target(kind) == Some(Revoked)
  {
  }

  lemma PaySafe(s: Shop, e: Payment, now: int)
    requires Safe(s) && e.kind in ALLOWED
    ensures Safe(Pay(s, e, now).0)
  {
    AllowedTargets(e.kind);
    hide Target;
    var s' := Pay(s, e, now).0;
    if s' != s {
      PaySafeStates(s, e, now);
      PaySafeTokens(s, e, now);
      hide TokensOk, StatesFold;
    }
  }

  lemma PaySafeStates(s: Shop, e: Payment, now: int)
    requires Indexed(s) && StatesFold(s) && (Target(e.kind) == Some(Paid) || Target(e.kind) == Some(Revoked))
    ensures StatesFold(Pay(s, e, now).0)
  {
    hide Target, RevokeTokens;
    var s' := Pay(s, e, now).0;
    if s' != s {
      forall id | id in s'.orders ensures s'.orders[id].state == Fold(s'.log, s'.orders[id].provider) {
        FoldSnoc(s.log, s'.log[|s.log|], s.orders[id].provider);
      }
    }
  }

  lemma PaySafeTokens(s: Shop, e: Payment, now: int)
    requires Indexed(s) && TokensOk(s) && (Target(e.kind) == Some(Paid) || Target(e.kind) == Some(Revoked))
    ensures TokensOk(Pay(s, e, now).0)
  {
    hide Target;
  }

  lemma OrderSafe(s: Shop, op: Op)
    requires Safe(s) && op.DoOrder?
    ensures Safe(Do(s, op))
  {
    hide Target;
    var s' := Do(s, op);
    if s' != s {
      FoldAbsent(s.log, op.provider);
    }
  }

  lemma OpSafe(s: Shop, op: Op)
    requires Safe(s) && Verified(op)
    ensures Safe(Do(s, op))
  {
    match op {
      case DoOrder(_, _, _, _, _, _, _, _) => OrderSafe(s, op);
      case DoPay(e, now) => PaySafe(s, e, now);
      case _ =>
    }
    hide Target, Pay, PlaceOrder;
  }

  /** With the verifier's events: every unrevoked token belongs to a PAID order of its account, and states fold the log. */
  lemma {:induction false} RunsStaySafe(ops: seq<Op>)
    requires AllVerified(ops)
    ensures Safe(Perform(EMPTY, ops))
  {
    hide Do;
    if ops != [] {
      RunsStaySafe(ops[..|ops| - 1]);
      OpSafe(Perform(EMPTY, ops[..|ops| - 1]), ops[|ops| - 1]);
    }
  }

  /** So the second look at the order never refuses a download that the token allows. */
  lemma RecheckNeverFires(ops: seq<Op>, hash: string, tenant: string, user: string, now: int)
    requires AllVerified(ops)
    ensures var s := Perform(EMPTY, ops);
            var r := Download(s, hash, tenant, user, now);
            && r != Err(NotEntitled) && r != Err(NoProduct)
            && (r.Ok? <==> hash in s.tokens && !s.tokens[hash].revoked && s.tokens[hash].tenant == tenant
                           && s.tokens[hash].user == user && now < s.tokens[hash].expires)
  {
    RunsStaySafe(ops);
    var s := Perform(EMPTY, ops);
    if hash in s.tokens { assert TokenOk(s, s.tokens[hash]); }
    hide Perform;
  }

  // ----- revocation sticks, rows stay -----

  predicate Keeps(s: Shop, s': Shop) {
    && (forall id :: id in s.orders ==> id in s'.orders && (s.orders[id].state == Revoked ==> s'.orders[id].state == Revoked))
    && (forall h :: h in s.tokens ==> h in s'.tokens && (s.tokens[h].revoked ==> s'.tokens[h].revoked))
    && (forall p :: p in s.payments ==> p in s'.payments && s'.payments[p] == s.payments[p])
  }

  lemma OpKeeps(s: Shop, op: Op)
    requires Verified(op) && Indexed(s)
    ensures Keeps(s, Do(s, op))
  {
    if op.DoPay? { PayKeeps(s, op.payment, op.now); }
    hide Target, Pay;
  }

  lemma PayKeeps(s: Shop, e: Payment, now: int)
    requires e.kind in ALLOWED && Indexed(s)
    ensures Keeps(s, Pay(s, e, now).0)
  {
    AllowedTargets(e.kind);
    hide Target;
  }

  /** A REVOKED order, a revoked token and a payment row stay what they are, however the run goes on. */
  lemma {:induction false} RevocationSticks(ops: seq<Op>, more: seq<Op>)
    requires AllVerified(ops + more)
    ensures Keeps(Perform(EMPTY, ops), Perform(EMPTY, ops + more))
    decreases |more|
  {
    if more == [] {
      assert ops + more == ops;
    } else {
      var init, op := more[..|more| - 1], more[|more| - 1];
      assert ops + more == (ops + init) + [op];
      assert (ops + more)[..|ops + init|] == ops + init && (ops + more)[|ops + init|] == op;
      RevocationSticks(ops, init);
      RunsStaySafe(ops + init);
      OpKeeps(Perform(EMPTY, ops + init), op);
      hide Do, Perform, TokensOk, StatesFold;
    }
  }

  /** A download refused by revocation stays refused. */
  lemma RevokedNeverDownloads(ops: seq<Op>, more: seq<Op>, hash: string, tenant: string, user: string, now: int)
    requires AllVerified(ops + more) && AllVerified(ops)
    requires var s := Perform(EMPTY, ops);
             hash in s.tokens && s.tokens[hash].order in s.orders && s.orders[s.tokens[hash].order].state == Revoked
    ensures Download(Perform(EMPTY, ops + more), hash, tenant, user, now) == Err(TokenRevoked)
  {
    var s := Perform(EMPTY, ops);
    RunsStaySafe(ops);
    assert TokenOk(s, s.tokens[hash]);
    RevocationSticks(ops, more);
    hide Perform;
  }

  /** A payment that was accepted changes nothing when it comes again, and returns what it returned. */
  lemma PaymentsApplyOnce(ops: seq<Op>, e: Payment, now: int, more: seq<Op>, again: int)
    requires AllVerified(ops + [DoPay(e, now)] + more) && Pay(Perform(EMPTY, ops), e, now).1.Ok?
    ensures var s := Perform(EMPTY, ops + [DoPay(e, now)] + more);
            Pay(s, e, again) == (s, Pay(Perform(EMPTY, ops), e, now).1)
  {
    var paid := ops + [DoPay(e, now)];
    assert paid[..|ops|] == ops && paid[|ops|] == DoPay(e, now);
    RevocationSticks(paid, more);
    hide Perform, Target;
  }

  // ----- payment.failed, which the verifier never emits -----

  /** Exactly one accepted kind takes a REVOKED order out of that state. */
  lemma StaysRevokedExactly(s: Shop, e: Payment, now: int, id: string)
    requires Indexed(s) && id in s.orders && s.orders[id].state == Revoked && e.provider == s.orders[id].provider
    requires e.id !in s.payments && Pay(s, e, now).1.Ok?
    ensures Pay(s, e, now).0.orders[id].state == Revoked <==> e.kind != "payment.failed"
  {
  }

  /** After it, a success reactivates the order: the refusal looks only at the current state. */
  lemma FailedReopensRevoked(s: Shop, id: string, failed: Payment, paid: Payment, now: int)
    requires Indexed(s) && id in s.orders && s.orders[id].state == Revoked
    requires failed.provider == s.orders[id].provider && paid.provider == s.orders[id].provider
    requires failed.kind == "payment.failed" && paid.kind == "payment.succeeded"
    requires failed.id !in s.payments && paid.id !in s.payments && failed.id != paid.id
    requires failed.occurred >= s.orders[id].created && paid.occurred >= s.orders[id].created
    ensures Pay(s, paid, now).1 == Err(NoReactivation)
    ensures var s' := Pay(Pay(s, failed, now).0, paid, now).0; id in s'.orders && s'.orders[id].state == Paid
  {
    assert Target("payment.failed") == Some(Failed) && Target("payment.succeeded") == Some(Paid);
    hide Target;
  }

  /** Some token of the order this payment is for is still unrevoked. */
  predicate HasLiveToken(s: Shop, e: Payment) {
    exists h :: h in s.tokens && !s.tokens[h].revoked && e.provider in s.byProvider && s.tokens[h].order == s.byProvider[e.provider]
  }

  /** It is the one accepted kind that can leave an unrevoked token on an order that is not PAID, and does if there is one. */
  lemma TokensStayOkExactly(s: Shop, e: Payment, now: int)
    requires Safe(s) && Pay(s, e, now).1.Ok?
    ensures TokensOk(Pay(s, e, now).0) <==> e.id in s.payments || e.kind != "payment.failed" || !HasLiveToken(s, e)
  {
    var s' := Pay(s, e, now).0;
    if e.id !in s.payments {
      if e.kind != "payment.failed" {
        KindsBesideFailed(e.kind);
        PaySafeTokens(s, e, now);
      } else {
        assert Target(e.kind) == Some(Failed);
        hide Target;
        if HasLiveToken(s, e) {
          var h :| h in s.tokens && !s.tokens[h].revoked && e.provider in s.byProvider && s.tokens[h].order == s.byProvider[e.provider];
          assert !TokenOk(s', s'.tokens[h]);
        }
      }
    }
  }

  lemma KindsBesideFailed(kind: string)
    requires Target(kind).Some? && kind != "payment.failed"
    ensures Target(kind) == Some(Paid) || Target(kind) == Some(Revoked)
  {
  }

  /** Such a token passes every check of a download until the recheck of its order refuses it. */
  lemma FailedStrandsTokens(s: Shop, hash: string, e: Payment, now: int)
    requires Safe(s) && hash in s.tokens && !s.tokens[hash].revoked && now < s.tokens[hash].expires
    requires e.kind == "payment.failed" && e.id !in s.payments && e.provider == s.orders[s.tokens[hash].order].provider
    requires e.occurred >= s.orders[s.tokens[hash].order].created
    ensures var s' := Pay(s, e, now).0;
            !TokensOk(s') && Download(s', hash, s.tokens[hash].tenant, s.tokens[hash].user, now) == Err(NotEntitled)
  {
    assert Target("payment.failed") == Some(Failed);
    assert TokenOk(s, s.tokens[hash]);
    hide Target;
    assert !TokenOk(Pay(s, e, now).0, s.tokens[hash]);
  }

  // ----- the order of delivery -----

  predicate Delivered(ops: seq<Op>, e: Payment) {
    exists k :: 0 <= k < |ops| && ops[k].DoPay? && ops[k].payment == e
  }

  /** A payment for this order, not older than it, of this effect. */
  predicate Hits(e: Payment, o: Order, effect: OrderState) {
    e.provider == o.provider && e.occurred >= o.created && Target(e.kind) == Some(effect)
  }

  ghost predicate AnyHits(ops: seq<Op>, o: Order, effect: OrderState) {
    exists e :: Delivered(ops, e) && Hits(e, o, effect)
  }

  /** Revoked by any delivered revocation, else paid by any delivered success. */
  ghost function Outcome(ops: seq<Op>, o: Order): OrderState {
    if AnyHits(ops, o, Revoked) then Revoked else if AnyHits(ops, o, Paid) then Paid else Pending
  }

  predicate DistinctIds(s: Shop, ops: seq<Op>) {
    && (forall j, k :: 0 <= j < |ops| && 0 <= k < |ops| && ops[j].DoPay? && ops[k].DoPay? ==>
         (ops[j].payment.id == ops[k].payment.id ==> ops[j].payment == ops[k].payment))
    && (forall k :: 0 <= k < |ops| && ops[k].DoPay? ==> ops[k].payment.id !in s.payments)
  }

  ghost predicate Recorded(s: Shop, s': Shop, ops: seq<Op>) {
    forall p :: p in s'.payments ==> p in s.payments || exists e :: Delivered(ops, e) && e.id == p
  }

  predicate SameOrder(o: Order, o': Order) { o' == o.(state := o'.state, updated := o'.updated) }

  lemma DeliveredMore(ops: seq<Op>, op: Op, e: Payment)
    ensures Delivered(ops + [op], e) <==> Delivered(ops, e) || (op.DoPay? && op.payment == e)
  {
    if Delivered(ops, e) {
      var k :| 0 <= k < |ops| && ops[k].DoPay? && ops[k].payment == e;
      assert (ops + [op])[k] == ops[k];
    }
    if op.DoPay? && op.payment == e { assert (ops + [op])[|ops|] == op; }
  }

  lemma HitsMore(ops: seq<Op>, op: Op, o: Order, effect: OrderState)
    ensures AnyHits(ops + [op], o, effect) <==> AnyHits(ops, o, effect) || (op.DoPay? && Hits(op.payment, o, effect))
  {
    hide Hits, Delivered;
    forall e ensures Delivered(ops + [op], e) <==> Delivered(ops, e) || (op.DoPay? && op.payment == e) { DeliveredMore(ops, op, e); }
  }

  lemma SeenBefore(s: Shop, m: Shop, ops: seq<Op>, op: Op)
    requires DistinctIds(s, ops + [op]) && Recorded(s, m, ops) && op.DoPay? && op.payment.id in m.payments
    ensures Delivered(ops, op.payment)
  {
    var all := ops + [op];
    assert all[|ops|] == op;
    var e :| Delivered(ops, e) && e.id == op.payment.id;
    var k :| 0 <= k < |ops| && ops[k].DoPay? && ops[k].payment == e;
    assert all[k] == ops[k];
  }

  lemma RecordedOn(s: Shop, m: Shop, ops: seq<Op>, op: Op)
    requires Recorded(s, m, ops)
    ensures Recorded(s, Do(m, op), ops + [op])
  {
    hide Target, Delivered;
    forall e ensures Delivered(ops + [op], e) <==> Delivered(ops, e) || (op.DoPay? && op.payment == e) { DeliveredMore(ops, op, e); }
  }

  /** How one operation moves one order. */
  lemma OrderEffect(m: Shop, op: Op, id: string)
    requires Indexed(m) && id in m.orders && Verified(op)
    ensures var s', o := Do(m, op), m.orders[id];
            && id in s'.orders && SameOrder(o, s'.orders[id])
            && s'.orders[id].state == if op.DoPay? && op.payment.id !in m.payments && Hits(op.payment, o, Revoked) then Revoked
                                      else if op.DoPay? && op.payment.id !in m.payments && Hits(op.payment, o, Paid) && o.state != Revoked then Paid
                                      else o.state
  {
    if op.DoPay? { AllowedTargets(op.payment.kind); }
    hide Target, RevokeTokens;
  }

  /** For any delivery order, with any repeats and refusals, an order ends in the outcome of what was delivered. */
  lemma {:induction false} DeliveryOrderIrrelevant(before: seq<Op>, ops: seq<Op>, id: string)
    requires AllVerified(before) && AllVerified(ops) && DistinctIds(Perform(EMPTY, before), ops)
    requires var s := Perform(EMPTY, before); id in s.orders && s.orders[id].state == Pending
    ensures var s, s' := Perform(EMPTY, before), Perform(Perform(EMPTY, before), ops);
            && id in s'.orders && SameOrder(s.orders[id], s'.orders[id])
            && s'.orders[id].state == Outcome(ops, s.orders[id])
            && Recorded(s, s', ops) && Indexed(s')
    decreases |ops|
  {
    var s := Perform(EMPTY, before);
    RunsStaySafe(before);
    if ops != [] {
      var init, op := ops[..|ops| - 1], ops[|ops| - 1];
      assert init + [op] == ops;
      assert DistinctIds(s, init);
      DeliveryOrderIrrelevant(before, init, id);
      var m := Perform(s, init);
      OrderEffect(m, op, id);
      RecordedOn(s, m, init, op);
      HitsMore(init, op, s.orders[id], Revoked);
      HitsMore(init, op, s.orders[id], Paid);
      if op.DoPay? && op.payment.id in m.payments { SeenBefore(s, m, init, op); }
      OpIndexed(m, op);
      hide Do, Perform, DistinctIds, Delivered, AllVerified, Indexed;
    } else {
      assert Outcome([], s.orders[id]) == Pending;
    }
  }

  lemma OpIndexed(m: Shop, op: Op)
    requires Indexed(m)
    ensures Indexed(Do(m, op))
  {
    hide Target, RevokeTokens;
  }
}
