/** What each call of the digital shop accepts, and every row it then writes; the payment kinds by their names. */
module DigitalExact {
  import opened Prelude
  import opened DigitalGoods
  import opened DigitalGoodsRuns

  const PAYING := {"payment.succeeded"}
  const FAILING := {"payment.failed"}
  const REVOKING := {"payment.refunded", "payment.chargeback", "payment.cancelled"}

  /** The order that a payment names. */
  predicate NamesOrder(s: Shop, e: Payment) {
    e.provider in s.byProvider && s.byProvider[e.provider] in s.orders
  }

  /** A new payment is accepted exactly if its kind is one of the five, its order is known and not younger, and not REVOKED for a success. */
  lemma PaysExactly(s: Shop, e: Payment, now: int)
    requires Indexed(s) && e.id !in s.payments
    ensures var r := Pay(s, e, now).1;
            && (r.Ok? <==>
                  && e.kind in PAYING + FAILING + REVOKING && NamesOrder(s, e)
                  && s.orders[s.byProvider[e.provider]].created <= e.occurred
                  && (e.kind in PAYING ==> s.orders[s.byProvider[e.provider]].state != Revoked))
            && (r.Ok? ==>
                  && (r.value.state == Paid <==> e.kind in PAYING)
                  && (r.value.state == Failed <==> e.kind in FAILING)
                  && (r.value.state == Revoked <==> e.kind in REVOKING)
                  && r.value == s.orders[s.byProvider[e.provider]].(state := r.value.state, updated := now))
  {
  }

  /** It rewrites that order, records the payment, and for the three revoking kinds revokes that order's tokens; nothing else changes. */
  lemma PayChanges(s: Shop, e: Payment, now: int)
    requires Indexed(s) && e.id !in s.payments && Pay(s, e, now).1.Ok?
    ensures var (s', r) := Pay(s, e, now);
            var id, row := s.byProvider[e.provider], PaymentRow(e.provider, e.kind, e.hash, r.value);
            && NamesOrder(s, e)
            && s'.orders == s.orders[id := r.value] && s'.payments == s.payments[e.id := row] && s'.log == s.log + [row]
            && s'.products == s.products && s'.byProvider == s.byProvider
            && s'.tokens.Keys == s.tokens.Keys
            && forall h :: h in s.tokens ==>
                 s'.tokens[h] == if e.kind in REVOKING && s.tokens[h].order == id then s.tokens[h].(revoked := true) else s.tokens[h]
  {
  }

  /** A payment id that comes again is accepted exactly if nothing about it differs, and returns the stored answer. */
  lemma PaysAgainExactly(s: Shop, e: Payment, now: int)
    requires e.id in s.payments
    ensures var (s', r) := Pay(s, e, now);
            var row := s.payments[e.id];
            && s' == s
            && (r.Ok? <==> e.kind in PAYING + FAILING + REVOKING && row.provider == e.provider && row.kind == e.kind && row.hash == e.hash)
            && (r.Ok? ==> r.value == row.snapshot)
  {
  }

  /** After an accepted refund, chargeback or cancellation no token of that order, old or new, ever downloads again. */
  lemma RefundedNeverDownloads(
    ops: seq<Op>, e: Payment, now: int, more: seq<Op>, hash: string, tenant: string, user: string, later: int)
    requires AllVerified(ops + [DoPay(e, now)] + more) && AllVerified(ops)
    requires var s := Perform(EMPTY, ops);
             e.kind in REVOKING && e.id !in s.payments && Pay(s, e, now).1.Ok?
    ensures var s, s' := Perform(EMPTY, ops), Perform(EMPTY, ops + [DoPay(e, now)] + more);
            && NamesOrder(s, e)
            && (hash in s'.tokens && s'.tokens[hash].order == s.byProvider[e.provider] ==> Download(s', hash, tenant, user, later).Err?)
  {
    var s, paid := Perform(EMPTY, ops), ops + [DoPay(e, now)];
    var s' := Perform(EMPTY, paid + more);
    assert paid[..|ops|] == ops && paid[|ops|] == DoPay(e, now);
    RunsStaySafe(ops);
    RunsStaySafe(paid + more);
    PaysExactly(s, e, now);
    PayChanges(s, e, now);
    assert Perform(EMPTY, paid) == Pay(s, e, now).0;
    RevocationSticks(paid, more);
    assert hash in s'.tokens ==> TokenOk(s', s'.tokens[hash]);
    hide Perform, Pay, Indexed, StatesFold, AllVerified;
  }

  /** An order is stored pending exactly for an active product at its price, under two new ids; an old one only if it is the same. */
  lemma PlacesExactly(
    s: Shop, id: string, provider: string, tenant: string, user: string, product: string, price: int, currency: string, now: int)
    ensures var (s', r) := PlaceOrder(s, id, provider, tenant, user, product, price, currency, now);
            var order := Order(id, provider, tenant, user, product, price, currency, Pending, now, now);
            && (r.Ok? <==>
                  && product in s.products && s.products[product].active
                  && s.products[product].price == price && s.products[product].currency == currency
                  && (if id in s.orders then s.orders[id] == order else provider !in s.byProvider))
            && (r.Ok? ==> r.value == order)
            && s' == (if r.Ok? && id !in s.orders then s.(orders := s.orders[id := order], byProvider := s.byProvider[provider := id]) else s)
  {
  }

  /** A token is stored unrevoked exactly for the PAID order's own account, under a new hash, for at most 900 seconds. */
  lemma IssuesExactly(s: Shop, hash: string, id: string, tenant: string, user: string, now: int, ttl: int)
    ensures var (s', r) := IssueToken(s, hash, id, tenant, user, now, ttl);
            && (r.Ok? <==>
                  && 0 < ttl <= 900 && id in s.orders && s.orders[id].tenant == tenant && s.orders[id].user == user
                  && s.orders[id].state == Paid && hash !in s.tokens)
            && (r.Ok? ==> r.value == Token(s.orders[id].id, tenant, user, s.orders[id].product, now + ttl, false))
            && s' == (if r.Ok? then s.(tokens := s.tokens[hash := r.value]) else s)
  {
  }

  /** A download succeeds exactly for an unrevoked, unexpired token of the caller whose order is PAID, and gives that product. */
  lemma DownloadsExactly(s: Shop, hash: string, tenant: string, user: string, now: int)
    ensures var r := Download(s, hash, tenant, user, now);
            && (r.Ok? <==>
                  && hash in s.tokens && !s.tokens[hash].revoked && s.tokens[hash].tenant == tenant && s.tokens[hash].user == user
                  && now < s.tokens[hash].expires && s.tokens[hash].order in s.orders && s.orders[s.tokens[hash].order].state == Paid
                  && s.tokens[hash].product in s.products)
            && (r.Ok? ==> r.value == s.products[s.tokens[hash].product])
  {
  }

  /** A product stays what it was first registered as, over any further run. */
  lemma {:induction false} ProductsStay(s: Shop, id: string, first: Product, ops: seq<Op>)
    ensures id in Perform(Stock(s, id, first), ops).products
    ensures Perform(Stock(s, id, first), ops).products[id] == if id in s.products then s.products[id] else first
  {
    if ops != [] {
      ProductsStay(s, id, first, ops[..|ops| - 1]);
      StepKeepsProducts(Perform(Stock(s, id, first), ops[..|ops| - 1]), ops[|ops| - 1], id);
    }
    hide Do;
  }

  lemma StepKeepsProducts(s: Shop, op: Op, id: string)
    requires id in s.products
    ensures id in Do(s, op).products && Do(s, op).products[id] == s.products[id]
  {
    hide Target, RevokeTokens;
  }
}
