/** Digital orders, payment events and download tokens, as functions of the shop's tables. */
module DigitalGoods {
  import opened Prelude

  datatype OrderState = Pending | Paid | Revoked | Failed

  datatype ShopError =
    | NoProduct | Inactive | WrongPrice | OrderConflict | UnsupportedKind | EventConflict | UnknownOrder | Predates | NoReactivation
    | BadTtl | WrongPrincipal | NotPaid | TokenConflict | NoToken | TokenRevoked | TokenExpired | NotEntitled

  datatype Product = Product(price: int, currency: string, active: bool)

  /** `DigitalBookOrder`. */
  datatype Order = Order(
    id: string, provider: string, tenant: string, user: string, product: string, price: int, currency: string,
    state: OrderState, created: int, updated: int)

  /** `VerifiedDigitalPaymentEvent`. */
  datatype Payment = Payment(id: string, kind: string, provider: string, occurred: int, hash: string)

  datatype PaymentRow = PaymentRow(provider: string, kind: string, hash: string, snapshot: Order)

  datatype Token = Token(order: string, tenant: string, user: string, product: string, expires: int, revoked: bool)

  /** `byProvider` is the UNIQUE index on the provider's order id; `log` lists the payment rows as they were inserted. */
  datatype Shop = Shop(
    products: map<string, Product>, orders: map<string, Order>, byProvider: map<string, string>,
    payments: map<string, PaymentRow>, log: seq<PaymentRow>, tokens: map<string, Token>)

  const EMPTY := Shop(map[], map[], map[], map[], [], map[])

  const MAX_TTL := 900

  /** `state_by_event`. */
  function Target(kind: string): Option<OrderState> {
    if kind == "payment.succeeded" then Some(Paid)
    else if kind == "payment.failed" then Some(Failed)
    else if kind == "payment.refunded" || kind == "payment.chargeback" || kind == "payment.cancelled" then Some(Revoked)
    else None
  }

  /** `_ALLOWED_DIGITAL_PAYMENT_EVENT_TYPES`: what the verifier lets through. */
  const ALLOWED := {"payment.succeeded", "payment.refunded", "payment.chargeback", "payment.cancelled"}

  function Stock(s: Shop, id: string, p: Product): Shop {
    if id in s.products then s else s.(products := s.products[id := p])
  }

  function PlaceOrder(s: Shop, id: string, provider: string, tenant: string, user: string, product: string, price: int, currency: string, now: int)
    : (Shop, Result<Order, ShopError>)
  {
    if product !in s.products then (s, Err(NoProduct))
    else if !s.products[product].active then (s, Err(Inactive))
    else if price != s.products[product].price || currency != s.products[product].currency then (s, Err(WrongPrice))
    else
      var candidate := Order(id, provider, tenant, user, product, price, currency, Pending, now, now);
      if id in s.orders || provider in s.byProvider then
        (s, if id in s.orders && s.orders[id] == candidate then Ok(candidate) else Err(OrderConflict))
      else
        (s.(orders := s.orders[id := candidate], byProvider := s.byProvider[provider := id]), Ok(candidate))
  }

  function RevokeTokens(tokens: map<string, Token>, order: string): map<string, Token> {
    map h | h in tokens :: if tokens[h].order == order then tokens[h].(revoked := true) else tokens[h]
  }

  /** `apply_verified_payment_event`. */
  function Pay(s: Shop, e: Payment, now: int): (Shop, Result<Order, ShopError>) {
    var target := Target(e.kind);
    if target.None? then (s, Err(UnsupportedKind))
    else if e.id in s.payments then
      var row := s.payments[e.id];
      (s, if row.provider != e.provider || row.kind != e.kind || row.hash != e.hash then Err(EventConflict) else Ok(row.snapshot))
    else if e.provider !in s.byProvider || s.byProvider[e.provider] !in s.orders then (s, Err(UnknownOrder))
    else
      var order := s.orders[s.byProvider[e.provider]];
      if e.occurred < order.created then (s, Err(Predates))
      else if order.state == Revoked && target.value == Paid then (s, Err(NoReactivation))
      else
        var updated := order.(state := target.value, updated := now);
        var row := PaymentRow(e.provider, e.kind, e.hash, updated);
        (s.(orders := s.orders[order.id := updated], payments := s.payments[e.id := row], log := s.log + [row],
            tokens := if target.value == Revoked then RevokeTokens(s.tokens, order.id) else s.tokens),
         Ok(updated))
  }

  /** `issue_download_authorization`; `hash` is the digest of the generated token. */
  function IssueToken(s: Shop, hash: string, id: string, tenant: string, user: string, now: int, ttl: int): (Shop, Result<Token, ShopError>) {
    if ttl <= 0 || ttl > MAX_TTL then (s, Err(BadTtl))
    else if id !in s.orders then (s, Err(UnknownOrder))
    else
      var order := s.orders[id];
      if order.tenant != tenant || order.user != user then (s, Err(WrongPrincipal))
      else if order.state != Paid then (s, Err(NotPaid))
      else if hash in s.tokens then (s, Err(TokenConflict))
      else
        var token := Token(order.id, order.tenant, order.user, order.product, now + ttl, false);
        (s.(tokens := s.tokens[hash := token]), Ok(token))
  }

  /** `authorize_download`. */
  function Download(s: Shop, hash: string, tenant: string, user: string, now: int): Result<Product, ShopError> {
    if hash !in s.tokens then Err(NoToken)
    else
      var token := s.tokens[hash];
      if token.revoked then Err(TokenRevoked)
      else if token.tenant != tenant || token.user != user then Err(WrongPrincipal)
      else if now >= token.expires then Err(TokenExpired)
      else if token.order !in s.orders || s.orders[token.order].state != Paid then Err(NotEntitled)
      else if token.product !in s.products then Err(NoProduct)
      else Ok(s.products[token.product])
  }

  // ----- the shop as an object -----

  class Counter {
    const digest: string -> string
    var products: map<string, Product>
    var orders: map<string, Order>
    var byProvider: map<string, string>
    var payments: map<string, PaymentRow>
    var log: seq<PaymentRow>
    var tokens: map<string, Token>

    function State(): Shop
      reads this
    {
      Shop(products, orders, byProvider, payments, log, tokens)
    }

    constructor (digest: string -> string)
      ensures State() == EMPTY && this.digest == digest
    {
      this.digest := digest;
      products, orders, byProvider, payments, log, tokens := map[], map[], map[], map[], [], map[];
    }

    method Place(id: string, provider: string, tenant: string, user: string, product: string, price: int, currency: string, now: int)
      returns (result: Result<Order, ShopError>)
      modifies this`orders, this`byProvider
      ensures (State(), result) == PlaceOrder(old(State()), id, provider, tenant, user, product, price, currency, now)
    {
      if product !in products {
        return Err(NoProduct);
      }
      var item := products[product];
      if !item.active {
        return Err(Inactive);
      }
      if price != item.price || currency != item.currency {
        return Err(WrongPrice);
      }
      var candidate := Order(id, provider, tenant, user, product, price, currency, Pending, now, now);
      if id in orders || provider in byProvider {
        if id in orders && orders[id] == candidate {
          return Ok(candidate);
        }
        return Err(OrderConflict);
      }
      orders := orders[id := candidate];
      byProvider := byProvider[provider := id];
      return Ok(candidate);
    }

    method ApplyPayment(e: Payment, now: int) returns (result: Result<Order, ShopError>)
      modifies this
      ensures (State(), result) == Pay(old(State()), e, now)
    {
      hide Target;
      var target := Target(e.kind);
      if target.None? {
        return Err(UnsupportedKind);
      }
      if e.id in payments {
        var previous := payments[e.id];
        if previous.provider != e.provider || previous.kind != e.kind || previous.hash != e.hash {
          return Err(EventConflict);
        }
        return Ok(previous.snapshot);
      }
      if e.provider !in byProvider || byProvider[e.provider] !in orders {
        return Err(UnknownOrder);
      }
      var order := orders[byProvider[e.provider]];
      if e.occurred < order.created {
        return Err(Predates);
      }
      if order.state == Revoked && target.value == Paid {
        return Err(NoReactivation);
      }
      var updated := order.(state := target.value, updated := now);
      orders := orders[order.id := updated];
      var row := PaymentRow(e.provider, e.kind, e.hash, updated);
      payments, log := payments[e.id := row], log + [row];
      if target.value == Revoked {
        tokens := map h | h in tokens :: if tokens[h].order == order.id then tokens[h].(revoked := true) else tokens[h];
      }
      return Ok(updated);
    }

    method Issue(token: string, id: string, tenant: string, user: string, now: int, ttl: int) returns (result: Result<Token, ShopError>)
      modifies this`tokens
      ensures (State(), result) == IssueToken(old(State()), digest(token), id, tenant, user, now, ttl)
    {
      if ttl <= 0 || ttl > MAX_TTL {
        return Err(BadTtl);
      }
      if id !in orders {
        return Err(UnknownOrder);
      }
      var order := orders[id];
      if order.tenant != tenant || order.user != user {
        return Err(WrongPrincipal);
      }
      if order.state != Paid {
        return Err(NotPaid);
      }
      if digest(token) in tokens {
        return Err(TokenConflict);
      }
      var row := Token(order.id, order.tenant, order.user, order.product, now + ttl, false);
      tokens := tokens[digest(token) := row];
      return Ok(row);
    }

    method Authorize(token: string, tenant: string, user: string, now: int) returns (result: Result<Product, ShopError>)
      ensures result == Download(State(), digest(token), tenant, user, now)
    {
      var hash := digest(token);
      if hash !in tokens {
        return Err(NoToken);
      }
      var row := tokens[hash];
      if row.revoked {
        return Err(TokenRevoked);
      }
      if row.tenant != tenant || row.user != user {
        return Err(WrongPrincipal);
      }
      if now >= row.expires {
        return Err(TokenExpired);
      }
      if row.order !in orders || orders[row.order].state != Paid {
        return Err(NotEntitled);
      }
      if row.product !in products {
        return Err(NoProduct);
      }
      return Ok(products[row.product]);
    }
  }
}
