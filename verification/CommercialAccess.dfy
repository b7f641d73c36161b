/** Provider subscriptions, trusted grants and entitlements, as functions of the store's tables. */
module CommercialAccess {
  import opened Prelude

  datatype SubscriptionState = Pending | Active | Suspended | Cancelled

  datatype AccessError =
    | Unsupported | EventConflict | NoBinding | OutOfOrder | BindingConflict
    | BadPeriod | GrantConflict | NoGrant | AmbiguousGrant | EntitlementConflict | NoEntitlement
    | NotActive | Expired | PaidNotAllowed

  /** `ProviderSubscriptionBinding`. */
  datatype Binding = Binding(
    id: string, tenant: string, user: string, plan: string, state: SubscriptionState,
    created: int, updated: int, lastEvent: Option<int>)

  /** `VerifiedCommercialWebhookEvent`. */
  datatype Event = Event(id: string, kind: string, subscription: string, occurred: int, hash: string)

  /** A row of `commercial_provider_events`. */
  datatype EventRow = EventRow(subscription: string, kind: string, hash: string, snapshot: Binding)

  datatype Grant = Grant(
    id: string, subscription: string, tenant: string, user: string, plan: string,
    from: int, until: int, paid: bool, hash: string, created: int)

  datatype Terms = Terms(
    tenant: string, user: string, plan: string, state: SubscriptionState, until: Option<int>, paid: bool)

  datatype Entitlement = Entitlement(terms: Terms, version: nat)

  datatype EntitlementRow = EntitlementRow(hash: string, snapshot: Entitlement)

  datatype Access = Access(
    bindings: map<string, Binding>, events: map<string, EventRow>, grants: map<string, Grant>,
    entitlements: map<(string, string), Entitlement>, changes: map<string, EntitlementRow>)

  const BLANK := Access(map[], map[], map[], map[], map[])

  const MAX_GRANT := 370 * 86400

  /** `_PROVIDER_EVENT_STATES`. */
  function StateFor(kind: string): Option<SubscriptionState> {
    if kind == "subscription.activated" then Some(Active)
    else if kind == "subscription.renewed" then Some(Active)
    else if kind == "subscription.suspended" then Some(Suspended)
    else if kind == "payment.failed" then Some(Suspended)
    else if kind == "subscription.cancelled" then Some(Cancelled)
    else if kind == "payment.refunded" then Some(Cancelled)
    else None
  }

  function Bind(a: Access, id: string, tenant: string, user: string, plan: string, now: int): (Access, Result<Binding, AccessError>) {
    if id in a.bindings then
      var stored := a.bindings[id];
      (a, if stored.tenant != tenant || stored.user != user || stored.plan != plan then Err(BindingConflict) else Ok(stored))
    else
      var candidate := Binding(id, tenant, user, plan, Pending, now, now, None);
      (a.(bindings := a.bindings[id := candidate]), Ok(candidate))
  }

  /** `apply_verified_provider_event`. */
  function Apply(a: Access, e: Event, now: int): (Access, Result<Binding, AccessError>) {
    var state := StateFor(e.kind);
    if state.None? then (a, Err(Unsupported))
    else if e.id in a.events then
      var row := a.events[e.id];
      (a, if row.hash != e.hash || row.subscription != e.subscription || row.kind != e.kind then Err(EventConflict) else Ok(row.snapshot))
    else if e.subscription !in a.bindings then (a, Err(NoBinding))
    else
      var b := a.bindings[e.subscription];
      if b.lastEvent.Some? && e.occurred <= b.lastEvent.value then (a, Err(OutOfOrder))
      else
        var updated := b.(state := state.value, updated := now, lastEvent := Some(e.occurred));
        (a.(bindings := a.bindings[e.subscription := updated],
            events := a.events[e.id := EventRow(e.subscription, e.kind, e.hash, updated)]),
         Ok(updated))
  }

  /** `create_trusted_grant`: tenant, user and plan are the binding's, whoever calls. */
  function GrantFor(a: Access, digest: Grant -> string, id: string, subscription: string, from: int, until: int, paid: bool, now: int)
    : (Access, Result<Grant, AccessError>)
  {
    if until <= from || until <= now || until - from > MAX_GRANT then (a, Err(BadPeriod))
    else if subscription !in a.bindings then (a, Err(NoBinding))
    else
      var b := a.bindings[subscription];
      var content := Grant("", subscription, b.tenant, b.user, b.plan, from, until, paid, "", 0);
      if id in a.grants then (a, if a.grants[id].hash != digest(content) then Err(GrantConflict) else Ok(a.grants[id]))
      else
        var g := content.(id := id, hash := digest(content), created := now);
        (a.(grants := a.grants[id := g]), Ok(g))
  }

  function Current(a: Access, subscription: string, now: int): set<string> {
    set id | id in a.grants && a.grants[id].subscription == subscription && a.grants[id].from <= now < a.grants[id].until
  }

  /** `apply_entitlement`; the digest is of the terms. */
  function Entitle(a: Access, digest: Terms -> string, id: string, terms: Terms): (Access, Result<Entitlement, AccessError>) {
    if id in a.changes then
      (a, if a.changes[id].hash != digest(terms) then Err(EntitlementConflict) else Ok(a.changes[id].snapshot))
    else
      var key := (terms.tenant, terms.user);
      var next := Entitlement(terms, if key in a.entitlements then a.entitlements[key].version + 1 else 1);
      (a.(entitlements := a.entitlements[key := next], changes := a.changes[id := EntitlementRow(digest(terms), next)]), Ok(next))
  }

  /** `require_access`. */
  function RequireAccess(a: Access, tenant: string, user: string, now: int, paid: bool): Result<Entitlement, AccessError> {
    if (tenant, user) !in a.entitlements then Err(NoEntitlement)
    else
      var e := a.entitlements[(tenant, user)];
      if e.terms.state != Active then Err(NotActive)
      else if e.terms.until.Some? && now >= e.terms.until.value then Err(Expired)
      else if paid && !e.terms.paid then Err(PaidNotAllowed)
      else Ok(e)
  }

  // ----- the store as an object -----

  class Store {
    const grantDigest: Grant -> string
    const termsDigest: Terms -> string
    var bindings: map<string, Binding>
    var events: map<string, EventRow>
    var grants: map<string, Grant>
    var entitlements: map<(string, string), Entitlement>
    var changes: map<string, EntitlementRow>

    function State(): Access
      reads this
    {
      Access(bindings, events, grants, entitlements, changes)
    }

    constructor (grantDigest: Grant -> string, termsDigest: Terms -> string)
      ensures State() == BLANK && this.grantDigest == grantDigest && this.termsDigest == termsDigest
    {
      this.grantDigest, this.termsDigest := grantDigest, termsDigest;
      bindings, events, grants, entitlements, changes := map[], map[], map[], map[], map[];
    }

    method ApplyProviderEvent(e: Event, now: int) returns (result: Result<Binding, AccessError>)
      modifies this`bindings, this`events
      ensures (State(), result) == Apply(old(State()), e, now)
    {
      hide StateFor;
      var state := StateFor(e.kind);
      if state.None? {
        return Err(Unsupported);
      }
      if e.id in events {
        var row := events[e.id];
        if row.hash != e.hash || row.subscription != e.subscription || row.kind != e.kind {
          return Err(EventConflict);
        }
        return Ok(row.snapshot);
      }
      if e.subscription !in bindings {
        return Err(NoBinding);
      }
      var binding := bindings[e.subscription];
      if binding.lastEvent.Some? && e.occurred <= binding.lastEvent.value {
        return Err(OutOfOrder);
      }
      var updated := binding.(state := state.value, updated := now, lastEvent := Some(e.occurred));
      bindings := bindings[e.subscription := updated];
      events := events[e.id := EventRow(e.subscription, e.kind, e.hash, updated)];
      return Ok(updated);
    }

    method ApplyEntitlement(id: string, terms: Terms) returns (result: Result<Entitlement, AccessError>)
      modifies this`entitlements, this`changes
      ensures (State(), result) == Entitle(old(State()), termsDigest, id, terms)
    {
      if id in changes {
        if changes[id].hash != termsDigest(terms) {
          return Err(EntitlementConflict);
        }
        return Ok(changes[id].snapshot);
      }
      var key := (terms.tenant, terms.user);
      var version := 1;
      if key in entitlements {
        version := entitlements[key].version + 1;
      }
      var next := Entitlement(terms, version);
      entitlements := entitlements[key := next];
      changes := changes[id := EntitlementRow(termsDigest(terms), next)];
      return Ok(next);
    }

    /** The list of current grants is built row by row; exactly one may be left. */
    method ResolveTrustedGrant(subscription: string, now: int) returns (result: Result<Grant, AccessError>)
      ensures result.Ok? <==> |Current(State(), subscription, now)| == 1
      ensures result.Ok? ==> exists id :: Current(State(), subscription, now) == {id} && id in grants && result.value == grants[id]
      ensures result.Err? ==> result.error == if Current(State(), subscription, now) == {} then NoGrant else AmbiguousGrant
    {
      ghost var current := Current(State(), subscription, now);
      var rest := grants.Keys;
      var matches := {};
      while rest != {}
        invariant rest <= grants.Keys && matches == current - rest
        decreases |rest|
      {
        var id :| id in rest;
        rest := rest - {id};
        if grants[id].subscription == subscription && grants[id].from <= now < grants[id].until {
          matches := matches + {id};
        }
      }
      assert matches == current;
      if matches == {} {
        return Err(NoGrant);
      }
      if |matches| != 1 {
        return Err(AmbiguousGrant);
      }
      var id :| id in matches;
      OneElement(matches, id);
      return Ok(grants[id]);
    }
  }

  lemma OneElement<T>(s: set<T>, x: T)
    requires x in s && |s| == 1
    ensures s == {x}
  {
    assert |s - {x}| == 0;
  }
}
