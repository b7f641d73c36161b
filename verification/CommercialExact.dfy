/** What each call of the commercial store accepts, and every row it then writes; the event kinds by their names. */
module CommercialExact {
  import opened Prelude
  import opened CommercialAccess
  import opened CommercialRuns

  const ACTIVATING := {"subscription.activated", "subscription.renewed"}
  const SUSPENDING := {"subscription.suspended", "payment.failed"}
  const CANCELLING := {"subscription.cancelled", "payment.refunded"}

  /** A new event is accepted exactly if its kind is one of the six, its subscription is bound and it is later than the last one. */
  lemma AppliesExactly(a: Access, e: Event, now: int)
    requires e.id !in a.events
    ensures var (a', r) := Apply(a, e, now);
            && (r.Ok? <==>
                  && e.kind in ACTIVATING + SUSPENDING + CANCELLING && e.subscription in a.bindings
                  && (a.bindings[e.subscription].lastEvent.Some? ==> a.bindings[e.subscription].lastEvent.value < e.occurred))
            && (r.Ok? ==>
                  && (r.value.state == Active <==> e.kind in ACTIVATING)
                  && (r.value.state == Suspended <==> e.kind in SUSPENDING)
                  && (r.value.state == Cancelled <==> e.kind in CANCELLING)
                  && r.value == a.bindings[e.subscription].(state := r.value.state, updated := now, lastEvent := Some(e.occurred))
                  && a' == a.(bindings := a.bindings[e.subscription := r.value],
                              events := a.events[e.id := EventRow(e.subscription, e.kind, e.hash, r.value)]))
            && (r.Err? ==> a' == a)
  {
  }

  /** An event id that comes again is accepted exactly if nothing about it differs; it then returns the stored answer. */
  lemma RepliesExactly(a: Access, e: Event, now: int)
    requires e.id in a.events
    ensures var (a', r) := Apply(a, e, now);
            var row := a.events[e.id];
            && a' == a
            && (r.Ok? <==> e.kind in ACTIVATING + SUSPENDING + CANCELLING
                           && row.hash == e.hash && row.subscription == e.subscription && row.kind == e.kind)
            && (r.Ok? ==> r.value == row.snapshot)
  {
  }

  /** So the latest delivered event decides by its kind's name. */
  lemma LatestKindDecides(d: Digests, a: Access, ops: seq<Op>, s: string, e: Event)
    requires s in a.bindings && a.bindings[s].lastEvent.None? && DistinctIds(a, ops) && Latest(ops, s, e)
    ensures var b := Perform(d, a, ops).bindings;
            && s in b && e.kind in ACTIVATING + SUSPENDING + CANCELLING
            && (b[s].state == Active <==> e.kind in ACTIVATING)
            && (b[s].state == Suspended <==> e.kind in SUSPENDING)
            && (b[s].state == Cancelled <==> e.kind in CANCELLING)
  {
    LatestEventWins(d, a, ops, s, e);
    assert Counts(e, s);
    hide Perform, Latest;
  }

  /** Binding a new subscription id stores it pending; an old one is returned exactly if it names the same account and plan. */
  lemma BindsExactly(a: Access, id: string, tenant: string, user: string, plan: string, now: int)
    ensures var (a', r) := Bind(a, id, tenant, user, plan, now);
            if id in a.bindings then
              && a' == a
              && (r.Ok? <==> a.bindings[id].tenant == tenant && a.bindings[id].user == user && a.bindings[id].plan == plan)
              && (r.Ok? ==> r.value == a.bindings[id])
            else
              && r == Ok(Binding(id, tenant, user, plan, Pending, now, now, None))
              && a' == a.(bindings := a.bindings[id := r.value])
  {
  }

  /** A new grant is stored exactly for a bound subscription and a period of at most 370 days that has not ended. */
  lemma GrantsExactly(a: Access, digest: Grant -> string, id: string, subscription: string, from: int, until: int, paid: bool, now: int)
    requires id !in a.grants
    ensures var (a', r) := GrantFor(a, digest, id, subscription, from, until, paid, now);
            && (r.Ok? <==> from < until && now < until && until - from <= 370 * 86400 && subscription in a.bindings)
            && (r.Ok? ==>
                  var b := a.bindings[subscription];
                  && r.value.(hash := "") == Grant(id, subscription, b.tenant, b.user, b.plan, from, until, paid, "", now)
                  && a' == a.(grants := a.grants[id := r.value]))
            && (r.Err? ==> a' == a)
  {
  }

  /** A grant id that comes again never writes, and is accepted exactly if its content has the stored digest. */
  lemma GrantsAgainExactly(a: Access, digest: Grant -> string, id: string, subscription: string, from: int, until: int, paid: bool, now: int)
    requires id in a.grants
    ensures var (a', r) := GrantFor(a, digest, id, subscription, from, until, paid, now);
            && a' == a
            && (r.Ok? <==>
                  && from < until && now < until && until - from <= 370 * 86400 && subscription in a.bindings
                  && var b := a.bindings[subscription];
                     a.grants[id].hash == digest(Grant("", subscription, b.tenant, b.user, b.plan, from, until, paid, "", 0)))
            && (r.Ok? ==> r.value == a.grants[id])
  {
  }

  /** A new change stores exactly the terms it asks for, one version up, for that account alone; an old id never writes. */
  lemma EntitlesExactly(a: Access, digest: Terms -> string, id: string, terms: Terms)
    ensures var (a', r) := Entitle(a, digest, id, terms);
            var key := (terms.tenant, terms.user);
            if id in a.changes then
              && a' == a && (r.Ok? <==> a.changes[id].hash == digest(terms)) && (r.Ok? ==> r.value == a.changes[id].snapshot)
            else
              && r.Ok? && r.value.terms == terms
              && r.value.version == (if key in a.entitlements then a.entitlements[key].version else 0) + 1
              && a' == a.(entitlements := a.entitlements[key := r.value], changes := a.changes[id := EntitlementRow(digest(terms), r.value)])
  {
  }

  /** Access asked for right after a new change is given exactly by its terms. */
  lemma TermsDecideAccess(a: Access, digest: Terms -> string, id: string, terms: Terms, now: int, paid: bool)
    requires id !in a.changes
    ensures var a' := Entitle(a, digest, id, terms).0;
            RequireAccess(a', terms.tenant, terms.user, now, paid).Ok?
            <==> terms.state == Active && (terms.until.Some? ==> now < terms.until.value) && (paid ==> terms.paid)
  {
  }
}
