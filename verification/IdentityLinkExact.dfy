/** When identities are accepted, created, linked, moved and unlinked, read off the tables, and what that changes. */
module IdentityLinkExact {
  import opened Prelude
  import opened Text
  import opened IdentityKeys
  import opened IdentityTables
  import opened IdentityInvariant
  import opened IdentityExact

  // ----- identities -----

  /** Which identities pass `normalized`, and what is left of them. */
  lemma NormalizesExactly(fold: string -> string, i: Identity)
    requires fold("") == ""
    ensures var r := Normalized(fold, i);
            var subject, email := Strip(i.subject), if i.email.Some? then fold(Strip(i.email.value)) else "";
            && (r.Ok? <==>
                  && subject != ""
                  && (i.provider == Email ==> email != "" && i.emailVerified && fold(subject) == email)
                  && (i.provider == Microsoft || i.provider == EnterpriseOidc ==> i.issuer.Some? && i.issuer.value != ""))
            && (r.Ok? ==>
                  && r.value.provider == i.provider && r.value.emailVerified == i.emailVerified
                  && r.value.subject == (if i.provider == Email then email else subject)
                  && r.value.email == (if email == "" then None else Some(email))
                  && r.value.issuer == (if i.issuer.Some? && i.issuer.value != "" then Some(Strip(i.issuer.value)) else None))
  {
    hide Strip;
  }

  /** A stored link: under which key, and with which email. */
  lemma KeysExactly(i: Identity)
    ensures KeyOf(i).0 == i.provider && KeyOf(i).2 == i.subject
    ensures KeyOf(i).1 == if (i.provider == Microsoft || i.provider == EnterpriseOidc) && i.issuer.Some? then i.issuer.value else ""
    ensures EmailOf(i) == if i.emailVerified then i.email else None
  {
  }

  // ----- the first sign-in -----

  /** An unknown identity gets a user, a tenant, the owning primary seat and one link, all new; nothing else changes. */
  lemma CreatesExactly(fold: string -> string, t: Tables, i: Identity, user: Id, tenant: Id)
    requires Canonical(fold, i).Ok? && KeyOf(Canonical(fold, i).value) !in t.links
    ensures var (t', r) := SignIn(fold, t, i, user, tenant);
            var c := Canonical(fold, i).value;
            && (r.Ok? <==> user !in t.roster.users && tenant !in t.roster.tenants && (tenant, user) !in t.roster.memberships)
            && (r.Ok? ==>
                  && r.value == Account(user, tenant, true)
                  && t'.roster.users == t.roster.users[user := true] && t'.roster.tenants == t.roster.tenants[tenant := true]
                  && t'.roster.memberships == t.roster.memberships[(tenant, user) := Membership("OWNER", Active, true)]
                  && t'.links == t.links[KeyOf(c) := LinkRow(user, tenant, if c.emailVerified then c.email else None)]
                  && t'.sessions == t.sessions && t'.entitlements == t.entitlements && t'.events == t.events)
            && (r.Err? ==> t' == t)
  {
    hide Canonical, KeyOf, Clean;
  }

  // ----- linking -----

  /** The key is linked to an account that is nothing but a bootstrap: one link, one owning seat, a tenant of its own, no entitlement. */
  ghost predicate Bootstrap(t: Tables, key: Key) {
    && key in t.links
    && var u, te := t.links[key].user, t.links[key].tenant;
       && LiveAccount(t.roster, te, u)
       && (forall k :: k in t.links && t.links[k].user == u && t.links[k].tenant == te ==> k == key)
       && Holds(t.roster, te, u, {"OWNER"})
       && (forall m :: m in t.roster.memberships && (m.0 == te || m.1 == u) ==> m == (te, u))
       && (forall e :: e in t.entitlements ==> e.0 != te)
  }

  lemma OneOf<T>(s: set<T>, x: T)
    requires x in s
    ensures |s| == 1 <==> forall y :: y in s ==> y == x
  {
    if |s| == 1 {
      forall y | y in s ensures y == x { if y != x { SubsetSize({x, y}, s); assert false; } }
    }
    if forall y :: y in s ==> y == x { assert s == {x}; }
  }

  lemma SeatsMatch(r: Roster, te: string, u: string)
    requires (te, u) in r.memberships
    ensures SeatsOf(r, u) == {(te, u)} && SeatsIn(r, te) == {(te, u)}
       <==> forall m :: m in r.memberships && (m.0 == te || m.1 == u) ==> m == (te, u)
  {
    var mine := (te, u);
    if SeatsOf(r, u) == {mine} && SeatsIn(r, te) == {mine} {
      forall m | m in r.memberships && (m.0 == te || m.1 == u) ensures m == mine {
        assert m in SeatsOf(r, u) || m in SeatsIn(r, te);
      }
    }
    if forall m :: m in r.memberships && (m.0 == te || m.1 == u) ==> m == mine {
      assert SeatsOf(r, u) == {mine};
      assert SeatsIn(r, te) == {mine};
    }
  }

  lemma OneSeatLink(t: Tables, key: Key)
    requires key in t.links
    ensures var u, te := t.links[key].user, t.links[key].tenant;
            |SeatLinks(t, u, te)| == 1 <==> forall k :: k in t.links && t.links[k].user == u && t.links[k].tenant == te ==> k == key
  {
    var u, te := t.links[key].user, t.links[key].tenant;
    assert forall k :: k in SeatLinks(t, u, te) <==> k in t.links && t.links[k].user == u && t.links[k].tenant == te;
    hide SeatLinks;
    OneOf(SeatLinks(t, u, te), key);
  }

  lemma IsolatedIsBootstrap(t: Tables, key: Key)
    requires Good(t) && key in t.links && LiveAccount(t.roster, t.links[key].tenant, t.links[key].user)
    ensures Isolated(t, Account(t.links[key].user, t.links[key].tenant, true)) <==> Bootstrap(t, key)
  {
    var u, te := t.links[key].user, t.links[key].tenant;
    LinkSeated(t, key);
    PrimaryOwner(t.roster, te, u);
    SeatsMatch(t.roster, te, u);
    OneSeatLink(t, key);
    hide Good, SeatsOf, SeatsIn, SeatLinks, RosterGood;
    assert t.roster.memberships[(te, u)] == Membership(OWNER, Active, true);
  }

  /** What a link call leaves: a new link, or the only link of a bootstrap account, which ends. */
  predicate LinkedRows(t: Tables, t': Tables, c: Identity, u: string, te: string, now: int) {
    var key := KeyOf(c);
    if key !in t.links then
      t' == t.(links := t.links[key := LinkRow(u, te, if c.emailVerified then c.email else None)])
    else if t.links[key].user == u && t.links[key].tenant == te then t' == t
    else
      var row := t.links[key];
      && t'.links == t.links[key := row.(user := u, tenant := te)]
      && t'.roster.users == t.roster.users[row.user := false] && t'.roster.tenants == t.roster.tenants[row.tenant := false]
      && (row.tenant, row.user) in t.roster.memberships
      && t'.roster.memberships == t.roster.memberships[(row.tenant, row.user) :=
           t.roster.memberships[(row.tenant, row.user)].(status := Revoked, primary := false)]
      && RevokedExactly(t.sessions, t'.sessions, Some(row.user), Some(row.tenant), now)
      && t'.entitlements == t.entitlements && t'.events == t.events
  }

  /** A link call succeeds exactly for a recent live account and an identity that is new, already its own, or of a bootstrap account. */
  lemma LinksExactly(fold: string -> string, t: Tables, user: string, tenant: string, i: Identity, recent: bool, now: int)
    requires Good(t)
    ensures var (t', r) := LinkIdentity(fold, t, user, tenant, i, recent, now);
            var u, te := Strip(user), Strip(tenant);
            && (r.Ok? <==>
                  && recent && u != "" && te != "" && LiveAccount(t.roster, te, u) && Canonical(fold, i).Ok?
                  && var key := KeyOf(Canonical(fold, i).value);
                     key !in t.links || (t.links[key].user == u && t.links[key].tenant == te) || Bootstrap(t, key))
            && (r.Ok? ==> LinkedRows(t, t', Canonical(fold, i).value, u, te, now))
            && (r.Err? ==> t' == t)
  {
    AuthenticatesExactly(t, user, tenant, recent);
    hide Strip, Authenticated, LiveAccount, Good, Canonical, AddLink, Transfer, KeyOf, Bootstrap, LinkedRows;
    var u, te := Strip(user), Strip(tenant);
    if recent && u != "" && te != "" && LiveAccount(t.roster, te, u) && Canonical(fold, i).Ok? {
      var c := Canonical(fold, i).value;
      StripTwice(user);
      AccountExactly(t, u, te);
      if KeyOf(c) !in t.links {
        NewLink(t, c, u, te, now);
      } else if t.links[KeyOf(c)].user == u && t.links[KeyOf(c)].tenant == te {
        OwnLink(t, c, u, te, now);
      } else {
        MovedLink(t, c, u, te, now);
      }
    }
  }

  lemma NewLink(t: Tables, c: Identity, u: string, te: string, now: int)
    requires GetAccount(t, u) == Some(Account(u, te, true)) && KeyOf(c) !in t.links
    ensures var (t', r) := AddLink(t, Account(u, te, true), c); r.Ok? && LinkedRows(t, t', c, u, te, now)
  {
    hide GetAccount, KeyOf;
  }

  lemma OwnLink(t: Tables, c: Identity, u: string, te: string, now: int)
    requires KeyOf(c) in t.links && t.links[KeyOf(c)].user == u && t.links[KeyOf(c)].tenant == te
    ensures LinkedRows(t, t, c, u, te, now)
  {
    hide KeyOf;
  }

  lemma MovedLink(t: Tables, c: Identity, u: string, te: string, now: int)
    requires Good(t) && GetAccount(t, u) == Some(Account(u, te, true)) && KeyOf(c) in t.links
    requires t.links[KeyOf(c)].user != u || t.links[KeyOf(c)].tenant != te
    ensures var (t', r) := Transfer(t, Account(u, te, true), c, now);
            (r.Ok? <==> Bootstrap(t, KeyOf(c))) && (if r.Ok? then LinkedRows(t, t', c, u, te, now) else t' == t)
  {
    var key := KeyOf(c);
    var row := t.links[key];
    LinkSeated(t, key);
    SeatedClean(t.roster, row.tenant, row.user);
    AccountExactly(t, row.user, row.tenant);
    if LiveAccount(t.roster, row.tenant, row.user) { IsolatedIsBootstrap(t, key); }
    Revokes(t, Some(row.user), Some(row.tenant), now);
    BootstrapLives(t, key);
    hide GetAccount, KeyOf, Good, Bootstrap, LiveAccount, Isolated, RevokeSessions, RevokedExactly, Strip;
  }

  lemma BootstrapLives(t: Tables, key: Key)
    ensures Bootstrap(t, key) ==> key in t.links && LiveAccount(t.roster, t.links[key].tenant, t.links[key].user)
  {
  }

  // ----- unlinking -----

  ghost predicate OtherLink(t: Tables, key: Key, u: string, te: string) {
    exists k :: k != key && k in t.links && t.links[k].user == u && t.links[k].tenant == te
  }

  lemma AnotherLink(t: Tables, key: Key, u: string, te: string)
    requires key in t.links && t.links[key].user == u && t.links[key].tenant == te
    ensures |SeatLinks(t, u, te)| > 1 <==> OtherLink(t, key, u, te)
    ensures |SeatLinks(t, u, te) - {key}| >= 1 <==> OtherLink(t, key, u, te)
  {
    OneSeatLink(t, key);
    assert key in SeatLinks(t, u, te);
    if OtherLink(t, key, u, te) {
      var k :| k != key && k in t.links && t.links[k].user == u && t.links[k].tenant == te;
      SubsetSize({k}, SeatLinks(t, u, te) - {key});
      SubsetSize({k, key}, SeatLinks(t, u, te));
    } else {
      assert SeatLinks(t, u, te) - {key} == {};
      assert SeatLinks(t, u, te) == {key};
    }
  }

  /** An unlink succeeds exactly for a recent live account and a link of its own beside which it has another; the link goes. */
  lemma UnlinksExactly(fold: string -> string, t: Tables, user: string, tenant: string, i: Identity, recent: bool)
    requires Good(t)
    ensures var (t', r) := Unlink(fold, t, user, tenant, i, recent);
            var u, te := Strip(user), Strip(tenant);
            && (r.Ok? <==>
                  && recent && u != "" && te != "" && LiveAccount(t.roster, te, u) && Canonical(fold, i).Ok?
                  && var key := KeyOf(Canonical(fold, i).value);
                     && key in t.links && t.links[key].user == u && t.links[key].tenant == te && OtherLink(t, key, u, te))
            && t' == (if r.Ok? then t.(links := t.links - {KeyOf(Canonical(fold, i).value)}) else t)
  {
    AuthenticatesExactly(t, user, tenant, recent);
    hide Strip, Authenticated, LiveAccount, Good, Canonical, KeyOf, SeatLinks, OtherLink, GetAccount;
    var u, te := Strip(user), Strip(tenant);
    if recent && u != "" && te != "" && LiveAccount(t.roster, te, u) && Canonical(fold, i).Ok? {
      StripTwice(user);
      AccountExactly(t, u, te);
      var key := KeyOf(Canonical(fold, i).value);
      if key in t.links && t.links[key].user == u && t.links[key].tenant == te { AnotherLink(t, key, u, te); }
    }
  }

  /** Both identities are links of the account, and different ones. */
  predicate TwoOwnLinks(t: Tables, goal: Key, proof: Key, u: string, te: string) {
    && goal != proof && goal in t.links && proof in t.links
    && t.links[goal].user == u && t.links[goal].tenant == te && t.links[proof].user == u && t.links[proof].tenant == te
  }

  lemma ChecksExactly(fold: string -> string, t: Tables, u: string, te: string, target: Identity, reauth: Identity)
    requires Good(t) && Strip(u) == u && Strip(te) == te
    ensures var checked, goal, proof := LifecycleCheck(fold, t, u, te, target, reauth), Normalized(fold, target), Normalized(fold, reauth);
            && (checked.Ok? <==>
                  && u != "" && te != "" && LiveAccount(t.roster, te, u) && goal.Ok? && proof.Ok?
                  && TwoOwnLinks(t, KeyOf(goal.value), KeyOf(proof.value), u, te))
            && (checked.Ok? ==> checked == goal)
  {
    hide Strip, Authenticated, LiveAccount, Good, Normalized, KeyOf, OwnedLinks;
    AuthenticatesExactly(t, u, te, true);
    var goal, proof := Normalized(fold, target), Normalized(fold, reauth);
    if goal.Ok? && proof.Ok? && TwoOwnLinks(t, KeyOf(goal.value), KeyOf(proof.value), u, te) {
      TwoOwned(t, KeyOf(goal.value), KeyOf(proof.value), u);
    }
  }

  lemma RemovesChecked(t: Tables, u: string, te: string, i: Identity, proof: Key)
    requires TwoOwnLinks(t, KeyOf(i), proof, u, te)
    ensures RemoveIfAlternate(t, u, te, i) == (t.(links := t.links - {KeyOf(i)}), Ok(t.links[KeyOf(i)]))
  {
    AnotherLink(t, KeyOf(i), u, te);
    assert OtherLink(t, KeyOf(i), u, te);
    hide KeyOf, SeatLinks;
  }

  /**
   * The lifecycle unlink succeeds exactly for a live account that also shows another of its own links; the identities
   * are normalized by the caller and again by the check.
   */
  lemma LifecycleUnlinksExactly(fold: string -> string, t: Tables, user: string, tenant: string, target: Identity, reauth: Identity)
    requires Good(t)
    ensures var (t', r) := LifecycleUnlink(fold, t, user, tenant, target, reauth);
            var u, te, goal, proof := Strip(user), Strip(tenant), Canonical(fold, target), Canonical(fold, reauth);
            && (r.Ok? <==>
                  && u != "" && te != "" && LiveAccount(t.roster, te, u) && goal.Ok? && proof.Ok?
                  && TwoOwnLinks(t, KeyOf(goal.value), KeyOf(proof.value), u, te))
            && t'.links == (if r.Ok? then t.links - {KeyOf(goal.value)} else t.links)
            && t'.roster == t.roster && t'.sessions == t.sessions && t'.entitlements == t.entitlements
  {
    var u, te, once, proofOnce := Strip(user), Strip(tenant), Normalized(fold, target), Normalized(fold, reauth);
    StripTwice(user);
    StripTwice(tenant);
    hide Strip, LiveAccount, Good, Normalized, KeyOf, LifecycleCheck, RemoveIfAlternate, TwoOwnLinks;
    if once.Ok? && proofOnce.Ok? {
      ChecksExactly(fold, t, u, te, once.value, proofOnce.value);
      if LifecycleCheck(fold, t, u, te, once.value, proofOnce.value).Ok? {
        RemovesChecked(t, u, te, Canonical(fold, target).value, KeyOf(Canonical(fold, reauth).value));
      }
    }
  }

  lemma TwoOwned(t: Tables, a: Key, b: Key, u: string)
    requires a != b && a in t.links && b in t.links && t.links[a].user == u && t.links[b].user == u
    ensures |OwnedLinks(t, u)| >= 2
  {
    SubsetSize({a, b}, OwnedLinks(t, u));
  }
}
