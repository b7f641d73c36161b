/** The joint invariant of the identity tables, kept by every transaction. */
module IdentityInvariant {
  import opened Prelude
  import opened Text
  import opened IdentityKeys
  import opened IdentityTables

  /** Foreign keys of the memberships, and generated ids. */
  predicate Seated(r: Roster) {
    && (forall m :: m in r.memberships ==> m.0 in r.tenants && m.1 in r.users)
    && (forall u :: u in r.users ==> Clean(u))
    && (forall te :: te in r.tenants ==> Clean(te))
  }

  /** A user has at most one primary membership, and owns that tenant. */
  predicate OnePrimary(r: Roster) {
    && (forall m :: m in r.memberships && r.memberships[m].primary ==> r.memberships[m].role == OWNER)
    && forall m, m' :: m in r.memberships && m' in r.memberships ==>
      m.1 == m'.1 && r.memberships[m].primary && r.memberships[m'].primary ==> m == m'
  }

  /** Every ACTIVE membership belongs to an enabled user. */
  predicate SeatsEnabled(r: Roster) {
    forall m :: m in r.memberships && r.memberships[m].status == Active ==> m.1 in r.users && r.users[m.1]
  }

  /** Every ACTIVE tenant keeps an ACTIVE owner. */
  ghost predicate TenantsOwned(r: Roster) {
    forall te :: te in r.tenants && r.tenants[te] ==> HasOwner(r, te)
  }

  ghost predicate HasOwner(r: Roster, te: string) {
    exists u :: ActiveOwner(r, te, u)
  }

  ghost predicate RosterGood(r: Roster) {
    Seated(r) && OnePrimary(r) && SeatsEnabled(r) && TenantsOwned(r)
  }

  /** Every link leads to the tenant of its user's primary membership. */
  predicate LinksPrimary(r: Roster, links: map<Key, LinkRow>) {
    forall k :: k in links ==> IsPrimary(r, links[k].tenant, links[k].user)
  }

  predicate LinkOf(links: map<Key, LinkRow>, k: Key, u: string) {
    k in links && links[k].user == u
  }

  ghost predicate HasLink(links: map<Key, LinkRow>, u: string) {
    exists k :: LinkOf(links, k, u)
  }

  /** Every enabled user can still sign in somehow. */
  ghost predicate UsersLinked(r: Roster, links: map<Key, LinkRow>) {
    forall u :: u in r.users && r.users[u] ==> HasLink(links, u)
  }

  predicate SessionOk(r: Roster, s: Session) {
    && (s.tenant, s.user) in r.memberships
    && (s.revoked.None? ==> ActiveSeat(r, s.tenant, s.user) && IsPrimary(r, s.tenant, s.user) && r.tenants[s.tenant])
  }

  /** Every session that is not revoked belongs to an ACTIVE primary membership in an ACTIVE tenant. */
  predicate SessionsSeated(r: Roster, sessions: map<string, Session>) {
    forall sid :: sid in sessions ==> SessionOk(r, sessions[sid])
  }

  ghost predicate Good(t: Tables) {
    RosterGood(t.roster) && LinksPrimary(t.roster, t.links) && UsersLinked(t.roster, t.links) && SessionsSeated(t.roster, t.sessions)
  }

  lemma PrimaryIs(r: Roster, te: string, u: string)
    requires OnePrimary(r) && IsPrimary(r, te, u)
    ensures Primary(r, u) == Some(te)
  {
  }

  /** An account that `get_account` reports is the user's primary membership, and enabled means all of it is. */
  lemma AccountShape(t: Tables, raw: string)
    ensures var a, r := GetAccount(t, raw), t.roster;
            a.Some? ==> && a.value.user == Strip(raw) && IsPrimary(r, a.value.tenant, a.value.user)
                        && (a.value.enabled ==> r.users[a.value.user] && r.tenants[a.value.tenant] && ActiveSeat(r, a.value.tenant, a.value.user))
  {
    hide Strip;
  }

  // ----- accounts and links -----

  lemma EnrollGood(r: Roster, user: Id, tenant: Id)
    requires RosterGood(r) && user !in r.users && tenant !in r.tenants
    ensures RosterGood(Enroll(r, user, tenant))
  {
    hide Clean;
    var r' := Enroll(r, user, tenant);
    forall te | te in r'.tenants && r'.tenants[te] ensures HasOwner(r', te) {
      if te == tenant {
        assert ActiveOwner(r', tenant, user);
      } else {
        assert HasOwner(r, te);
        var u :| ActiveOwner(r, te, u);
        assert ActiveOwner(r', te, u);
      }
    }
  }

  lemma CreateGood(t: Tables, i: Identity, user: Id, tenant: Id)
    requires Good(t)
    ensures Good(Create(t, i, user, tenant).0)
  {
    hide KeyOf, Clean;
    if Create(t, i, user, tenant).1.Ok? {
      EnrollGood(t.roster, user, tenant);
      EnrollLinks(t.roster, t.links, user, tenant, KeyOf(i), EmailOf(i));
      EnrollSessions(t.roster, t.sessions, user, tenant);
      hide RosterGood, LinksPrimary, UsersLinked, SessionsSeated, Enroll;
    }
  }

  lemma EnrollLinks(r: Roster, links: map<Key, LinkRow>, user: Id, tenant: Id, key: Key, email: Option<string>)
    requires LinksPrimary(r, links) && UsersLinked(r, links) && key !in links && user !in r.users && tenant !in r.tenants
    ensures var r', links' := Enroll(r, user, tenant), links[key := LinkRow(user, tenant, email)];
            LinksPrimary(r', links') && UsersLinked(r', links')
  {
    hide Clean;
    var r', links' := Enroll(r, user, tenant), links[key := LinkRow(user, tenant, email)];
    forall u | u in r'.users && r'.users[u] ensures HasLink(links', u) {
      if u == user { assert LinkOf(links', key, u); } else { LinkStays(links, links', u); }
    }
  }

  lemma EnrollSessions(r: Roster, sessions: map<string, Session>, user: Id, tenant: Id)
    requires SessionsSeated(r, sessions) && user !in r.users && tenant !in r.tenants
    requires Seated(r)
    ensures SessionsSeated(Enroll(r, user, tenant), sessions)
  {
    hide Clean;
  }

  lemma LinkStays(links: map<Key, LinkRow>, links': map<Key, LinkRow>, u: string)
    requires HasLink(links, u)
    requires forall k :: LinkOf(links, k, u) ==> LinkOf(links', k, u)
    ensures HasLink(links', u)
  {
  }

  lemma NewLinkGood(t: Tables, key: Key, row: LinkRow)
    requires Good(t) && key !in t.links && IsPrimary(t.roster, row.tenant, row.user)
    ensures Good(t.(links := t.links[key := row]))
  {
    hide RosterGood, SessionsSeated;
    var links' := t.links[key := row];
    forall u | u in t.roster.users && t.roster.users[u] ensures HasLink(links', u) { LinkStays(t.links, links', u); }
  }

  /** Deleting a link is safe as soon as its user keeps another. */
  lemma DroppedLinkGood(t: Tables, key: Key, other: Key)
    requires Good(t) && key in t.links && other in t.links && other != key && t.links[other].user == t.links[key].user
    ensures Good(t.(links := t.links - {key}))
  {
    hide RosterGood, SessionsSeated;
    var links' := t.links - {key};
    forall u | u in t.roster.users && t.roster.users[u] ensures HasLink(links', u) {
      if u == t.links[key].user { assert LinkOf(links', other, u); } else { LinkStays(t.links, links', u); }
    }
  }

  lemma OtherOfMany<T>(all: set<T>, one: T) returns (other: T)
    requires |all| > 1
    ensures other in all && other != one
  {
    assert |{one}| == 1;
    assert !(all <= {one}) by {
      if all <= {one} { SubsetSize(all, {one}); assert false; }
    }
    other :| other in all && other != one;
  }

  lemma AddLinkGood(t: Tables, a: Account, i: Identity)
    requires Good(t)
    ensures Good(AddLink(t, a, i).0)
  {
    hide Good, GetAccount, IsPrimary;
    if AddLink(t, a, i).1.Ok? {
      AccountShape(t, a.user);
      NewLinkGood(t, KeyOf(i), LinkRow(a.user, a.tenant, EmailOf(i)));
    }
  }

  lemma RemoveLinkGood(t: Tables, a: Account, i: Identity)
    requires Good(t)
    ensures Good(RemoveLink(t, a, i).0)
  {
    hide Good, GetAccount;
    if RemoveLink(t, a, i).1.Ok? {
      var other := OtherOfMany(SeatLinks(t, a.user, a.tenant), KeyOf(i));
      DroppedLinkGood(t, KeyOf(i), other);
    }
  }

  lemma RemoveIfAlternateGood(t: Tables, user: string, tenant: string, i: Identity)
    requires Good(t)
    ensures Good(RemoveIfAlternate(t, user, tenant, i).0)
  {
    hide Good;
    if RemoveIfAlternate(t, user, tenant, i).1.Ok? {
      var rest := SeatLinks(t, user, tenant) - {KeyOf(i)};
      assert rest != {};
      var other :| other in rest;
      DroppedLinkGood(t, KeyOf(i), other);
    }
  }

  lemma RetireGood(r: Roster, a: Account)
    requires RosterGood(r) && (a.tenant, a.user) in r.memberships
    requires SeatsOf(r, a.user) == {(a.tenant, a.user)}
    ensures RosterGood(Retire(r, a))
  {
    hide Clean;
    var r' := Retire(r, a);
    forall m | m in r'.memberships && r'.memberships[m].status == Active ensures m.1 in r'.users && r'.users[m.1] {
      assert m.1 == a.user ==> m in SeatsOf(r, a.user);
    }
    forall te | te in r'.tenants && r'.tenants[te] ensures HasOwner(r', te) {
      assert HasOwner(r, te);
      var u :| ActiveOwner(r, te, u);
      assert ActiveOwner(r', te, u);
    }
  }

  lemma TransferGood(t: Tables, a: Account, i: Identity, now: int)
    requires Good(t)
    ensures Good(Transfer(t, a, i, now).0)
  {
    hide GetAccount, KeyOf, RosterGood;
    var (t', done) := Transfer(t, a, i, now);
    if t' != t {
      var source := GetAccount(t, t.links[KeyOf(i)].user).value;
      AccountShape(t, a.user);
      AccountShape(t, t.links[KeyOf(i)].user);
      LinkUserClean(t, KeyOf(i));
      TransferLinks(t, a, source, KeyOf(i), now);
    }
  }

  lemma LinkUserClean(t: Tables, key: Key)
    requires Good(t) && key in t.links
    ensures Strip(t.links[key].user) == t.links[key].user && t.links[key].user != ""
  {
    hide Strip;
    assert IsPrimary(t.roster, t.links[key].tenant, t.links[key].user);
  }

  lemma TransferLinks(t: Tables, a: Account, s: Account, key: Key, now: int)
    requires Good(t) && key in t.links && Isolated(t, s) && (s.tenant, s.user) in t.roster.memberships
    requires t.links[key].user == s.user && t.links[key].tenant == s.tenant
    requires (a.user != s.user || a.tenant != s.tenant) && IsPrimary(t.roster, a.tenant, a.user)
    ensures var links' := t.links[key := t.links[key].(user := a.user, tenant := a.tenant)];
            Good(RevokeSessions(t, Filter(None, Some(s.user), Some(s.tenant)), now).(roster := Retire(t.roster, s), links := links'))
  {
    var r, r' := t.roster, Retire(t.roster, s);
    var row' := t.links[key].(user := a.user, tenant := a.tenant);
    var links' := t.links[key := row'];
    RetireGood(r, s);
    assert (a.tenant, a.user) != (s.tenant, s.user);
    assert a.user != s.user by {
      assert (a.tenant, a.user) in SeatsOf(r, a.user);
    }
    LoneLink(t, s, key);
    TransferSessions(t, s, now);
    MovedLinks(r, t.links, a, s, key);
    hide RosterGood, SessionsSeated, LinksPrimary, UsersLinked, RevokeSessions, Isolated, Retire, IsPrimary;
  }

  lemma MovedLinks(r: Roster, links: map<Key, LinkRow>, a: Account, s: Account, key: Key)
    requires LinksPrimary(r, links) && UsersLinked(r, links) && IsPrimary(r, a.tenant, a.user) && a.user != s.user
    requires key in links && (s.tenant, s.user) in r.memberships
    requires forall k :: k in links && links[k].user == s.user ==> k == key
    ensures var r', links' := Retire(r, s), links[key := links[key].(user := a.user, tenant := a.tenant)];
            LinksPrimary(r', links') && (links[key].user == s.user ==> UsersLinked(r', links'))
  {
    var r', links' := Retire(r, s), links[key := links[key].(user := a.user, tenant := a.tenant)];
    forall k | k in links' ensures IsPrimary(r', links'[k].tenant, links'[k].user) {
      assert IsPrimary(r, links'[k].tenant, links'[k].user);
    }
    if links[key].user == s.user {
      forall u | u in r'.users && r'.users[u] ensures HasLink(links', u) {
        LinkStays(links, links', u);
      }
    }
  }

  /** An isolated account has no other link. */
  lemma LoneLink(t: Tables, s: Account, key: Key)
    requires Good(t) && Isolated(t, s) && key in SeatLinks(t, s.user, s.tenant)
    ensures forall k :: k in t.links && t.links[k].user == s.user ==> k == key
  {
    forall k | k in t.links && t.links[k].user == s.user ensures k == key {
      assert IsPrimary(t.roster, t.links[k].tenant, s.user);
      assert (t.links[k].tenant, s.user) in SeatsOf(t.roster, s.user);
      assert k in SeatLinks(t, s.user, s.tenant);
      if k != key { SubsetSize({k, key}, SeatLinks(t, s.user, s.tenant)); assert false; }
    }
  }

  lemma TransferSessions(t: Tables, s: Account, now: int)
    requires Good(t) && Isolated(t, s) && (s.tenant, s.user) in t.roster.memberships
    ensures SessionsSeated(Retire(t.roster, s), RevokeSessions(t, Filter(None, Some(s.user), Some(s.tenant)), now).sessions)
  {
    hide RosterGood, LinksPrimary, UsersLinked;
    forall sid | sid in t.sessions && t.sessions[sid].tenant == s.tenant ensures t.sessions[sid].user == s.user {
      assert SessionOk(t.roster, t.sessions[sid]);
      assert (s.tenant, t.sessions[sid].user) in SeatsIn(t.roster, s.tenant);
    }
  }

  // ----- sessions -----

  lemma RevokeGood(t: Tables, f: Filter, now: int)
    requires Good(t)
    ensures Good(RevokeSessions(t, f, now))
  {
    hide RosterGood, LinksPrimary, UsersLinked;
  }

  lemma PersistGood(t: Tables, sid: string, user: string, tenant: string, hash: string, expires: int)
    requires Good(t)
    ensures Good(PersistSession(t, sid, user, tenant, hash, expires).0)
  {
    hide GetAccount, Strip, OnePrimary, SeatsEnabled, TenantsOwned, LinksPrimary, UsersLinked;
    if PersistSession(t, sid, user, tenant, hash, expires).1.Ok? {
      AccountShape(t, user);
    }
  }

  lemma IssueGood(digest: string -> string, t: Tables, a: Account, now: int, lifetime: int, maximum: int, sid: Id, credential: Id)
    requires Good(t)
    ensures Good(Issue(digest, t, a, now, lifetime, maximum, sid, credential).0)
  {
    hide Strip, Clean, RosterGood, LinksPrimary, UsersLinked;
  }
}
