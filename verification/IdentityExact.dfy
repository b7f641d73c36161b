/** When each identity transaction succeeds, read off the tables, and every row it then changes. */
module IdentityExact {
  import opened Prelude
  import opened Text
  import opened IdentityKeys
  import opened IdentityTables
  import opened IdentityInvariant

  // ----- rows -----

  /** The user holds an ACTIVE seat of the tenant in one of these roles. */
  predicate Holds(r: Roster, tenant: string, user: string, roles: set<string>) {
    (tenant, user) in r.memberships && r.memberships[(tenant, user)].status == Active && r.memberships[(tenant, user)].role in roles
  }

  predicate SitsIn(r: Roster, tenant: string, user: string) {
    (tenant, user) in r.memberships && r.memberships[(tenant, user)].status == Active
  }

  /** Somebody else owns the tenant too. */
  ghost predicate OtherOwner(r: Roster, tenant: string, user: string) {
    exists other :: other != user && Holds(r, tenant, other, {"OWNER"})
  }

  ghost predicate SeatedAnywhere(r: Roster, user: string) {
    exists tenant :: SitsIn(r, tenant, user)
  }

  /** Exactly the sessions that match are revoked, unless they were before; none comes or goes. */
  predicate RevokedExactly(before: map<string, Session>, after: map<string, Session>, user: Option<string>, tenant: Option<string>, now: int) {
    && after.Keys == before.Keys
    && forall sid :: sid in before ==>
         after[sid] ==
         if (user.None? || before[sid].user == user.value) && (tenant.None? || before[sid].tenant == tenant.value) && before[sid].revoked.None?
         then before[sid].(revoked := Some(now)) else before[sid]
  }

  /** The seats that match are REVOKED; nothing else about any seat changes. */
  predicate UnseatedExactly(before: map<Seat, Membership>, after: map<Seat, Membership>, user: Option<string>, tenant: Option<string>) {
    && after.Keys == before.Keys
    && forall m :: m in before ==>
         after[m] == if (user.None? || m.1 == user.value) && (tenant.None? || m.0 == tenant.value) then before[m].(status := Revoked)
                     else before[m]
  }

  lemma Revokes(t: Tables, user: Option<string>, tenant: Option<string>, now: int)
    ensures var t' := RevokeSessions(t, Filter(None, user, tenant), now);
            t' == t.(sessions := t'.sessions) && RevokedExactly(t.sessions, t'.sessions, user, tenant, now)
  {
  }

  lemma NoneLeft(r: Roster, user: string)
    ensures ActiveSeatsOf(r, user) == {} <==> !SeatedAnywhere(r, user)
  {
    if SeatedAnywhere(r, user) {
      var tenant :| SitsIn(r, tenant, user);
      assert (tenant, user) in ActiveSeatsOf(r, user);
    }
    if ActiveSeatsOf(r, user) != {} {
      var m :| m in ActiveSeatsOf(r, user);
      assert SitsIn(r, m.0, user);
    }
  }

  lemma SameSeats(r: Roster, r': Roster, user: string)
    requires r.memberships == r'.memberships
    ensures SeatedAnywhere(r, user) <==> SeatedAnywhere(r', user)
  {
    if SeatedAnywhere(r, user) {
      var tenant :| SitsIn(r, tenant, user);
      assert SitsIn(r', tenant, user);
    }
    if SeatedAnywhere(r', user) {
      var tenant :| SitsIn(r', tenant, user);
      assert SitsIn(r, tenant, user);
    }
  }

  // ----- departure -----

  lemma OwnersCounted(r: Roster, tenant: string, user: string)
    requires Holds(r, tenant, user, {"OWNER"})
    ensures |OwnersOf(r, tenant)| > 1 <==> OtherOwner(r, tenant, user)
  {
    var owners, me := OwnersOf(r, tenant), (tenant, user);
    assert me in owners;
    if OtherOwner(r, tenant, user) {
      var other :| other != user && Holds(r, tenant, other, {"OWNER"});
      SubsetSize({me, (tenant, other)}, owners);
    } else {
      forall m | m in owners ensures m == me { assert m.1 != user ==> Holds(r, tenant, m.1, {"OWNER"}); }
      assert owners == {me};
    }
  }

  /** A departure succeeds exactly for a recent owner or administrator of the tenant and an ACTIVE member who is not its last owner. */
  lemma DepartsExactly(t: Tables, actor: string, tenant: string, target: string, recent: bool, now: int)
    ensures var a, te, u := Strip(actor), Strip(tenant), Strip(target);
            Depart(t, actor, tenant, target, recent, now).1.Ok? <==>
              && a != "" && te != "" && u != "" && recent
              && Holds(t.roster, te, a, {"OWNER", "ADMIN"})
              && SitsIn(t.roster, te, u)
              && (Holds(t.roster, te, u, {"OWNER"}) ==> OtherOwner(t.roster, te, u))
  {
    hide Strip, Departed, OpenSessions, OwnersOf;
    var te, u := Strip(tenant), Strip(target);
    if Holds(t.roster, te, u, {"OWNER"}) { OwnersCounted(t.roster, te, u); }
  }

  /** One seat ends, and its user with it if no ACTIVE seat is left. */
  ghost predicate SeatEnded(r: Roster, r': Roster, tenant: string, user: string) {
    && UnseatedExactly(r.memberships, r'.memberships, Some(user), Some(tenant))
    && r'.tenants == r.tenants && r'.users.Keys == r.users.Keys
    && forall x :: x in r.users ==> r'.users[x] == (r.users[x] && (x == user ==> SeatedAnywhere(r', user)))
  }

  lemma DepartEndsSeat(r: Roster, tenant: string, user: string)
    requires (tenant, user) in r.memberships
    ensures SeatEnded(r, DisableIfGone(Unseat(r, tenant, user), user), tenant, user)
  {
    var mid, r' := Unseat(r, tenant, user), DisableIfGone(Unseat(r, tenant, user), user);
    NoneLeft(mid, user);
    SameSeats(mid, r', user);
    hide ActiveSeatsOf, SeatedAnywhere;
  }

  /** The member's seat ends, with its sessions; the user is disabled if no ACTIVE seat is left; nothing else changes. */
  lemma DepartChanges(t: Tables, actor: string, tenant: string, target: string, recent: bool, now: int)
    requires Depart(t, actor, tenant, target, recent, now).1.Ok?
    ensures var t', te, u := Depart(t, actor, tenant, target, recent, now).0, Strip(tenant), Strip(target);
            && SeatEnded(t.roster, t'.roster, te, u)
            && RevokedExactly(t.sessions, t'.sessions, Some(u), Some(te), now)
            && t'.links == t.links && t'.entitlements == t.entitlements
            && t'.events == t.events + [Audit(MemberDeparture, te, None)]
  {
    hide Strip, OwnersOf, OpenSessions, DisableIfGone, Unseat, RevokeSessions, SeatEnded, RevokedExactly;
    var te, u := Strip(tenant), Strip(target);
    Revokes(t, Some(u), Some(te), now);
    DepartEndsSeat(t.roster, te, u);
  }

  // ----- account deletion -----

  /** A deletion succeeds exactly for a recent, confirmed, enabled user who actively owns no tenant. */
  lemma DeletesExactly(t: Tables, user: string, recent: bool, confirmed: bool, now: int)
    ensures var u := Strip(user);
            Delete(t, user, recent, confirmed, now).1.Ok? <==>
              && u != "" && recent && confirmed && u in t.roster.users && t.roster.users[u]
              && forall te :: !Holds(t.roster, te, u, {"OWNER"})
  {
    hide Strip, Deleted, RowsToDelete;
    var u := Strip(user);
    forall te ensures Holds(t.roster, te, u, {"OWNER"}) <==> (te, u) in OwnerSeatsOf(t.roster, u) {}
    assert (forall te :: (te, u) !in OwnerSeatsOf(t.roster, u)) ==> OwnerSeatsOf(t.roster, u) == {} by {
      if OwnerSeatsOf(t.roster, u) != {} {
        var m :| m in OwnerSeatsOf(t.roster, u);
        assert (m.0, u) in OwnerSeatsOf(t.roster, u);
      }
    }
    hide OwnerSeatsOf, Holds;
  }

  /** Every seat, session and link of the user ends, and the user; nothing else changes. */
  lemma DeleteChanges(t: Tables, user: string, recent: bool, confirmed: bool, now: int)
    requires Delete(t, user, recent, confirmed, now).1.Ok?
    ensures var t', u := Delete(t, user, recent, confirmed, now).0, Strip(user);
            && UnseatedExactly(t.roster.memberships, t'.roster.memberships, Some(u), None)
            && RevokedExactly(t.sessions, t'.sessions, Some(u), None, now)
            && t'.roster.users == t.roster.users[u := false] && t'.roster.tenants == t.roster.tenants
            && (forall k :: k in t'.links <==> k in t.links && t.links[k].user != u) && (forall k :: k in t'.links ==> t'.links[k] == t.links[k])
            && t'.entitlements == t.entitlements
            && t'.events == t.events + [Audit(AccountDelete, u, None)]
  {
    hide Strip, OwnerSeatsOf, RevokeSessions, RowsToDelete, RevokedExactly;
    Revokes(t, Some(Strip(user)), None, now);
  }

  // ----- tenant closing -----

  /** A closing succeeds exactly for a recent, confirmed ACTIVE owner of an ACTIVE tenant. */
  lemma ClosesExactly(t: Tables, actor: string, tenant: string, recent: bool, confirmed: bool, now: int)
    ensures var a, te := Strip(actor), Strip(tenant);
            CloseTenant(t, actor, tenant, recent, confirmed, now).1.Ok? <==>
              && a != "" && te != "" && recent && confirmed && te in t.roster.tenants && t.roster.tenants[te]
              && Holds(t.roster, te, a, {"OWNER"})
  {
    hide Strip, Closed, RowsToClose;
  }

  /** The tenant and all its seats end, and the members without an ACTIVE seat elsewhere. */
  ghost predicate TenantEnded(r: Roster, r': Roster, tenant: string) {
    && UnseatedExactly(r.memberships, r'.memberships, None, Some(tenant))
    && r'.tenants == r.tenants[tenant := false] && r'.users.Keys == r.users.Keys
    && forall x :: x in r.users ==> r'.users[x] == (r.users[x] && ((tenant, x) in r.memberships ==> SeatedAnywhere(r', x)))
  }

  lemma CloseEndsTenant(r: Roster, tenant: string)
    ensures TenantEnded(r, DisableGone(UnseatTenant(r, tenant), tenant), tenant)
  {
    var mid, r' := UnseatTenant(r, tenant), DisableGone(UnseatTenant(r, tenant), tenant);
    forall x ensures ActiveSeatsOf(mid, x) == {} <==> !SeatedAnywhere(r', x) {
      NoneLeft(mid, x);
      SameSeats(mid, r', x);
    }
    hide ActiveSeatsOf, SeatedAnywhere;
  }

  /** All seats, sessions and entitlements of the tenant end, and members left without a seat; nothing else changes. */
  lemma CloseChanges(t: Tables, actor: string, tenant: string, recent: bool, confirmed: bool, now: int)
    requires CloseTenant(t, actor, tenant, recent, confirmed, now).1.Ok?
    ensures var t', te := CloseTenant(t, actor, tenant, recent, confirmed, now).0, Strip(tenant);
            && TenantEnded(t.roster, t'.roster, te)
            && RevokedExactly(t.sessions, t'.sessions, None, Some(te), now)
            && t'.entitlements.Keys == t.entitlements.Keys
            && (forall e :: e in t.entitlements ==>
                 t'.entitlements[e] == if e.0 == te then t.entitlements[e].(state := "REVOKED") else t.entitlements[e])
            && t'.links == t.links
            && t'.events == t.events + [Audit(TenantDelete, te, None)]
  {
    hide Strip, RevokeSessions, RowsToClose, DisableGone, UnseatTenant, TenantEnded, RevokedExactly;
    Revokes(t, None, Some(Strip(tenant)), now);
    CloseEndsTenant(t.roster, Strip(tenant));
  }

  // ----- why a transaction was refused -----

  /** What each refusal of a departure says is so. */
  lemma DepartRefusalIsTrue(t: Tables, actor: string, tenant: string, target: string, recent: bool, now: int)
    requires Depart(t, actor, tenant, target, recent, now).1.Err?
    ensures var a, te, u := Strip(actor), Strip(tenant), Strip(target);
            match Depart(t, actor, tenant, target, recent, now).1.error
            case ContextIncomplete => a == "" || te == "" || u == ""
            case RecentAuthRequired => !recent
            case ActorNotAuthorized => !Holds(t.roster, te, a, {"OWNER", "ADMIN"})
            case TargetNotActive => !SitsIn(t.roster, te, u)
            case LastOwner => Holds(t.roster, te, u, {"OWNER"}) && !OtherOwner(t.roster, te, u)
            case _ => false
  {
    hide Strip, Departed, OpenSessions, OwnersOf;
    var te, u := Strip(tenant), Strip(target);
    if Holds(t.roster, te, u, {"OWNER"}) { OwnersCounted(t.roster, te, u); }
  }

  lemma DeleteRefusalIsTrue(t: Tables, user: string, recent: bool, confirmed: bool, now: int)
    requires Delete(t, user, recent, confirmed, now).1.Err?
    ensures var u := Strip(user);
            match Delete(t, user, recent, confirmed, now).1.error
            case ContextIncomplete => u == ""
            case RecentAuthRequired => !recent
            case ConfirmationRequired => !confirmed
            case UserNotActive => u !in t.roster.users || !t.roster.users[u]
            case OwnerMustTransfer => exists te :: Holds(t.roster, te, u, {"OWNER"})
            case _ => false
  {
    hide Strip, Deleted, RowsToDelete;
    var u := Strip(user);
    if u != "" && OwnerSeatsOf(t.roster, u) != {} {
      var m :| m in OwnerSeatsOf(t.roster, u);
      assert Holds(t.roster, m.0, u, {"OWNER"});
    }
    hide OwnerSeatsOf;
  }

  lemma CloseRefusalIsTrue(t: Tables, actor: string, tenant: string, recent: bool, confirmed: bool, now: int)
    requires CloseTenant(t, actor, tenant, recent, confirmed, now).1.Err?
    ensures var a, te := Strip(actor), Strip(tenant);
            match CloseTenant(t, actor, tenant, recent, confirmed, now).1.error
            case ContextIncomplete => a == "" || te == ""
            case RecentAuthRequired => !recent
            case ConfirmationRequired => !confirmed
            case TenantNotActive => te !in t.roster.tenants || !t.roster.tenants[te]
            case ActorNotAuthorized => !Holds(t.roster, te, a, {"OWNER"})
            case _ => false
  {
    hide Strip, Closed, RowsToClose;
  }

  // ----- accounts -----

  /** An enabled user in the ACTIVE primary seat of an ACTIVE tenant. */
  predicate LiveAccount(r: Roster, tenant: string, user: string) {
    && user in r.users && r.users[user] && tenant in r.tenants && r.tenants[tenant]
    && SitsIn(r, tenant, user) && r.memberships[(tenant, user)].primary
  }

  lemma AccountExactly(t: Tables, raw: string, tenant: string)
    requires Good(t)
    ensures var a, u := GetAccount(t, raw), Strip(raw);
            && (a == Some(Account(u, tenant, true)) <==> LiveAccount(t.roster, tenant, u))
            && (a.Some? && a.value.enabled ==> LiveAccount(t.roster, a.value.tenant, u) && a.value.user == u)
  {
    hide Strip, Clean, TenantsOwned, UsersLinked, SessionsSeated, LinksPrimary, SeatsEnabled;
    AccountShape(t, raw);
    var u := Strip(raw);
    if LiveAccount(t.roster, tenant, u) {
      assert IsPrimary(t.roster, tenant, u);
      PrimaryIs(t.roster, tenant, u);
      assert u != "" by { assert Clean(u); CleanNotBlank(u); }
    }
  }

  lemma CleanNotBlank(id: string)
    requires Clean(id)
    ensures id != "" && Strip(id) == id
  {
  }

  /** The common entry check of the account services. */
  lemma AuthenticatesExactly(t: Tables, user: string, tenant: string, recent: bool)
    requires Good(t)
    ensures var a, u, te := Authenticated(t, user, tenant, recent), Strip(user), Strip(tenant);
            && (a.Ok? <==> recent && u != "" && te != "" && LiveAccount(t.roster, te, u))
            && (a.Ok? ==> a.value == Account(u, te, true))
            && (a.Err? ==>
                  match a.error
                  case ContextIncomplete => u == "" || te == ""
                  case RecentAuthRequired => !recent
                  case AccountUnavailable => forall x :: !LiveAccount(t.roster, x, u)
                  case TenantMismatch => !LiveAccount(t.roster, te, u)
                  case _ => false)
  {
    hide Strip, GetAccount, LiveAccount, Good;
    var u, te := Strip(user), Strip(tenant);
    StripTwice(user);
    forall x ensures GetAccount(t, u) == Some(Account(u, x, true)) <==> LiveAccount(t.roster, x, u) { AccountExactly(t, u, x); }
    AccountExactly(t, u, te);
  }

  // ----- sessions -----

  /** `revoke_all_sessions` ends every open session of the account, counts them, and touches nothing else. */
  lemma RevokesAllExactly(t: Tables, user: string, tenant: string, recent: bool, now: int)
    requires Good(t)
    ensures var (t', r) := RevokeAll(t, user, tenant, recent, now);
            var u, te := Strip(user), Strip(tenant);
            && (r.Ok? <==> recent && u != "" && te != "" && LiveAccount(t.roster, te, u))
            && (r.Ok? ==>
                  && RevokedExactly(t.sessions, t'.sessions, Some(u), Some(te), now)
                  && r.value == |set sid | sid in t.sessions && t.sessions[sid].user == u && t.sessions[sid].tenant == te
                                           && t.sessions[sid].revoked.None?|
                  && t' == t.(sessions := t'.sessions, events := t.events + [Audit(RevokeAllSessions, u, None)]))
  {
    var u, te := Strip(user), Strip(tenant);
    StripTwice(user);
    StripTwice(tenant);
    AuthenticatesExactly(t, u, te, true);
    Revokes(t, Some(u), Some(te), now);
    OpenOf(t, u, te);
    hide Strip, Authenticated, RevokeSessions, OpenSessions, LiveAccount, Good, RevokedExactly;
  }

  lemma OpenOf(t: Tables, u: string, te: string)
    ensures OpenSessions(t, Filter(None, Some(u), Some(te)))
         == set sid | sid in t.sessions && t.sessions[sid].user == u && t.sessions[sid].tenant == te && t.sessions[sid].revoked.None?
  {
  }

  /** `logout_session` ends exactly one open session, of the account that asks. */
  lemma LogsOutExactly(t: Tables, user: string, tenant: string, sidText: string, now: int)
    requires Good(t)
    ensures var (t', refusal) := Logout(t, user, tenant, sidText, now);
            var u, te, sid := Strip(user), Strip(tenant), Strip(sidText);
            && (refusal.None? <==>
                  && u != "" && te != "" && sid != "" && LiveAccount(t.roster, te, u)
                  && sid in t.sessions && t.sessions[sid].user == u && t.sessions[sid].tenant == te && t.sessions[sid].revoked.None?)
            && (refusal.None? ==>
                  t' == t.(sessions := t.sessions[sid := t.sessions[sid].(revoked := Some(now))],
                           events := t.events + [Audit(LogoutSession, u, None)]))
  {
    hide Strip, Authenticated, RevokeSessions, LiveAccount, Good;
    var u, te, sid := Strip(user), Strip(tenant), Strip(sidText);
    StripTwice(user);
    StripTwice(tenant);
    AuthenticatesExactly(t, u, te, true);
    if sid in t.sessions && t.sessions[sid].revoked.None? && t.sessions[sid].user == u && t.sessions[sid].tenant == te {
      OneRevoked(t, sid, now);
    }
  }

  lemma OneRevoked(t: Tables, sid: string, now: int)
    requires sid in t.sessions && t.sessions[sid].revoked.None?
    ensures RevokeSessions(t, Filter(Some(sid), Some(t.sessions[sid].user), Some(t.sessions[sid].tenant)), now)
         == t.(sessions := t.sessions[sid := t.sessions[sid].(revoked := Some(now))])
  {
  }

  /** `revoke` ends one open session by its id, whoever owns it, and touches nothing else. */
  lemma RevokesOneExactly(t: Tables, sid: string, now: int)
    ensures var t' := RevokeById(t, sid, now);
            t' == t.(sessions := if sid in t.sessions && t.sessions[sid].revoked.None?
                                 then t.sessions[sid := t.sessions[sid].(revoked := Some(now))] else t.sessions)
  {
  }

  /** `persist_session` stores one open row for a live account under a new id and a digest of 64 hexadecimal digits. */
  lemma PersistsExactly(t: Tables, sid: string, user: string, tenant: string, hash: string, expires: int)
    requires Good(t)
    ensures var (t', r) := PersistSession(t, sid, user, tenant, hash, expires);
            && (r.Ok? <==>
                  && |hash| == 64 && (forall i :: 0 <= i < |hash| ==> hash[i] in "0123456789abcdefABCDEF")
                  && LiveAccount(t.roster, tenant, user) && sid !in t.sessions)
            && t' == (if r.Ok? then t.(sessions := t.sessions[sid := Session(user, tenant, hash, expires, None)]) else t)
  {
    AccountExactly(t, user, tenant);
    if (tenant, user) in t.roster.memberships { SeatedClean(t.roster, tenant, user); }
    hide Strip, GetAccount, Good;
  }

  lemma SeatedClean(r: Roster, tenant: string, user: string)
    requires RosterGood(r) && (tenant, user) in r.memberships
    ensures Strip(user) == user && Strip(tenant) == tenant && user != "" && tenant != ""
  {
    hide Strip, TenantsOwned, OnePrimary, SeatsEnabled;
    assert Clean(user) && Clean(tenant);
    CleanNotBlank(user);
    CleanNotBlank(tenant);
  }

  /** `issue` stores one open row for a live account, for a lifetime within bounds. */
  lemma IssuesExactly(digest: string -> string, t: Tables, a: Account, now: int, lifetime: int, maximum: int, sid: Id, credential: Id)
    requires Good(t)
    ensures var (t', r) := Issue(digest, t, a, now, lifetime, maximum, sid, credential);
            var u, te := Strip(a.user), Strip(a.tenant);
            && (r.Ok? <==> 0 < lifetime <= maximum && a.enabled && LiveAccount(t.roster, te, u) && sid !in t.sessions)
            && (r.Ok? ==> r.value == now + lifetime)
            && t' == (if r.Ok? then t.(sessions := t.sessions[sid := Session(u, te, digest(credential), now + lifetime, None)]) else t)
  {
    var u, te := Strip(a.user), Strip(a.tenant);
    if IsPrimary(t.roster, te, u) {
      SeatedClean(t.roster, te, u);
      PrimaryOwner(t.roster, te, u);
    }
    OwnerText();
    hide Strip, Good, Clean;
  }

  lemma PrimaryOwner(r: Roster, tenant: string, user: string)
    requires RosterGood(r) && IsPrimary(r, tenant, user)
    ensures r.memberships[(tenant, user)].role == OWNER
  {
  }

  lemma OwnerText()
    ensures Strip(OWNER) == OWNER
  {
    StripTrimmed(OWNER);
  }

  // ----- recovery -----

  /** `recover` finds the account of a linked identity exactly while that account is live, and changes nothing but the audit. */
  lemma RecoversExactly(fold: string -> string, t: Tables, i: Identity)
    requires Good(t) && Canonical(fold, i).Ok?
    ensures var (t', r) := Recover(fold, t, i);
            var key := KeyOf(Canonical(fold, i).value);
            && (r.Ok? <==> key in t.links && LiveAccount(t.roster, t.links[key].tenant, t.links[key].user))
            && (r.Ok? ==> r.value == Account(t.links[key].user, t.links[key].tenant, true))
            && t' == t.(events := t'.events) && |t'.events| == |t.events| + 1
            && (r.Ok? ==> t'.events == t.events + [Audit(RecoverAccount, r.value.user, None)])
  {
    assert Normalized(fold, i).Ok?;
    var key := KeyOf(Canonical(fold, i).value);
    if key in t.links {
      var row := t.links[key];
      LinkSeated(t, key);
      SeatedClean(t.roster, row.tenant, row.user);
      AccountExactly(t, row.user, row.tenant);
    }
    hide Strip, GetAccount, Good, Canonical, Normalized, KeyOf, LiveAccount;
  }

  lemma LinkSeated(t: Tables, key: Key)
    requires Good(t) && key in t.links
    ensures IsPrimary(t.roster, t.links[key].tenant, t.links[key].user) && RosterGood(t.roster)
  {
    hide RosterGood, UsersLinked, SessionsSeated;
  }

  // ----- entitlements -----

  /** `set_entitlement` stores exactly what it was given, for an existing tenant and a known state. */
  lemma EntitlesExactly(t: Tables, tenant: string, key: string, state: string, limit: Option<int>)
    ensures var (t', refusal) := SetEntitlement(t, tenant, key, state, limit);
            && (refusal.None? <==> state in {"ACTIVE", "SUSPENDED", "EXPIRED", "REVOKED"} && (limit.Some? ==> limit.value >= 0) && tenant in t.roster.tenants)
            && t' == (if refusal.None? then t.(entitlements := t.entitlements[(tenant, key) := Entitlement(state, limit)]) else t)
  {
  }
}
