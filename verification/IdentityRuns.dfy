/** Every run of identity transactions keeps the joint invariant; what is disabled or revoked stays so. */
module IdentityRuns {
  import opened Prelude
  import opened Text
  import opened IdentityKeys
  import opened IdentityTables
  import opened IdentityInvariant

  // ----- departure, deletion, closing -----

  /** Losing one ACTIVE membership is safe unless it was the tenant's last ACTIVE owner. */
  lemma UnseatGood(r: Roster, tenant: string, user: string)
    requires RosterGood(r) && ActiveSeat(r, tenant, user)
    requires r.memberships[(tenant, user)].role == OWNER ==> |OwnersOf(r, tenant)| > 1
    ensures RosterGood(Unseat(r, tenant, user))
  {
    hide Clean;
    var r' := Unseat(r, tenant, user);
    forall te | te in r'.tenants && r'.tenants[te] ensures HasOwner(r', te) {
      assert HasOwner(r, te);
      var u :| ActiveOwner(r, te, u);
      if (te, u) == (tenant, user) {
        var other := OtherOfMany(OwnersOf(r, tenant), (tenant, user));
        assert ActiveOwner(r', tenant, other.1);
      } else {
        assert ActiveOwner(r', te, u);
      }
    }
  }

  lemma DisableIfGoneGood(r: Roster, user: string)
    requires RosterGood(r)
    ensures RosterGood(DisableIfGone(r, user))
  {
    hide Clean;
    var r' := DisableIfGone(r, user);
    forall m | m in r'.memberships && r'.memberships[m].status == Active ensures m.1 in r'.users && r'.users[m.1] {
      assert m.1 == user ==> m in ActiveSeatsOf(r, user);
    }
    forall te | te in r'.tenants && r'.tenants[te] ensures HasOwner(r', te) {
      assert HasOwner(r, te);
      var u :| ActiveOwner(r, te, u);
      assert ActiveOwner(r', te, u);
    }
  }

  /** Seats, users and tenants are only ever taken down. */
  predicate Lowers(r: Roster, r': Roster) {
    && r'.users.Keys == r.users.Keys && (forall u :: u in r'.users && r'.users[u] ==> r.users[u])
    && r'.tenants.Keys == r.tenants.Keys && (forall te :: te in r'.tenants && r'.tenants[te] ==> r.tenants[te])
    && r'.memberships.Keys == r.memberships.Keys
    && forall m :: m in r'.memberships ==> r'.memberships[m].primary == r.memberships[m].primary
  }

  lemma LoweredLinks(r: Roster, r': Roster, links: map<Key, LinkRow>)
    requires LinksPrimary(r, links) && UsersLinked(r, links) && Lowers(r, r')
    ensures LinksPrimary(r', links) && UsersLinked(r', links)
  {
  }

  /** Wherever a seat or its tenant went down, the filter covers the seat's sessions. */
  predicate Covers(f: Filter, r: Roster, r': Roster) {
    && f.id.None?
    && forall m :: m in r.memberships && m.0 in r.tenants && m in r'.memberships && m.0 in r'.tenants ==>
      || ((f.user.None? || f.user.value == m.1) && (f.tenant.None? || f.tenant.value == m.0))
      || (r'.memberships[m].status == r.memberships[m].status && r'.tenants[m.0] == r.tenants[m.0])
  }

  lemma LoweredSessions(t: Tables, r': Roster, f: Filter, now: int)
    requires SessionsSeated(t.roster, t.sessions) && Seated(t.roster) && Lowers(t.roster, r') && Covers(f, t.roster, r')
    ensures SessionsSeated(r', RevokeSessions(t, f, now).sessions)
  {
    hide Clean;
    var sessions' := RevokeSessions(t, f, now).sessions;
    forall sid | sid in sessions' ensures SessionOk(r', sessions'[sid]) {
      assert SessionOk(t.roster, t.sessions[sid]);
    }
  }

  lemma DepartLowers(r: Roster, tenant: string, user: string)
    requires (tenant, user) in r.memberships
    ensures var r' := DisableIfGone(Unseat(r, tenant, user), user);
            Lowers(r, r') && Covers(Filter(None, Some(user), Some(tenant)), r, r')
  {
    hide ActiveSeatsOf;
  }

  lemma DeleteLowers(r: Roster, user: string)
    ensures var r' := Disable(UnseatUser(r, user), user);
            Lowers(r, r') && Covers(Filter(None, Some(user), None), r, r')
  {
  }

  lemma CloseLowers(r: Roster, tenant: string)
    requires tenant in r.tenants
    ensures var r' := DisableGone(UnseatTenant(r, tenant), tenant);
            Lowers(r, r') && Covers(Filter(None, None, Some(tenant)), r, r')
  {
    hide ActiveSeatsOf;
  }

  lemma DepartedGood(t: Tables, tenant: string, target: string, now: int)
    requires Good(t) && ActiveSeat(t.roster, tenant, target)
    requires t.roster.memberships[(tenant, target)].role == OWNER ==> |OwnersOf(t.roster, tenant)| > 1
    ensures Good(Departed(t, tenant, target, now))
  {
    var r' := DisableIfGone(Unseat(t.roster, tenant, target), target);
    UnseatGood(t.roster, tenant, target);
    DisableIfGoneGood(Unseat(t.roster, tenant, target), target);
    DepartLowers(t.roster, tenant, target);
    hide RosterGood, ActiveSeatsOf, OwnersOf, LinksPrimary, UsersLinked, SessionsSeated, RevokeSessions, Lowers, Covers, Unseat, DisableIfGone;
    LoweredLinks(t.roster, r', t.links);
    assert Seated(t.roster) by { GoodSeated(t); }
    LoweredSessions(t, r', Filter(None, Some(target), Some(tenant)), now);
  }

  lemma GoodSeated(t: Tables)
    requires Good(t)
    ensures Seated(t.roster)
  {
  }

  lemma UnseatUserGood(r: Roster, user: string)
    requires RosterGood(r) && OwnerSeatsOf(r, user) == {} && user in r.users
    ensures RosterGood(Disable(UnseatUser(r, user), user))
  {
    hide Clean;
    var r' := Disable(UnseatUser(r, user), user);
    forall te | te in r'.tenants && r'.tenants[te] ensures HasOwner(r', te) {
      assert HasOwner(r, te);
      var u :| ActiveOwner(r, te, u);
      assert u == user ==> (te, u) in OwnerSeatsOf(r, user);
      assert ActiveOwner(r', te, u);
    }
  }

  lemma DeletedGood(t: Tables, user: string, now: int)
    requires Good(t) && OwnerSeatsOf(t.roster, user) == {} && user in t.roster.users
    ensures Good(Deleted(t, user, now))
  {
    var r' := Disable(UnseatUser(t.roster, user), user);
    UnseatUserGood(t.roster, user);
    assert !r'.users[user];
    DeleteLowers(t.roster, user);
    hide RosterGood, OwnerSeatsOf, LinksPrimary, UsersLinked, SessionsSeated, RevokeSessions, Lowers, Covers, UnseatUser, Disable;
    LoweredLinks(t.roster, r', t.links);
    UserLinksGone(r', t.links, user);
    assert Seated(t.roster) by { GoodSeated(t); }
    LoweredSessions(t, r', Filter(None, Some(user), None), now);
  }

  lemma UserLinksGone(r: Roster, links: map<Key, LinkRow>, user: string)
    requires LinksPrimary(r, links) && UsersLinked(r, links) && user in r.users && !r.users[user]
    ensures var links' := map k | k in links && links[k].user != user :: links[k];
            LinksPrimary(r, links') && UsersLinked(r, links')
  {
    var links' := map k | k in links && links[k].user != user :: links[k];
    forall u | u in r.users && r.users[u] ensures HasLink(links', u) {
      LinkStays(links, links', u);
    }
  }

  lemma UnseatTenantGood(r: Roster, tenant: string)
    requires RosterGood(r) && tenant in r.tenants
    ensures RosterGood(DisableGone(UnseatTenant(r, tenant), tenant))
  {
    hide Clean;
    var mid := UnseatTenant(r, tenant);
    var r' := DisableGone(mid, tenant);
    forall m | m in r'.memberships && r'.memberships[m].status == Active ensures m.1 in r'.users && r'.users[m.1] {
      assert m in ActiveSeatsOf(mid, m.1);
      assert r.memberships[m].status == Active;
    }
    forall te | te in r'.tenants && r'.tenants[te] ensures HasOwner(r', te) {
      assert te in r.tenants && r.tenants[te];
      assert HasOwner(r, te);
      var u :| ActiveOwner(r, te, u);
      assert ActiveOwner(r', te, u);
    }
  }

  lemma ClosedGood(t: Tables, tenant: string, now: int)
    requires Good(t) && tenant in t.roster.tenants
    ensures Good(Closed(t, tenant, now))
  {
    var r' := DisableGone(UnseatTenant(t.roster, tenant), tenant);
    UnseatTenantGood(t.roster, tenant);
    CloseLowers(t.roster, tenant);
    hide RosterGood, ActiveSeatsOf, LinksPrimary, UsersLinked, SessionsSeated, RevokeSessions, Lowers, Covers, UnseatTenant, DisableGone;
    LoweredLinks(t.roster, r', t.links);
    assert Seated(t.roster) by { GoodSeated(t); }
    LoweredSessions(t, r', Filter(None, None, Some(tenant)), now);
  }

  lemma SeatAdded(r: Roster, tenant: string, user: string, role: string)
    requires RosterGood(r) && tenant in r.tenants && user in r.users && r.users[user] && (tenant, user) !in r.memberships
    ensures RosterGood(r.(memberships := r.memberships[(tenant, user) := Membership(role, Active, false)]))
  {
    hide Clean;
    var r' := r.(memberships := r.memberships[(tenant, user) := Membership(role, Active, false)]);
    forall te | te in r'.tenants && r'.tenants[te] ensures HasOwner(r', te) {
      assert HasOwner(r, te);
      var u :| ActiveOwner(r, te, u);
      assert ActiveOwner(r', te, u);
    }
  }

  lemma AddedSeatKeeps(r: Roster, r': Roster, links: map<Key, LinkRow>, sessions: map<string, Session>)
    requires r'.users == r.users && r'.tenants == r.tenants && forall m :: m in r.memberships ==> m in r'.memberships && r'.memberships[m] == r.memberships[m]
    requires LinksPrimary(r, links) && UsersLinked(r, links) && SessionsSeated(r, sessions)
    ensures LinksPrimary(r', links) && UsersLinked(r', links) && SessionsSeated(r', sessions)
  {
  }

  lemma AddMemberGood(t: Tables, tenant: string, user: string, role: string)
    requires Good(t)
    ensures Good(AddMember(t, tenant, user, role))
  {
    var t' := AddMember(t, tenant, user, role);
    AddedSeatKeeps(t.roster, t'.roster, t.links, t.sessions);
    if t' != t {
      SeatAdded(t.roster, tenant, user, role);
    }
    hide RosterGood, LinksPrimary, UsersLinked, SessionsSeated;
  }

  // ----- runs -----

  /** Everything that can happen to the identity database; each is one transaction. */
  datatype Op =
    | DoSignIn(identity: Identity, newUser: Id, newTenant: Id)
    | DoLink(user: string, tenant: string, identity: Identity, recent: bool, now: int)
    | DoUnlink(user: string, tenant: string, identity: Identity, recent: bool)
    | DoLifecycleUnlink(user: string, tenant: string, identity: Identity, reauth: Identity)
    | DoRecover(identity: Identity)
    | DoDepart(actor: string, tenant: string, user: string, recent: bool, now: int)
    | DoDelete(user: string, recent: bool, confirmed: bool, now: int)
    | DoClose(actor: string, tenant: string, recent: bool, confirmed: bool, now: int)
    | DoPersist(sid: string, user: string, tenant: string, hash: string, expires: int)
    | DoIssue(account: Account, now: int, lifetime: int, newSid: Id, credential: Id)
    | DoRevoke(sid: string, now: int)
    | DoLogout(user: string, tenant: string, sid: string, now: int)
    | DoRevokeAll(user: string, tenant: string, recent: bool, now: int)
    | DoEntitle(tenant: string, key: string, state: string, limit: Option<int>)
    | DoAddMember(tenant: string, user: string, role: string)

  /** What the database does not decide itself. */
  datatype Env = Env(fold: string -> string, digest: string -> string, maximum: int)

  ghost function Do(env: Env, t: Tables, op: Op): Tables {
    match op
    case DoSignIn(i, user, tenant) => SignIn(env.fold, t, i, user, tenant).0
    case DoLink(user, tenant, i, recent, now) => LinkIdentity(env.fold, t, user, tenant, i, recent, now).0
    case DoUnlink(user, tenant, i, recent) => Unlink(env.fold, t, user, tenant, i, recent).0
    case DoLifecycleUnlink(user, tenant, i, reauth) => LifecycleUnlink(env.fold, t, user, tenant, i, reauth).0
    case DoRecover(i) => Recover(env.fold, t, i).0
    case DoDepart(actor, tenant, user, recent, now) => Depart(t, actor, tenant, user, recent, now).0
    case DoDelete(user, recent, confirmed, now) => Delete(t, user, recent, confirmed, now).0
    case DoClose(actor, tenant, recent, confirmed, now) => CloseTenant(t, actor, tenant, recent, confirmed, now).0
    case DoPersist(sid, user, tenant, hash, expires) => PersistSession(t, sid, user, tenant, hash, expires).0
    case DoIssue(a, now, lifetime, sid, credential) => Issue(env.digest, t, a, now, lifetime, env.maximum, sid, credential).0
    case DoRevoke(sid, now) => RevokeById(t, sid, now)
    case DoLogout(user, tenant, sid, now) => Logout(t, user, tenant, sid, now).0
    case DoRevokeAll(user, tenant, recent, now) => RevokeAll(t, user, tenant, recent, now).0
    case DoEntitle(tenant, key, state, limit) => SetEntitlement(t, tenant, key, state, limit).0
    case DoAddMember(tenant, user, role) => AddMember(t, tenant, user, role)
  }

  ghost function Perform(env: Env, ops: seq<Op>): Tables {
    if ops == [] then VACANT else Do(env, Perform(env, ops[..|ops| - 1]), ops[|ops| - 1])
  }

  lemma AccountOpsGood(env: Env, t: Tables, op: Op)
    requires Good(t) && (op.DoSignIn? || op.DoLink? || op.DoUnlink? || op.DoRecover? || op.DoLifecycleUnlink?)
    ensures Good(Do(env, t, op))
  {
    hide Good, Canonical, Create, AddLink, Transfer, RemoveLink, RemoveIfAlternate, Authenticated, GetAccount, LifecycleCheck, Recovered, KeyOf;
    match op {
      case DoSignIn(i, user, tenant) =>
        if Canonical(env.fold, i).Ok? { CreateGood(t, Canonical(env.fold, i).value, user, tenant); }
      case DoLink(user, tenant, i, recent, now) =>
        if Canonical(env.fold, i).Ok? && Authenticated(t, user, tenant, recent).Ok? {
          AddLinkGood(t, Authenticated(t, user, tenant, recent).value, Canonical(env.fold, i).value);
          TransferGood(t, Authenticated(t, user, tenant, recent).value, Canonical(env.fold, i).value, now);
        }
      case DoUnlink(user, tenant, i, recent) =>
        if Canonical(env.fold, i).Ok? && Authenticated(t, user, tenant, recent).Ok? {
          RemoveLinkGood(t, Authenticated(t, user, tenant, recent).value, Canonical(env.fold, i).value);
        }
      case DoLifecycleUnlink(user, tenant, i, reauth) => LifecycleUnlinkGood(env, t, user, tenant, i, reauth);
      case DoRecover(i) => LogGood(t, Recover(env.fold, t, i).0);
    }
  }

  lemma LogGood(t: Tables, t': Tables)
    requires Good(t) && t'.roster == t.roster && t'.links == t.links && t'.sessions == t.sessions
    ensures Good(t')
  {
  }

  lemma LifecycleUnlinkGood(env: Env, t: Tables, user: string, tenant: string, i: Identity, reauth: Identity)
    requires Good(t)
    ensures Good(LifecycleUnlink(env.fold, t, user, tenant, i, reauth).0)
  {
    hide Good, Normalized, LifecycleCheck, RemoveIfAlternate;
    var t' := LifecycleUnlink(env.fold, t, user, tenant, i, reauth).0;
    if Normalized(env.fold, i).Ok? && Normalized(env.fold, reauth).Ok? {
      var checked := LifecycleCheck(env.fold, t, Strip(user), Strip(tenant), Normalized(env.fold, i).value, Normalized(env.fold, reauth).value);
      if checked.Ok? {
        RemoveIfAlternateGood(t, Strip(user), Strip(tenant), checked.value);
        LogGood(RemoveIfAlternate(t, Strip(user), Strip(tenant), checked.value).0, t');
      } else {
        LogGood(t, t');
      }
    }
  }

  lemma DepartGood(t: Tables, actor: string, tenant: string, user: string, recent: bool, now: int)
    requires Good(t)
    ensures Good(Depart(t, actor, tenant, user, recent, now).0)
  {
    hide Good, Departed, Strip, OwnersOf, OpenSessions;
    var refusal := DepartRefusal(t.roster, Strip(actor), Strip(tenant), Strip(user), recent);
    if refusal.None? {
      DepartedGood(t, Strip(tenant), Strip(user), now);
      LogGood(Departed(t, Strip(tenant), Strip(user), now), Departed(t, Strip(tenant), Strip(user), now).Log(MemberDeparture, Strip(tenant), None));
    }
    LogGood(t, t.Log(MemberDeparture, Strip(tenant), refusal));
  }

  lemma DeleteGood(t: Tables, user: string, recent: bool, confirmed: bool, now: int)
    requires Good(t)
    ensures Good(Delete(t, user, recent, confirmed, now).0)
  {
    hide Good, Deleted, Strip, OwnerSeatsOf;
    var refusal := DeleteRefusal(t.roster, Strip(user), recent, confirmed);
    if refusal.None? {
      DeletedGood(t, Strip(user), now);
      LogGood(Deleted(t, Strip(user), now), Deleted(t, Strip(user), now).Log(AccountDelete, Strip(user), None));
    }
    LogGood(t, t.Log(AccountDelete, Strip(user), refusal));
  }

  lemma CloseGood(t: Tables, actor: string, tenant: string, recent: bool, confirmed: bool, now: int)
    requires Good(t)
    ensures Good(CloseTenant(t, actor, tenant, recent, confirmed, now).0)
  {
    hide Good, Closed, Strip;
    var refusal := CloseRefusal(t.roster, Strip(actor), Strip(tenant), recent, confirmed);
    if refusal.None? {
      ClosedGood(t, Strip(tenant), now);
      LogGood(Closed(t, Strip(tenant), now), Closed(t, Strip(tenant), now).Log(TenantDelete, Strip(tenant), None));
    }
    LogGood(t, t.Log(TenantDelete, Strip(tenant), refusal));
  }

  lemma SessionOpsGood(env: Env, t: Tables, op: Op)
    requires Good(t)
    requires op.DoPersist? || op.DoIssue? || op.DoRevoke? || op.DoLogout? || op.DoRevokeAll? || op.DoEntitle? || op.DoAddMember?
    ensures Good(Do(env, t, op))
  {
    hide Good, RevokeSessions, Strip, Authenticated, PersistSession, Issue, AddMember, OpenSessions;
    match op {
      case DoPersist(sid, user, tenant, hash, expires) => PersistGood(t, sid, user, tenant, hash, expires);
      case DoIssue(a, now, lifetime, sid, credential) => IssueGood(env.digest, t, a, now, lifetime, env.maximum, sid, credential);
      case DoRevoke(sid, now) => RevokeGood(t, Filter(Some(sid), None, None), now);
      case DoLogout(user, tenant, sid, now) =>
        var f := Filter(Some(Strip(sid)), Some(Strip(user)), Some(Strip(tenant)));
        RevokeGood(t, f, now);
        var t' := Logout(t, user, tenant, sid, now).0;
        LogGood(if Logout(t, user, tenant, sid, now).1.None? then RevokeSessions(t, f, now) else t, t');
      case DoRevokeAll(user, tenant, recent, now) =>
        var f := Filter(None, Some(Strip(user)), Some(Strip(tenant)));
        RevokeGood(t, f, now);
        var t' := RevokeAll(t, user, tenant, recent, now).0;
        LogGood(if RevokeAll(t, user, tenant, recent, now).1.Ok? then RevokeSessions(t, f, now) else t, t');
      case DoEntitle(tenant, key, state, limit) => LogGood(t, SetEntitlement(t, tenant, key, state, limit).0);
      case DoAddMember(tenant, user, role) => AddMemberGood(t, tenant, user, role);
    }
  }

  /** The joint invariant holds after every run. */
  lemma {:induction false} RunsKeepInvariant(env: Env, ops: seq<Op>)
    ensures Good(Perform(env, ops))
  {
    if ops == [] {
      assert Good(VACANT);
    } else {
      var before, op := ops[..|ops| - 1], ops[|ops| - 1];
      RunsKeepInvariant(env, before);
      OpGood(env, Perform(env, before), op);
    }
  }

  lemma OpGood(env: Env, t: Tables, op: Op)
    requires Good(t)
    ensures Good(Do(env, t, op))
  {
    hide Good, SignIn, LinkIdentity, Unlink, LifecycleUnlink, Recover, Depart, Delete, CloseTenant, PersistSession, Issue, RevokeById,
      Logout, RevokeAll, SetEntitlement, AddMember;
    if op.DoSignIn? || op.DoLink? || op.DoUnlink? || op.DoRecover? || op.DoLifecycleUnlink? {
      AccountOpsGood(env, t, op);
    } else if op.DoDepart? {
      DepartGood(t, op.actor, op.tenant, op.user, op.recent, op.now);
    } else if op.DoDelete? {
      DeleteGood(t, op.user, op.recent, op.confirmed, op.now);
    } else if op.DoClose? {
      CloseGood(t, op.actor, op.tenant, op.recent, op.confirmed, op.now);
    } else {
      SessionOpsGood(env, t, op);
    }
  }
}
