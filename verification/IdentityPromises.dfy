/** What whole runs of identity transactions promise about sign-in, sessions and closed accounts. */
module IdentityPromises {
  import opened Prelude
  import opened Text
  import opened IdentityKeys
  import opened IdentityTables
  import opened IdentityInvariant
  import opened IdentityRuns

  // ----- what never comes back -----

  /** Disabled users, suspended tenants and inactive seats stay so. */
  predicate RosterOnward(r: Roster, r': Roster) {
    && (forall u :: u in r.users ==> u in r'.users && (!r.users[u] ==> !r'.users[u]))
    && (forall te :: te in r.tenants ==> te in r'.tenants && (!r.tenants[te] ==> !r'.tenants[te]))
    && (forall m :: m in r.memberships ==> m in r'.memberships && (r.memberships[m].status != Active ==> r'.memberships[m].status != Active))
  }

  /** Sessions keep their owner and digest, and a revocation its time. */
  predicate SessionsOnward(before: map<string, Session>, after: map<string, Session>) {
    forall sid :: sid in before ==>
      && sid in after
      && (after[sid] == before[sid] || (before[sid].revoked.None? && after[sid] == before[sid].(revoked := after[sid].revoked)))
  }

  /** A disabled user never gains a link. */
  predicate LinksOnward(t: Tables, t': Tables) {
    forall k :: k in t'.links ==>
      || (k in t.links && t.links[k].user == t'.links[k].user)
      || t'.links[k].user !in t.roster.users || t.roster.users[t'.links[k].user]
  }

  predicate Onward(t: Tables, t': Tables) {
    RosterOnward(t.roster, t'.roster) && SessionsOnward(t.sessions, t'.sessions) && LinksOnward(t, t') && t.events <= t'.events
  }

  lemma OnwardOn(t: Tables, t': Tables, t'': Tables)
    requires RosterOnward(t.roster, t'.roster) && RosterOnward(t'.roster, t''.roster)
    requires SessionsOnward(t.sessions, t'.sessions) && SessionsOnward(t'.sessions, t''.sessions)
    ensures RosterOnward(t.roster, t''.roster) && SessionsOnward(t.sessions, t''.sessions)
  {
  }

  lemma RevokeOnward(t: Tables, f: Filter, now: int)
    ensures SessionsOnward(t.sessions, t.sessions) && SessionsOnward(t.sessions, RevokeSessions(t, f, now).sessions)
    ensures RevokeSessions(t, f, now) == t.(sessions := RevokeSessions(t, f, now).sessions)
  {
  }

  lemma StoreOnward(env: Env, t: Tables, op: Op)
    requires op.DoSignIn? || op.DoUnlink? || op.DoRecover?
    ensures Onward(t, Do(env, t, op))
  {
    hide Canonical, Authenticated, GetAccount, KeyOf, Clean, Recovered, SeatLinks;
  }

  lemma AddLinkOnward(t: Tables, a: Account, i: Identity)
    ensures Onward(t, AddLink(t, a, i).0)
  {
    hide GetAccount, KeyOf;
    AccountShape(t, a.user);
  }

  lemma TransferOnward(t: Tables, a: Account, i: Identity, now: int)
    ensures Onward(t, Transfer(t, a, i, now).0)
  {
    hide GetAccount, KeyOf, Isolated, SessionsOnward, RevokeSessions;
    AccountShape(t, a.user);
    var t' := Transfer(t, a, i, now).0;
    if t' != t {
      var source := GetAccount(t, t.links[KeyOf(i)].user).value;
      RevokeOnward(t, Filter(None, Some(source.user), Some(source.tenant)), now);
    } else {
      RevokeOnward(t, Filter(None, None, None), now);
    }
  }

  lemma LinkOnward(env: Env, t: Tables, op: Op)
    requires op.DoLink?
    ensures Onward(t, Do(env, t, op))
  {
    hide Canonical, Authenticated, KeyOf, AddLink, Transfer;
    var account := Authenticated(t, op.user, op.tenant, op.recent);
    var canonical := Canonical(env.fold, op.identity);
    if account.Ok? && canonical.Ok? {
      AddLinkOnward(t, account.value, canonical.value);
      TransferOnward(t, account.value, canonical.value, op.now);
      hide Onward;
    }
  }

  lemma LifecycleOnward(env: Env, t: Tables, op: Op)
    requires op.DoLifecycleUnlink?
    ensures Onward(t, Do(env, t, op))
  {
    hide Normalized, LifecycleCheck, KeyOf, SeatLinks;
  }

  lemma DepartOnward(env: Env, t: Tables, op: Op)
    requires op.DoDepart?
    ensures Onward(t, Do(env, t, op))
  {
    hide Strip, OwnersOf, OwnerSeatsOf, ActiveSeatsOf, RevokeSessions, SessionsOnward, OpenSessions;
    RevokeOnward(t, Filter(None, Some(Strip(op.user)), Some(Strip(op.tenant))), op.now);
  }

  lemma DeleteOnward(env: Env, t: Tables, op: Op)
    requires op.DoDelete?
    ensures Onward(t, Do(env, t, op))
  {
    hide Strip, OwnersOf, OwnerSeatsOf, ActiveSeatsOf, RevokeSessions, SessionsOnward, OpenSessions;
    RevokeOnward(t, Filter(None, Some(Strip(op.user)), None), op.now);
  }

  lemma CloseOnward(env: Env, t: Tables, op: Op)
    requires op.DoClose?
    ensures Onward(t, Do(env, t, op))
  {
    hide Strip, OwnersOf, OwnerSeatsOf, ActiveSeatsOf, RevokeSessions, SessionsOnward, OpenSessions;
    RevokeOnward(t, Filter(None, None, Some(Strip(op.tenant))), op.now);
  }

  lemma NewSessionOnward(env: Env, t: Tables, op: Op)
    requires op.DoPersist? || op.DoIssue? || op.DoEntitle? || op.DoAddMember?
    ensures Onward(t, Do(env, t, op))
  {
    hide Strip, GetAccount, Resolve, Clean;
  }

  lemma RevocationOnward(env: Env, t: Tables, op: Op)
    requires op.DoRevoke? || op.DoLogout? || op.DoRevokeAll?
    ensures Onward(t, Do(env, t, op))
  {
    hide Strip, Authenticated, OpenSessions, RevokeSessions, SessionsOnward;
    match op {
      case DoRevoke(sid, now) => RevokeOnward(t, Filter(Some(sid), None, None), now);
      case DoLogout(user, tenant, sid, now) => RevokeOnward(t, Filter(Some(Strip(sid)), Some(Strip(user)), Some(Strip(tenant))), now);
      case DoRevokeAll(user, tenant, _, now) => RevokeOnward(t, Filter(None, Some(Strip(user)), Some(Strip(tenant))), now);
    }
  }

  lemma OpOnward(env: Env, t: Tables, op: Op)
    ensures Onward(t, Do(env, t, op))
  {
    hide Do, Onward;
    if op.DoSignIn? || op.DoUnlink? || op.DoRecover? {
      StoreOnward(env, t, op);
    } else if op.DoLink? {
      LinkOnward(env, t, op);
    } else if op.DoLifecycleUnlink? {
      LifecycleOnward(env, t, op);
    } else if op.DoDepart? {
      DepartOnward(env, t, op);
    } else if op.DoDelete? {
      DeleteOnward(env, t, op);
    } else if op.DoClose? {
      CloseOnward(env, t, op);
    } else if op.DoRevoke? || op.DoLogout? || op.DoRevokeAll? {
      RevocationOnward(env, t, op);
    } else {
      NewSessionOnward(env, t, op);
    }
  }

  /** A user who is disabled and has no link. */
  predicate Gone(t: Tables, user: string) {
    user in t.roster.users && !t.roster.users[user] && forall k :: k in t.links ==> t.links[k].user != user
  }

  /** Over any further run: nobody disabled comes back, no seat, tenant or session reopens, no audit row is lost. */
  lemma {:induction false} NothingComesBack(env: Env, ops: seq<Op>, more: seq<Op>)
    ensures var t, t' := Perform(env, ops), Perform(env, ops + more);
            && RosterOnward(t.roster, t'.roster) && SessionsOnward(t.sessions, t'.sessions) && t.events <= t'.events
            && forall user :: Gone(t, user) ==> Gone(t', user)
    decreases |more|
  {
    var t, t' := Perform(env, ops), Perform(env, ops + more);
    if more == [] {
      assert ops + more == ops;
    } else {
      var init, op := more[..|more| - 1], more[|more| - 1];
      NothingComesBack(env, ops, init);
      assert ops + more == (ops + init) + [op];
      assert (ops + more)[..|ops + init|] == ops + init;
      var mid := Perform(env, ops + init);
      OpOnward(env, mid, op);
      OnwardOn(t, mid, t');
      assert RosterOnward(mid.roster, t'.roster) && LinksOnward(mid, t');
      hide Do, Perform, SessionsOnward;
    }
  }

  // ----- sign-in -----

  /** A link never dangles: sign-in and recovery fail only because the account is disabled or the identity is refused. */
  lemma SignInNeverDangles(env: Env, ops: seq<Op>, i: Identity, user: Id, tenant: Id)
    ensures var t := Perform(env, ops);
            && SignIn(env.fold, t, i, user, tenant).1 != Err(MissingAccount)
            && SignIn(env.fold, t, i, user, tenant).1 != Err(TenantMismatch)
            && (Canonical(env.fold, i).Ok? ==> Recover(env.fold, t, i).1 != Err(TenantMismatch))
  {
    var t := Perform(env, ops);
    RunsKeepInvariant(env, ops);
    hide Perform, Canonical, KeyOf, Clean;
    if Canonical(env.fold, i).Ok? {
      if KeyOf(Canonical(env.fold, i).value) in t.links {
        LinkedAccount(t, KeyOf(Canonical(env.fold, i).value));
      }
      hide Good, GetAccount;
    } else {
      RefusedEarly(env.fold, i);
    }
  }

  lemma RefusedEarly(fold: string -> string, i: Identity)
    requires Canonical(fold, i).Err?
    ensures Canonical(fold, i).error in {SubjectRequired, VerifiedEmailRequired, SubjectMismatch, IssuerRequired}
  {
    hide Strip;
  }

  /** The account a link leads to is there, and in the link's tenant. */
  lemma LinkedAccount(t: Tables, key: Key)
    requires Good(t) && key in t.links
    ensures var a := GetAccount(t, t.links[key].user);
            a.Some? && a.value.user == t.links[key].user && a.value.tenant == t.links[key].tenant
  {
    LinkUserClean(t, key);
    PrimaryIs(t.roster, t.links[key].tenant, t.links[key].user);
    hide RosterGood, UsersLinked, SessionsSeated, Strip;
  }

  /** An enabled user seated in an ACTIVE tenant. */
  predicate Live(r: Roster, tenant: string, user: string) {
    user in r.users && r.users[user] && tenant in r.tenants && r.tenants[tenant] && ActiveSeat(r, tenant, user)
  }

  /** Exactly the enabled accounts can sign in through their links, and a link leads only to its own account. */
  lemma SignInExactly(env: Env, ops: seq<Op>, i: Identity, user: Id, tenant: Id)
    requires Canonical(env.fold, i).Ok? && KeyOf(Canonical(env.fold, i).value) in Perform(env, ops).links
    ensures var t := Perform(env, ops);
            var (t', r) := SignIn(env.fold, t, i, user, tenant);
            var row := t.links[KeyOf(Canonical(env.fold, i).value)];
            && t' == t
            && (r.Ok? <==> Live(t.roster, row.tenant, row.user))
            && (r.Ok? ==> r.value == Account(row.user, row.tenant, true))
  {
    var t := Perform(env, ops);
    RunsKeepInvariant(env, ops);
    LinkedAccount(t, KeyOf(Canonical(env.fold, i).value));
    LinkUserClean(t, KeyOf(Canonical(env.fold, i).value));
    hide Perform, Canonical, KeyOf, Clean, Good, Create;
  }

  /** Signing in again with the same identity yields the same account and changes nothing, for a new account as for an old one. */
  lemma SignInAgain(env: Env, ops: seq<Op>, i: Identity, user: Id, tenant: Id, user': Id, tenant': Id)
    requires SignIn(env.fold, Perform(env, ops), i, user, tenant).1.Ok?
    ensures var (t', r) := SignIn(env.fold, Perform(env, ops), i, user, tenant);
            SignIn(env.fold, t', i, user', tenant') == (t', r)
  {
    var t, key := Perform(env, ops), KeyOf(Canonical(env.fold, i).value);
    var op := DoSignIn(i, user, tenant);
    assert (ops + [op])[..|ops|] == ops;
    assert Perform(env, ops + [op]) == SignIn(env.fold, t, i, user, tenant).0;
    if key in t.links {
      SignInExactly(env, ops, i, user, tenant);
      SignInExactly(env, ops, i, user', tenant');
    } else {
      CreatedIsLive(t, Canonical(env.fold, i).value, user, tenant);
      SignInExactly(env, ops + [op], i, user', tenant');
    }
    hide Perform, Canonical, KeyOf, GetAccount, Create, Live;
  }

  lemma CreatedIsLive(t: Tables, i: Identity, user: Id, tenant: Id)
    ensures var (t', r) := Create(t, i, user, tenant);
            r.Ok? ==> r.value == Account(user, tenant, true) && Live(t'.roster, tenant, user)
                      && t'.links == t.links[KeyOf(i) := LinkRow(user, tenant, EmailOf(i))]
  {
    hide Clean, KeyOf;
  }

  // ----- transfer -----

  /** What a transfer that moves a link has checked and done. */
  lemma TransferShape(t: Tables, a: Account, i: Identity, now: int)
    requires Good(t) && Transfer(t, a, i, now).1.Ok? && Transfer(t, a, i, now).0 != t
    ensures var t', key := Transfer(t, a, i, now).0, KeyOf(i);
            && key in t.links
            && var s := Account(t.links[key].user, t.links[key].tenant, true);
               && Isolated(t, s) && Live(t.roster, a.tenant, a.user) && (a.tenant, a.user) != (s.tenant, s.user)
               && (s.tenant, s.user) in t.roster.memberships && s.user in t.roster.users
               && t'.links == t.links[key := t.links[key].(user := a.user, tenant := a.tenant)]
               && t'.roster == Retire(t.roster, s)
  {
    hide KeyOf, Clean, RevokeSessions, RosterGood, LinksPrimary, UsersLinked, SessionsSeated, Isolated, Strip;
    AccountShape(t, a.user);
    AccountShape(t, t.links[KeyOf(i)].user);
    LinkUserClean(t, KeyOf(i));
  }

  lemma MovedAway(t: Tables, t': Tables, a: Account, key: Key)
    requires key in t.links && var s := Account(t.links[key].user, t.links[key].tenant, true);
             && Isolated(t, s) && Live(t.roster, a.tenant, a.user) && (a.tenant, a.user) != (s.tenant, s.user)
             && (s.tenant, s.user) in t.roster.memberships && s.user in t.roster.users
             && t'.roster == Retire(t.roster, s)
    requires t'.links == t.links[key := t.links[key].(user := a.user, tenant := a.tenant)]
    requires forall k :: k in t.links && t.links[k].user == t.links[key].user ==> k == key
    ensures Gone(t', t.links[key].user) && Live(t'.roster, a.tenant, a.user)
    ensures !ActiveSeat(t'.roster, t.links[key].tenant, t.links[key].user)
  {
    assert (a.tenant, a.user) in SeatsOf(t.roster, a.user) && (a.tenant, a.user) in SeatsIn(t.roster, a.tenant);
  }

  /** A transfer keeps every key and moves one; the source is closed for good and nothing leads to it any more. */
  lemma TransferRetiresSource(t: Tables, a: Account, i: Identity, now: int, t': Tables)
    requires Good(t) && Transfer(t, a, i, now).1.Ok? && t' == Transfer(t, a, i, now).0 && t' != t
    ensures var key := KeyOf(i);
            && key in t.links && t'.links == t.links[key := t.links[key].(user := a.user, tenant := a.tenant)]
            && t'.links.Keys == t.links.Keys
            && Gone(t', t.links[key].user)
            && !ActiveSeat(t'.roster, t.links[key].tenant, t.links[key].user)
            && Live(t'.roster, a.tenant, a.user)
  {
    hide Transfer, KeyOf, Good, Isolated, Live, Retire, Gone, ActiveSeat;
    TransferShape(t, a, i, now);
    var key := KeyOf(i);
    LoneLink(t, Account(t.links[key].user, t.links[key].tenant, true), key);
    MovedAway(t, t', a, key);
  }

  /** Whatever way a link was made, its identity signs in to the account that linked it. */
  lemma LinkedSignsIn(env: Env, ops: seq<Op>, user: string, tenant: string, i: Identity, recent: bool, now: int, newUser: Id, newTenant: Id)
    requires LinkIdentity(env.fold, Perform(env, ops), user, tenant, i, recent, now).1.Ok?
    ensures var t' := LinkIdentity(env.fold, Perform(env, ops), user, tenant, i, recent, now).0;
            SignIn(env.fold, t', i, newUser, newTenant) == (t', Ok(Account(Strip(user), Strip(tenant), true)))
  {
    var t, op := Perform(env, ops), DoLink(user, tenant, i, recent, now);
    assert (ops + [op])[..|ops|] == ops;
    var t' := Perform(env, ops + [op]);
    RunsKeepInvariant(env, ops);
    LinkedRow(env.fold, t, user, tenant, i, recent, now, t');
    SignInExactly(env, ops + [op], i, newUser, newTenant);
    hide Perform, Canonical, KeyOf, SignIn, LinkIdentity, Strip, Good, Live;
  }

  lemma LinkedRow(fold: string -> string, t: Tables, user: string, tenant: string, i: Identity, recent: bool, now: int, t': Tables)
    requires Good(t) && LinkIdentity(fold, t, user, tenant, i, recent, now).1.Ok? && t' == LinkIdentity(fold, t, user, tenant, i, recent, now).0
    ensures Canonical(fold, i).Ok? && KeyOf(Canonical(fold, i).value) in t'.links
    ensures var row := t'.links[KeyOf(Canonical(fold, i).value)];
            row.user == Strip(user) && row.tenant == Strip(tenant) && Live(t'.roster, row.tenant, row.user)
  {
    var a, c := Authenticated(t, user, tenant, recent).value, Canonical(fold, i).value;
    AccountShape(t, Strip(user));
    StripTwice(user);
    hide Canonical, KeyOf, GetAccount, Strip, Good, Transfer;
    if KeyOf(c) in t.links && t' != t {
      TransferRetiresSource(t, a, c, now, t');
    } else if KeyOf(c) in t.links && !(t.links[KeyOf(c)].user == a.user && t.links[KeyOf(c)].tenant == a.tenant) {
      TransferMoves(t, a, c, now);
    }
  }

  lemma TransferMoves(t: Tables, a: Account, i: Identity, now: int)
    requires KeyOf(i) in t.links && Transfer(t, a, i, now).1.Ok?
    ensures var t' := Transfer(t, a, i, now).0;
            KeyOf(i) in t'.links && t'.links[KeyOf(i)].user == a.user && t'.links[KeyOf(i)].tenant == a.tenant
  {
    hide KeyOf, GetAccount, Isolated;
  }

  /** After any further run, signing in never yields an account that is gone. */
  lemma GoneNeverSignsIn(env: Env, ops: seq<Op>, more: seq<Op>, gone: string, i: Identity, user: Id, tenant: Id)
    requires Gone(Perform(env, ops), gone)
    ensures var r := SignIn(env.fold, Perform(env, ops + more), i, user, tenant).1;
            r.Ok? ==> r.value.user != gone
  {
    var t := Perform(env, ops + more);
    NothingComesBack(env, ops, more);
    assert Gone(t, gone);
    RunsKeepInvariant(env, ops + more);
    hide Perform, Canonical, KeyOf, Clean, SessionsOnward, RosterOnward;
    if Canonical(env.fold, i).Ok? && KeyOf(Canonical(env.fold, i).value) in t.links {
      LinkedAccount(t, KeyOf(Canonical(env.fold, i).value));
    }
    hide Good, GetAccount;
  }

  // ----- sessions -----

  /** Exactly when a credential verifies, in any reachable state. */
  lemma VerifyExactly(env: Env, ops: seq<Op>, sidText: string, credentialText: string, now: int)
    ensures var t := Perform(env, ops);
            var sid, credential := Strip(sidText), Strip(credentialText);
            var r := Verify(env.digest, t, sidText, credentialText, now);
            && (r.Ok? <==> sid != "" && credential != "" && sid in t.sessions && t.sessions[sid].revoked.None?
                           && now < t.sessions[sid].expires && env.digest(credential) == t.sessions[sid].hash)
            && (r.Ok? ==> r.value == (t.sessions[sid].user, t.sessions[sid].tenant, OWNER)
                          && Live(t.roster, t.sessions[sid].tenant, t.sessions[sid].user))
  {
    var t := Perform(env, ops);
    RunsKeepInvariant(env, ops);
    var sid := Strip(sidText);
    hide Perform;
    if sid in t.sessions && t.sessions[sid].revoked.None? {
      OpenSessionResolves(t, t.sessions[sid]);
    }
    hide Good, Resolve, SessionAccount, Strip;
  }

  lemma OpenSessionResolves(t: Tables, s: Session)
    requires Good(t) && SessionOk(t.roster, s) && s.revoked.None?
    ensures SessionAccount(t, s.user) == Some(Account(s.user, s.tenant, true))
    ensures Resolve(t, Account(s.user, s.tenant, true)) == Ok((s.user, s.tenant, OWNER))
    ensures Live(t.roster, s.tenant, s.user)
  {
    hide TenantsOwned, LinksPrimary, UsersLinked, SessionsSeated, LStrip, RStrip, IsSpace;
    assert Strip(s.user) == s.user && Strip(s.tenant) == s.tenant && s.user != "" && s.tenant != "";
    assert Strip(OWNER) == OWNER by { OwnerTrimmed(); }
    hide Strip;
    assert ActivePrimary(t.roster, s.tenant, s.user);
  }

  lemma OwnerTrimmed()
    ensures Strip(OWNER) == OWNER
  {
    assert !IsSpace('O') && !IsSpace('R');
    StripTrimmed(OWNER);
  }

  /** Once a seat is not ACTIVE, no credential for it verifies ever again, however the run goes on. */
  lemma InactiveSeatNeverVerifies(env: Env, ops: seq<Op>, more: seq<Op>, tenant: string, user: string,
                                  sidText: string, credentialText: string, now: int)
    requires (tenant, user) in Perform(env, ops).roster.memberships && !ActiveSeat(Perform(env, ops).roster, tenant, user)
    ensures var r := Verify(env.digest, Perform(env, ops + more), sidText, credentialText, now);
            r.Ok? ==> (r.value.1, r.value.0) != (tenant, user)
  {
    NothingComesBack(env, ops, more);
    VerifyExactly(env, ops + more, sidText, credentialText, now);
    hide Perform, Verify, SessionsOnward;
  }

  /** Revoking a session id is final. */
  lemma RevokedNeverVerifies(env: Env, ops: seq<Op>, more: seq<Op>, sidText: string, credentialText: string, now: int)
    requires Strip(sidText) in Perform(env, ops).sessions && Perform(env, ops).sessions[Strip(sidText)].revoked.Some?
    ensures Verify(env.digest, Perform(env, ops + more), sidText, credentialText, now).Err?
    ensures Strip(sidText) in Perform(env, ops + more).sessions
    ensures Perform(env, ops + more).sessions[Strip(sidText)] == Perform(env, ops).sessions[Strip(sidText)]
  {
    NothingComesBack(env, ops, more);
    VerifyExactly(env, ops + more, sidText, credentialText, now);
    hide Perform, Verify;
  }

  /** Departure, deletion and closing each leave the seats they end inactive. */
  lemma ClosuresEndSeats(env: Env, t: Tables, op: Op, tenant: string, user: string)
    requires (tenant, user) in t.roster.memberships
    requires
      || (op.DoDepart? && Depart(t, op.actor, op.tenant, op.user, op.recent, op.now).1.Ok? && tenant == Strip(op.tenant) && user == Strip(op.user))
      || (op.DoDelete? && Delete(t, op.user, op.recent, op.confirmed, op.now).1.Ok? && user == Strip(op.user))
      || (op.DoClose? && CloseTenant(t, op.actor, op.tenant, op.recent, op.confirmed, op.now).1.Ok? && tenant == Strip(op.tenant))
    ensures (tenant, user) in Do(env, t, op).roster.memberships && !ActiveSeat(Do(env, t, op).roster, tenant, user)
  {
    hide Strip, OwnersOf, OwnerSeatsOf, ActiveSeatsOf, RevokeSessions, OpenSessions;
  }

  lemma IssuedStored(env: Env, ops: seq<Op>, a: Account, now: int, lifetime: int, sid: Id, credential: Id)
    requires Issue(env.digest, Perform(env, ops), a, now, lifetime, env.maximum, sid, credential).1.Ok?
    ensures var t := Perform(env, ops + [DoIssue(a, now, lifetime, sid, credential)]);
            sid in t.sessions && t.sessions[sid] == Session(Strip(a.user), Strip(a.tenant), env.digest(credential), now + lifetime, None)
  {
    var op := DoIssue(a, now, lifetime, sid, credential);
    assert (ops + [op])[..|ops|] == ops;
    hide Strip;
  }

  /** However the run goes on, an issued session verifies, as its account, exactly until it expires or is revoked. */
  lemma IssuedVerifies(
    env: Env, ops: seq<Op>, a: Account, now: int, lifetime: int, sid: Id, credential: Id, more: seq<Op>, later: int)
    requires Issue(env.digest, Perform(env, ops), a, now, lifetime, env.maximum, sid, credential).1.Ok?
    ensures var t' := Perform(env, ops + [DoIssue(a, now, lifetime, sid, credential)] + more);
            var r := Verify(env.digest, t', sid, credential, later);
            && sid in t'.sessions
            && (r.Ok? <==> t'.sessions[sid].revoked.None? && later < now + lifetime)
            && (r.Ok? ==> r.value == (Strip(a.user), Strip(a.tenant), OWNER))
  {
    var issued := ops + [DoIssue(a, now, lifetime, sid, credential)];
    IssuedStored(env, ops, a, now, lifetime, sid, credential);
    NothingComesBack(env, issued, more);
    VerifyExactly(env, issued + more, sid, credential, later);
    hide Perform, Verify, Issue;
  }

  // ----- refusals -----

  ghost predicate Refused(env: Env, t: Tables, op: Op) {
    match op
    case DoSignIn(i, user, tenant) => SignIn(env.fold, t, i, user, tenant).1.Err?
    case DoLink(user, tenant, i, recent, now) => LinkIdentity(env.fold, t, user, tenant, i, recent, now).1.Err?
    case DoUnlink(user, tenant, i, recent) => Unlink(env.fold, t, user, tenant, i, recent).1.Err?
    case DoLifecycleUnlink(user, tenant, i, reauth) => LifecycleUnlink(env.fold, t, user, tenant, i, reauth).1.Err?
    case DoRecover(i) => true
    case DoDepart(actor, tenant, user, recent, now) => Depart(t, actor, tenant, user, recent, now).1.Err?
    case DoDelete(user, recent, confirmed, now) => Delete(t, user, recent, confirmed, now).1.Err?
    case DoClose(actor, tenant, recent, confirmed, now) => CloseTenant(t, actor, tenant, recent, confirmed, now).1.Err?
    case DoPersist(sid, user, tenant, hash, expires) => PersistSession(t, sid, user, tenant, hash, expires).1.Err?
    case DoIssue(a, now, lifetime, sid, credential) => Issue(env.digest, t, a, now, lifetime, env.maximum, sid, credential).1.Err?
    case DoRevoke(sid, now) => false
    case DoLogout(user, tenant, sid, now) => Logout(t, user, tenant, sid, now).1.Some?
    case DoRevokeAll(user, tenant, recent, now) => RevokeAll(t, user, tenant, recent, now).1.Err?
    case DoEntitle(tenant, key, state, limit) => SetEntitlement(t, tenant, key, state, limit).1.Some?
    case DoAddMember(tenant, user, role) => false
  }

  /** A refused transaction rolls back, but for at most one audit row. */
  lemma RefusalsOnlyAudit(env: Env, t: Tables, op: Op)
    requires Refused(env, t, op)
    ensures Do(env, t, op) == t || exists row :: Do(env, t, op) == t.(events := t.events + [row])
  {
    hide Strip, Canonical, Normalized, Authenticated, GetAccount, KeyOf, SeatLinks, OwnersOf, Isolated, RevokeSessions, OpenSessions,
      Clean, Resolve, LifecycleCheck, Recovered, Departed, Deleted, Closed;
  }
}
