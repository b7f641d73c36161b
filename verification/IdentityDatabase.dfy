/** The identity database as an object whose tables each transaction updates row by row. */
module IdentityDatabase {
  import opened Prelude
  import opened Text
  import opened IdentityKeys
  import opened IdentityTables
  import opened IdentityInvariant
  import Runs = IdentityRuns

  lemma SessionAccountIs(t: Tables, tenant: string, user: string)
    requires Good(t) && ActivePrimary(t.roster, tenant, Strip(user))
    ensures SessionAccount(t, user) == Some(Account(Strip(user), tenant, t.roster.users[Strip(user)]))
  {
    hide Strip, TenantsOwned, LinksPrimary, UsersLinked, SessionsSeated;
  }

  lemma SeatsOnly(r: Roster, r': Roster, user: string)
    requires r.memberships == r'.memberships
    ensures ActiveSeatsOf(r, user) == ActiveSeatsOf(r', user)
  {
  }

  lemma SameOpen(t: Tables, t': Tables, f: Filter)
    requires t.sessions == t'.sessions
    ensures |OpenSessions(t, f)| == |OpenSessions(t', f)|
  {
  }

  /** The members outside of `rest` have been looked at, and `disabled` of them were disabled. */
  predicate SoFar(r: Roster, users: map<string, bool>, tenant: string, rest: set<string>, disabled: nat) {
    && users.Keys == r.users.Keys
    && (forall u :: u in users ==> users[u] == (r.users[u] && ((tenant, u) in r.memberships && u !in rest ==> ActiveSeatsOf(r, u) != {})))
    && disabled == |GoneMembers(r, tenant) - rest|
  }

  lemma NoneDown(r: Roster, tenant: string, members: set<string>)
    requires forall u :: (tenant, u) in r.memberships ==> u in members
    ensures SoFar(r, r.users, tenant, members, 0)
  {
    hide ActiveSeatsOf;
    assert GoneMembers(r, tenant) - members == {};
  }

  lemma OneLess(gone: set<string>, rest: set<string>, user: string)
    requires user in rest
    ensures |gone - (rest - {user})| == |gone - rest| + if user in gone then 1 else 0
  {
    assert gone - (rest - {user}) == (gone - rest) + if user in gone then {user} else {};
  }

  lemma OneDown(r: Roster, users: map<string, bool>, tenant: string, rest: set<string>, disabled: nat, user: string)
    requires SoFar(r, users, tenant, rest, disabled) && user in rest && (tenant, user) in r.memberships && user in r.users
    ensures user in users
    ensures if ActiveSeatsOf(r, user) == {} then
              SoFar(r, users[user := false], tenant, rest - {user}, disabled + if users[user] then 1 else 0)
            else SoFar(r, users, tenant, rest - {user}, disabled)
  {
    hide ActiveSeatsOf;
    assert user in GoneMembers(r, tenant) <==> r.users[user] && ActiveSeatsOf(r, user) == {};
    hide GoneMembers;
    OneLess(GoneMembers(r, tenant), rest, user);
  }

  lemma AllDown(r: Roster, users: map<string, bool>, tenant: string, disabled: nat)
    requires SoFar(r, users, tenant, {}, disabled)
    ensures users == DisableGone(r, tenant).users && disabled == |GoneMembers(r, tenant)|
    ensures DisableGone(r, tenant) == r.(users := users)
  {
    hide ActiveSeatsOf;
    assert GoneMembers(r, tenant) - {} == GoneMembers(r, tenant);
  }

  lemma StillSeated(r: Roster, tenant: string)
    requires Seated(r) && tenant in r.tenants
    ensures Seated(UnseatTenant(r, tenant))
  {
    hide Clean;
  }

  class Database {
    const digest: string -> string
    const maximum: int
    var users: map<string, bool>
    var tenants: map<string, bool>
    var memberships: map<Seat, Membership>
    var links: map<Key, LinkRow>
    var sessions: map<string, Session>
    var entitlements: map<(string, string), Entitlement>
    var events: seq<Audit>

    function State(): Tables
      reads this
    {
      Tables(Roster(users, tenants, memberships), links, sessions, entitlements, events)
    }

    ghost predicate Valid()
      reads this
    {
      Good(State())
    }

    constructor (digest: string -> string, maximum: int)
      ensures State() == VACANT && Valid() && this.digest == digest && this.maximum == maximum
    {
      this.digest, this.maximum := digest, maximum;
      users, tenants, memberships, links := map[], map[], map[], map[];
      sessions, entitlements, events := map[], map[], [];
    }

    method FindAccount(raw: string) returns (account: Option<Account>)
      requires Valid()
      ensures account == GetAccount(State(), raw)
    {
      var user := Strip(raw);
      var rows := set m | m in memberships && m.1 == user && m.0 in tenants && user in users && memberships[m].primary;
      if user == "" || rows == {} {
        assert rows == {} ==> forall te :: IsPrimary(State().roster, te, user) ==> (te, user) in rows;
        return None;
      }
      var row :| row in rows;
      assert IsPrimary(State().roster, row.0, user);
      PrimaryIs(State().roster, row.0, user);
      account := Some(Account(user, row.0, users[user] && tenants[row.0] && memberships[row].status == Active));
    }

    method CreateAccountWithLink(i: Identity, user: Id, tenant: Id) returns (result: Result<Account, IdentityError>)
      requires Valid()
      modifies this
      ensures (State(), result) == Create(old(State()), i, user, tenant) && Valid()
    {
      CreateGood(State(), i, user, tenant);
      hide Good, KeyOf, Clean;
      if KeyOf(i) in links {
        return Err(AlreadyLinked);
      }
      if tenant in tenants || user in users || (tenant, user) in memberships {
        return Err(PersistenceConflict);
      }
      tenants := tenants[tenant := true];
      users := users[user := true];
      memberships := memberships[(tenant, user) := Membership(OWNER, Active, true)];
      links := links[KeyOf(i) := LinkRow(user, tenant, EmailOf(i))];
      return Ok(Account(user, tenant, true));
    }

    method AddIdentityLink(account: Account, i: Identity) returns (result: Result<LinkRow, IdentityError>)
      requires Valid()
      modifies this`links
      ensures (State(), result) == AddLink(old(State()), account, i) && Valid()
    {
      AddLinkGood(State(), account, i);
      var current := FindAccount(account.user);
      if current != Some(account) || !account.enabled {
        return Err(AccountChanged);
      }
      if KeyOf(i) in links {
        return Err(AlreadyLinked);
      }
      var row := LinkRow(account.user, account.tenant, EmailOf(i));
      links := links[KeyOf(i) := row];
      return Ok(row);
    }

    method RemoveIdentityLink(account: Account, i: Identity) returns (result: Result<LinkRow, IdentityError>)
      requires Valid()
      modifies this`links
      ensures (State(), result) == RemoveLink(old(State()), account, i) && Valid()
    {
      RemoveLinkGood(State(), account, i);
      hide Good, KeyOf, GetAccount;
      var current := FindAccount(account.user);
      var key := KeyOf(i);
      if current != Some(account) || !account.enabled {
        return Err(AccountChanged);
      }
      if key !in links {
        return Err(NotLinked);
      }
      var existing := links[key];
      if existing.user != account.user || existing.tenant != account.tenant {
        return Err(OtherAccount);
      }
      if |SeatLinks(State(), account.user, account.tenant)| <= 1 {
        return Err(LastLink);
      }
      links := links - {key};
      return Ok(existing);
    }

    /** The revoking UPDATE that every closing operation runs. */
    method RevokeMatching(f: Filter, now: int) returns (count: nat)
      modifies this`sessions
      ensures State() == RevokeSessions(old(State()), f, now) && count == |OpenSessions(old(State()), f)|
    {
      count := |OpenSessions(State(), f)|;
      sessions := map sid | sid in sessions ::
        if f.Fits(sid, sessions[sid]) && sessions[sid].revoked.None? then sessions[sid].(revoked := Some(now)) else sessions[sid];
    }

    method TransferIsolatedLink(account: Account, i: Identity, now: int) returns (result: Result<LinkRow, IdentityError>)
      requires Valid()
      modifies this
      ensures (State(), result) == Transfer(old(State()), account, i, now) && Valid()
    {
      TransferGood(State(), account, i, now);
      hide Good, KeyOf, GetAccount, Isolated, RevokeSessions, OpenSessions;
      var current := FindAccount(account.user);
      var key := KeyOf(i);
      if current != Some(account) || !account.enabled {
        return Err(AccountChanged);
      }
      if key !in links {
        return Err(NotLinked);
      }
      var existing := links[key];
      if existing.user == account.user && existing.tenant == account.tenant {
        return Ok(existing);
      }
      var found := FindAccount(existing.user);
      if found.None? || !found.value.enabled || found.value.tenant != existing.tenant {
        return Err(OtherAccount);
      }
      var source := found.value;
      if !Isolated(State(), source) {
        return Err(OtherAccount);
      }
      assert (source.tenant, source.user) in memberships by { AccountShape(State(), existing.user); }
      var row := existing.(user := account.user, tenant := account.tenant);
      MoveLink(source, key, row, now);
      return Ok(row);
    }

    /** The updates of a transfer: sessions, link, seat, user, tenant. */
    method MoveLink(source: Account, key: Key, row: LinkRow, now: int)
      requires (source.tenant, source.user) in memberships
      modifies this
      ensures State() == RevokeSessions(old(State()), Filter(None, Some(source.user), Some(source.tenant)), now).(
                           roster := Retire(old(State().roster), source), links := old(links)[key := row])
    {
      var _ := RevokeMatching(Filter(None, Some(source.user), Some(source.tenant)), now);
      links := links[key := row];
      memberships := memberships[(source.tenant, source.user) :=
        memberships[(source.tenant, source.user)].(status := Revoked, primary := false)];
      users := users[source.user := false];
      tenants := tenants[source.tenant := false];
    }

    method Record(action: Action, subject: string, denied: Option<IdentityError>)
      modifies this`events
      ensures State() == old(State()).Log(action, subject, denied)
    {
      events := events + [Audit(action, subject, denied)];
    }

    method DepartMember(actorText: string, tenantText: string, targetText: string, recent: bool, now: int)
      returns (result: Result<nat, IdentityError>)
      requires Valid()
      modifies this
      ensures (State(), result) == Depart(old(State()), actorText, tenantText, targetText, recent, now) && Valid()
    {
      Runs.DepartGood(State(), actorText, tenantText, targetText, recent, now);
      hide Good, Strip, OwnersOf, Departed, OpenSessions;
      var actor, tenant, target := Strip(actorText), Strip(tenantText), Strip(targetText);
      if actor == "" || tenant == "" || target == "" {
        return Err(ContextIncomplete);
      }
      var refusal := DepartRefusal(State().roster, actor, tenant, target, recent);
      if refusal.Some? {
        Record(MemberDeparture, tenant, refusal);
        return Err(refusal.value);
      }
      var count := UnseatMember(tenant, target, now);
      Record(MemberDeparture, tenant, None);
      return Ok(count);
    }

    /** The updates of a departure: the seat, its sessions, and the user once no ACTIVE seat is left. */
    method UnseatMember(tenant: string, target: string, now: int) returns (count: nat)
      requires (tenant, target) in memberships
      modifies this
      ensures State() == Departed(old(State()), tenant, target, now)
      ensures count == |OpenSessions(old(State()), Filter(None, Some(target), Some(tenant)))|
    {
      hide ActiveSeatsOf;
      ghost var before := State();
      count := RevokeMatching(Filter(None, Some(target), Some(tenant)), now);
      memberships := memberships[(tenant, target) := memberships[(tenant, target)].(status := Revoked)];
      assert State().roster == Unseat(before.roster, tenant, target);
      if ActiveSeatsOf(State().roster, target) == {} && target in users {
        users := users[target := false];
      }
    }

    method DeleteAccount(userText: string, recent: bool, confirmed: bool, now: int) returns (result: Result<DeletedRows, IdentityError>)
      requires Valid()
      modifies this
      ensures (State(), result) == Delete(old(State()), userText, recent, confirmed, now) && Valid()
    {
      Runs.DeleteGood(State(), userText, recent, confirmed, now);
      hide Good, Strip, OwnerSeatsOf, Deleted, RowsToDelete;
      var user := Strip(userText);
      if user == "" {
        return Err(ContextIncomplete);
      }
      var refusal := DeleteRefusal(State().roster, user, recent, confirmed);
      if refusal.Some? {
        Record(AccountDelete, user, refusal);
        return Err(refusal.value);
      }
      var rows := CloseUser(user, now);
      Record(AccountDelete, user, None);
      return Ok(rows);
    }

    /** The updates of a deletion: seats, sessions, links, user. */
    method CloseUser(user: string, now: int) returns (rows: DeletedRows)
      requires user in users
      modifies this
      ensures State() == Deleted(old(State()), user, now) && rows == RowsToDelete(old(State()), user)
    {
      hide OpenSessions;
      ghost var before := State();
      var seats := |LiveSeatsOf(State().roster, user)|;
      memberships := map m | m in memberships :: if m.1 == user then memberships[m].(status := Revoked) else memberships[m];
      SameOpen(before, State(), Filter(None, Some(user), None));
      var revoked := RevokeMatching(Filter(None, Some(user), None), now);
      var owned := |OwnedLinks(State(), user)|;
      links := map k | k in links && links[k].user != user :: links[k];
      users := users[user := false];
      return DeletedRows(seats, revoked, owned);
    }

    method CloseTenantAccount(actorText: string, tenantText: string, recent: bool, confirmed: bool, now: int)
      returns (result: Result<ClosedRows, IdentityError>)
      requires Valid()
      modifies this
      ensures (State(), result) == CloseTenant(old(State()), actorText, tenantText, recent, confirmed, now) && Valid()
    {
      Runs.CloseGood(State(), actorText, tenantText, recent, confirmed, now);
      assert Seated(State().roster) by { Runs.GoodSeated(State()); }
      hide Good, Strip, Closed, RowsToClose;
      var actor, tenant := Strip(actorText), Strip(tenantText);
      if actor == "" || tenant == "" {
        return Err(ContextIncomplete);
      }
      var refusal := CloseRefusal(State().roster, actor, tenant, recent, confirmed);
      if refusal.Some? {
        Record(TenantDelete, tenant, refusal);
        return Err(refusal.value);
      }
      var rows := CloseRows(tenant, now);
      Record(TenantDelete, tenant, None);
      return Ok(rows);
    }

    /** The updates of a tenant deletion: seats, sessions, entitlements, tenant, users. */
    method CloseRows(tenant: string, now: int) returns (rows: ClosedRows)
      requires Seated(State().roster) && tenant in tenants
      modifies this
      ensures State() == Closed(old(State()), tenant, now) && rows == RowsToClose(old(State()), tenant)
    {
      hide DisableGone, UnseatTenant, Seated, OpenSessions, GoneMembers;
      ghost var before := State();
      var seats := |LiveSeatsIn(State().roster, tenant)|;
      var granted := |LiveEntitlements(State(), tenant)|;
      assert Seated(UnseatTenant(State().roster, tenant)) by { StillSeated(State().roster, tenant); }
      UnseatMembers(tenant);
      SameOpen(before, State(), Filter(None, None, Some(tenant)));
      var revoked := RevokeMatching(Filter(None, None, Some(tenant)), now);
      entitlements := map e | e in entitlements :: if e.0 == tenant then entitlements[e].(state := "REVOKED") else entitlements[e];
      var disabled := DisableMembers(tenant);
      return ClosedRows(seats, revoked, granted, disabled);
    }

    method UnseatMembers(tenant: string)
      requires tenant in tenants
      modifies this`memberships, this`tenants
      ensures State() == old(State()).(roster := UnseatTenant(old(State().roster), tenant))
    {
      memberships := map m | m in memberships :: if m.0 == tenant then memberships[m].(status := Revoked) else memberships[m];
      tenants := tenants[tenant := false];
    }

    /** The update of one user, which touches a row only if the user is enabled. */
    method DisableUser(user: string) returns (changed: nat)
      requires user in users
      modifies this`users
      ensures users == old(users)[user := false] && changed == if old(users)[user] then 1 else 0
    {
      changed := if users[user] then 1 else 0;
      users := users[user := false];
    }

    /** The loop over the members of a closed tenant. */
    method DisableMembers(tenant: string) returns (disabled: nat)
      requires Seated(State().roster)
      modifies this`users
      ensures State() == old(State()).(roster := DisableGone(old(State().roster), tenant))
      ensures disabled == |GoneMembers(old(State().roster), tenant)|
    {
      hide ActiveSeatsOf, Clean, GoneMembers, DisableGone, SoFar;
      var rest := set m | m in memberships && m.0 == tenant :: m.1;
      ghost var before := State().roster;
      disabled := 0;
      NoneDown(before, tenant, rest);
      while rest != {}
        invariant forall u :: u in rest ==> (tenant, u) in memberships
        invariant SoFar(before, users, tenant, rest, disabled)
        decreases |rest|
      {
        var user :| user in rest;
        assert (tenant, user) in before.memberships;
        OneDown(before, users, tenant, rest, disabled, user);
        SeatsOnly(State().roster, before, user);
        if ActiveSeatsOf(State().roster, user) == {} {
          var changed := DisableUser(user);
          disabled := disabled + changed;
        }
        rest := rest - {user};
      }
      AllDown(before, users, tenant, disabled);
    }

    method IssueSession(account: Account, now: int, lifetime: int, sid: Id, credential: Id) returns (result: Result<int, IdentityError>)
      requires Valid()
      modifies this`sessions
      ensures (State(), result) == Issue(digest, old(State()), account, now, lifetime, maximum, sid, credential) && Valid()
    {
      IssueGood(digest, State(), account, now, lifetime, maximum, sid, credential);
      if lifetime <= 0 || lifetime > maximum {
        return Err(BadLifetime);
      }
      var principal := Resolve(State(), account);
      if principal.Err? {
        return Err(principal.error);
      }
      if sid in sessions {
        return Err(PersistenceConflict);
      }
      sessions := sessions[sid := Session(principal.value.0, principal.value.1, digest(credential), now + lifetime, None)];
      return Ok(now + lifetime);
    }

    method VerifyCredential(sidText: string, credentialText: string, now: int) returns (result: Result<(string, string, string), IdentityError>)
      requires Valid()
      ensures result == Verify(digest, State(), sidText, credentialText, now)
    {
      hide Strip, Good, Resolve;
      var sid, credential := Strip(sidText), Strip(credentialText);
      if sid == "" || credential == "" || sid !in sessions {
        return Err(SessionInvalid);
      }
      var s := sessions[sid];
      if s.revoked.Some? || s.expires <= now || digest(credential) != s.hash {
        return Err(SessionInvalid);
      }
      var user := Strip(s.user);
      var rows := set m | m in memberships && m.1 == user && user in users && memberships[m].status == Active && memberships[m].primary;
      if rows == {} {
        assert forall te :: ActivePrimary(State().roster, te, user) ==> (te, user) in rows;
        return Err(SessionInvalid);
      }
      var row :| row in rows;
      assert ActivePrimary(State().roster, row.0, user);
      SessionAccountIs(State(), row.0, s.user);
      var account := Account(user, row.0, users[user]);
      if account.tenant != s.tenant || !account.enabled {
        return Err(SessionInvalid);
      }
      result := Resolve(State(), account);
    }
  }
}
