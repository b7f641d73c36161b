/** The canonical identity database: its tables, and every transaction on them as a function of the tables. */
module IdentityTables {
  import opened Prelude
  import opened Text
  import opened IdentityKeys

  datatype Status = Active | Suspended | Revoked

  datatype Membership = Membership(role: string, status: Status, primary: bool)

  datatype LinkRow = LinkRow(user: string, tenant: string, email: Option<string>)

  datatype Session = Session(user: string, tenant: string, hash: string, expires: int, revoked: Option<int>)

  datatype Account = Account(user: string, tenant: string, enabled: bool)

  datatype Action = MemberDeparture | AccountDelete | TenantDelete | RecoverAccount | UnlinkIdentity | LogoutSession | RevokeAllSessions

  /** A row of `events`: what was attempted on whom, and the reason when it was denied. */
  datatype Audit = Audit(action: Action, subject: string, denied: Option<IdentityError>)

  /** A row of `identity_entitlements`. */
  datatype Entitlement = Entitlement(state: string, limit: Option<int>)

  const ENTITLEMENT_STATES := {"ACTIVE", "SUSPENDED", "EXPIRED", "REVOKED"}

  /** A membership's row key: tenant and user. */
  type Seat = (string, string)

  /** `identity_users`, `identity_tenants` and `identity_memberships`. */
  datatype Roster = Roster(users: map<string, bool>, tenants: map<string, bool>, memberships: map<Seat, Membership>)

  datatype Tables = Tables(
    roster: Roster, links: map<Key, LinkRow>, sessions: map<string, Session>, entitlements: map<(string, string), Entitlement>, events: seq<Audit>)
  {
    function Log(action: Action, subject: string, denied: Option<IdentityError>): Tables {
      this.(events := events + [Audit(action, subject, denied)])
    }
  }

  const VACANT := Tables(Roster(map[], map[], map[]), map[], map[], map[], [])

  const OWNER := "OWNER"
  const ADMIN := "ADMIN"

  /** Ids come from a generator: never empty, never padded with blanks. */
  predicate Clean(id: string) { id != "" && Strip(id) == id }

  type Id = s: string | Clean(s) ghost witness (assert Strip("u") == "u"; "u")

  // ----- queries -----

  predicate ActiveSeat(r: Roster, tenant: string, user: string) {
    (tenant, user) in r.memberships && r.memberships[(tenant, user)].status == Active
  }

  predicate ActiveOwner(r: Roster, tenant: string, user: string) {
    ActiveSeat(r, tenant, user) && r.memberships[(tenant, user)].role == OWNER
  }

  predicate IsPrimary(r: Roster, tenant: string, user: string) {
    && user in r.users && tenant in r.tenants
    && (tenant, user) in r.memberships && r.memberships[(tenant, user)].primary
  }

  /** The tenant of the user's primary membership, whatever row the query finds first. */
  ghost function Primary(r: Roster, user: string): Option<string> {
    if exists tenant :: IsPrimary(r, tenant, user) then
      var tenant :| IsPrimary(r, tenant, user);
      Some(tenant)
    else None
  }

  /** `get_account` of the commercial store. */
  ghost function GetAccount(t: Tables, raw: string): Option<Account> {
    var user := Strip(raw);
    var tenant := Primary(t.roster, user);
    if user == "" || tenant.None? then None
    else Some(Account(user, tenant.value, t.roster.users[user] && t.roster.tenants[tenant.value] && ActiveSeat(t.roster, tenant.value, user)))
  }

  function OwnedLinks(t: Tables, user: string): set<Key> {
    set k | k in t.links && t.links[k].user == user
  }

  function SeatLinks(t: Tables, user: string, tenant: string): set<Key> {
    set k | k in t.links && t.links[k].user == user && t.links[k].tenant == tenant
  }

  function OwnersOf(r: Roster, tenant: string): set<Seat> {
    set m | m in r.memberships && m.0 == tenant && r.memberships[m].role == OWNER && r.memberships[m].status == Active
  }

  function SeatsOf(r: Roster, user: string): set<Seat> {
    set m | m in r.memberships && m.1 == user
  }

  function SeatsIn(r: Roster, tenant: string): set<Seat> {
    set m | m in r.memberships && m.0 == tenant
  }

  function OwnerSeatsOf(r: Roster, user: string): set<Seat> {
    set m | m in r.memberships && m.1 == user && r.memberships[m].role == OWNER && r.memberships[m].status == Active
  }

  function ActiveSeatsOf(r: Roster, user: string): set<Seat> {
    set m | m in r.memberships && m.1 == user && r.memberships[m].status == Active
  }

  function LiveSeatsOf(r: Roster, user: string): set<Seat> {
    set m | m in r.memberships && m.1 == user && r.memberships[m].status != Revoked
  }

  function LiveSeatsIn(r: Roster, tenant: string): set<Seat> {
    set m | m in r.memberships && m.0 == tenant && r.memberships[m].status != Revoked
  }

  function LiveEntitlements(t: Tables, tenant: string): set<(string, string)> {
    set e | e in t.entitlements && e.0 == tenant && t.entitlements[e].state != "REVOKED"
  }

  /** The enabled members of the tenant who have no ACTIVE membership left. */
  function GoneMembers(r: Roster, tenant: string): set<string> {
    set u | u in r.users && r.users[u] && (tenant, u) in r.memberships && ActiveSeatsOf(r, u) == {}
  }

  // ----- row updates -----

  /** Which sessions an update touches; `None` leaves a column unconstrained. */
  datatype Filter = Filter(id: Option<string>, user: Option<string>, tenant: Option<string>) {
    predicate Fits(sid: string, s: Session) {
      (id.None? || id.value == sid) && (user.None? || user.value == s.user) && (tenant.None? || tenant.value == s.tenant)
    }
  }

  function RevokeSessions(t: Tables, f: Filter, now: int): Tables {
    t.(sessions := map sid | sid in t.sessions ::
      if f.Fits(sid, t.sessions[sid]) && t.sessions[sid].revoked.None? then t.sessions[sid].(revoked := Some(now)) else t.sessions[sid])
  }

  function OpenSessions(t: Tables, f: Filter): set<string> {
    set sid | sid in t.sessions && f.Fits(sid, t.sessions[sid]) && t.sessions[sid].revoked.None?
  }

  function Disable(r: Roster, user: string): Roster {
    if user in r.users then r.(users := r.users[user := false]) else r
  }

  /** Disable the user once no ACTIVE membership is left. */
  function DisableIfGone(r: Roster, user: string): Roster {
    if ActiveSeatsOf(r, user) == {} then Disable(r, user) else r
  }

  function Unseat(r: Roster, tenant: string, user: string): Roster
    requires (tenant, user) in r.memberships
  {
    r.(memberships := r.memberships[(tenant, user) := r.memberships[(tenant, user)].(status := Revoked)])
  }

  // ----- the link store -----

  function EmailOf(i: Identity): Option<string> {
    if i.emailVerified then i.email else None
  }

  function Enroll(r: Roster, user: string, tenant: string): Roster {
    Roster(r.users[user := true], r.tenants[tenant := true], r.memberships[(tenant, user) := Membership(OWNER, Active, true)])
  }

  function Create(t: Tables, i: Identity, user: Id, tenant: Id): (Tables, Result<Account, IdentityError>) {
    if KeyOf(i) in t.links then (t, Err(AlreadyLinked))
    else if tenant in t.roster.tenants || user in t.roster.users || (tenant, user) in t.roster.memberships then (t, Err(PersistenceConflict))
    else
      (t.(roster := Enroll(t.roster, user, tenant),
          links := t.links[KeyOf(i) := LinkRow(user, tenant, EmailOf(i))]),
       Ok(Account(user, tenant, true)))
  }

  ghost function AddLink(t: Tables, a: Account, i: Identity): (Tables, Result<LinkRow, IdentityError>) {
    var row := LinkRow(a.user, a.tenant, EmailOf(i));
    if GetAccount(t, a.user) != Some(a) || !a.enabled then (t, Err(AccountChanged))
    else if KeyOf(i) in t.links then (t, Err(AlreadyLinked))
    else (t.(links := t.links[KeyOf(i) := row]), Ok(row))
  }

  /** The account is a lone bootstrap account: one link, one seat, its own empty tenant. */
  predicate Isolated(t: Tables, a: Account) {
    && |SeatLinks(t, a.user, a.tenant)| == 1
    && SeatsOf(t.roster, a.user) == {(a.tenant, a.user)}
    && t.roster.memberships[(a.tenant, a.user)] == Membership(OWNER, Active, true)
    && SeatsIn(t.roster, a.tenant) == {(a.tenant, a.user)}
    && forall e :: e in t.entitlements ==> e.0 != a.tenant
  }

  /** Retire an isolated account: its seat, its user and its tenant. */
  function Retire(r: Roster, a: Account): Roster
    requires (a.tenant, a.user) in r.memberships
  {
    Roster(r.users[a.user := false], r.tenants[a.tenant := false],
           r.memberships[(a.tenant, a.user) := r.memberships[(a.tenant, a.user)].(status := Revoked, primary := false)])
  }

  /** `transfer_isolated_link`; the stored email stays as it was. */
  ghost function Transfer(t: Tables, a: Account, i: Identity, now: int): (Tables, Result<LinkRow, IdentityError>) {
    var key := KeyOf(i);
    if GetAccount(t, a.user) != Some(a) || !a.enabled then (t, Err(AccountChanged))
    else if key !in t.links then (t, Err(NotLinked))
    else
      var existing := t.links[key];
      if existing.user == a.user && existing.tenant == a.tenant then (t, Ok(existing))
      else
        var source := GetAccount(t, existing.user);
        if source.None? || !source.value.enabled || source.value.tenant != existing.tenant || !Isolated(t, source.value) then
          (t, Err(OtherAccount))
        else
          var row := existing.(user := a.user, tenant := a.tenant);
          (RevokeSessions(t, Filter(None, Some(source.value.user), Some(source.value.tenant)), now).(
             roster := Retire(t.roster, source.value), links := t.links[key := row]),
           Ok(row))
  }

  ghost function RemoveLink(t: Tables, a: Account, i: Identity): (Tables, Result<LinkRow, IdentityError>) {
    var key := KeyOf(i);
    if GetAccount(t, a.user) != Some(a) || !a.enabled then (t, Err(AccountChanged))
    else if key !in t.links then (t, Err(NotLinked))
    else if t.links[key].user != a.user || t.links[key].tenant != a.tenant then (t, Err(OtherAccount))
    else if |SeatLinks(t, a.user, a.tenant)| <= 1 then (t, Err(LastLink))
    else (t.(links := t.links - {key}), Ok(t.links[key]))
  }

  /** `remove_link_if_alternate_exists`, the second way a link is deleted. */
  function RemoveIfAlternate(t: Tables, user: string, tenant: string, i: Identity): (Tables, Result<LinkRow, IdentityError>) {
    var key := KeyOf(i);
    if key !in t.links then (t, Err(NotLinked))
    else if t.links[key].user != user || t.links[key].tenant != tenant then (t, Err(OtherAccount))
    else if |SeatLinks(t, user, tenant) - {key}| < 1 then (t, Err(LastLink))
    else (t.(links := t.links - {key}), Ok(t.links[key]))
  }

  // ----- the account services -----

  ghost function SignIn(fold: string -> string, t: Tables, i: Identity, user: Id, tenant: Id): (Tables, Result<Account, IdentityError>) {
    var canonical := Canonical(fold, i);
    if canonical.Err? then (t, Err(canonical.error))
    else
      var key := KeyOf(canonical.value);
      if key !in t.links then Create(t, canonical.value, user, tenant)
      else
        var account := GetAccount(t, t.links[key].user);
        (t, if account.None? then Err(MissingAccount)
            else if account.value.tenant != t.links[key].tenant then Err(TenantMismatch)
            else if !account.value.enabled then Err(AccountDisabled)
            else Ok(account.value))
  }

  /** `_require_authenticated_account`. */
  ghost function Authenticated(t: Tables, user: string, tenant: string, recent: bool): Result<Account, IdentityError> {
    if Strip(user) == "" || Strip(tenant) == "" then Err(ContextIncomplete)
    else if !recent then Err(RecentAuthRequired)
    else
      var account := GetAccount(t, Strip(user));
      if account.None? || !account.value.enabled then Err(AccountUnavailable)
      else if account.value.tenant != Strip(tenant) then Err(TenantMismatch)
      else Ok(account.value)
  }

  ghost function LinkIdentity(fold: string -> string, t: Tables, user: string, tenant: string, i: Identity, recent: bool, now: int)
    : (Tables, Result<LinkRow, IdentityError>)
  {
    var account := Authenticated(t, user, tenant, recent);
    var canonical := Canonical(fold, i);
    if account.Err? then (t, Err(account.error))
    else if canonical.Err? then (t, Err(canonical.error))
    else
      var key := KeyOf(canonical.value);
      if key !in t.links then AddLink(t, account.value, canonical.value)
      else if t.links[key].user == account.value.user && t.links[key].tenant == account.value.tenant then (t, Ok(t.links[key]))
      else Transfer(t, account.value, canonical.value, now)
  }

  ghost function Unlink(fold: string -> string, t: Tables, user: string, tenant: string, i: Identity, recent: bool)
    : (Tables, Result<LinkRow, IdentityError>)
  {
    var account := Authenticated(t, user, tenant, recent);
    var canonical := Canonical(fold, i);
    if account.Err? then (t, Err(account.error))
    else if canonical.Err? then (t, Err(canonical.error))
    else
      var key := KeyOf(canonical.value);
      if key !in t.links then (t, Err(NotLinked))
      else if t.links[key].user != account.value.user || t.links[key].tenant != account.value.tenant then (t, Err(OtherAccount))
      else RemoveLink(t, account.value, canonical.value)
  }

  /** What the lifecycle unlink demands before it removes anything. */
  ghost function LifecycleCheck(fold: string -> string, t: Tables, user: string, tenant: string, target: Identity, reauth: Identity)
    : Result<Identity, IdentityError>
  {
    var account := Authenticated(t, user, tenant, true);
    var goal, proof := Normalized(fold, target), Normalized(fold, reauth);
    if account.Err? then Err(account.error)
    else if goal.Err? then Err(goal.error)
    else if proof.Err? then Err(proof.error)
    else if KeyOf(goal.value) == KeyOf(proof.value) then Err(SameReauthentication)
    else if KeyOf(goal.value) !in t.links || KeyOf(proof.value) !in t.links then Err(NotLinked)
    else if t.links[KeyOf(goal.value)].user != user || t.links[KeyOf(goal.value)].tenant != tenant then Err(OtherAccount)
    else if t.links[KeyOf(proof.value)].user != user || t.links[KeyOf(proof.value)].tenant != tenant then Err(OtherAccount)
    else if |OwnedLinks(t, user)| < 2 then Err(LastLink)
    else goal
  }

  /** The lifecycle `unlink_identity`: denials and successes are both audited. */
  ghost function LifecycleUnlink(fold: string -> string, t: Tables, user: string, tenant: string, target: Identity, reauth: Identity)
    : (Tables, Result<LinkRow, IdentityError>)
  {
    var goal, proof := Normalized(fold, target), Normalized(fold, reauth);
    if goal.Err? then (t, Err(goal.error))
    else if proof.Err? then (t, Err(proof.error))
    else
      var u, te := Strip(user), Strip(tenant);
      var checked := LifecycleCheck(fold, t, u, te, goal.value, proof.value);
      if checked.Err? then (t.Log(UnlinkIdentity, u, Some(checked.error)), Err(checked.error))
      else
        var (removed, row) := RemoveIfAlternate(t, u, te, checked.value);
        (removed.Log(UnlinkIdentity, u, if row.Err? then Some(row.error) else None), row)
  }

  ghost function Recover(fold: string -> string, t: Tables, i: Identity): (Tables, Result<Account, IdentityError>) {
    var once, canonical := Normalized(fold, i), Canonical(fold, i);
    if once.Err? then (t, Err(once.error))
    else
      var r := if canonical.Err? then Err(canonical.error) else Recovered(t, KeyOf(canonical.value));
      (t.Log(RecoverAccount, if r.Ok? then r.value.user else "", if r.Err? then Some(r.error) else None), r)
  }

  ghost function Recovered(t: Tables, key: Key): Result<Account, IdentityError> {
    if key !in t.links then Err(NotLinked)
    else
      var account := GetAccount(t, t.links[key].user);
      if account.None? || !account.value.enabled then Err(AccountUnavailable)
      else if account.value.tenant != t.links[key].tenant then Err(TenantMismatch)
      else Ok(account.value)
  }

  // ----- departure and deletion -----

  function Depart(t: Tables, actorText: string, tenantText: string, targetText: string, recent: bool, now: int)
    : (Tables, Result<nat, IdentityError>)
  {
    var actor, tenant, target := Strip(actorText), Strip(tenantText), Strip(targetText);
    if actor == "" || tenant == "" || target == "" then (t, Err(ContextIncomplete))
    else
      var refusal := DepartRefusal(t.roster, actor, tenant, target, recent);
      if refusal.Some? then (t.Log(MemberDeparture, tenant, refusal), Err(refusal.value))
      else (Departed(t, tenant, target, now).Log(MemberDeparture, tenant, None),
            Ok(|OpenSessions(t, Filter(None, Some(target), Some(tenant)))|))
  }

  function DepartRefusal(r: Roster, actor: string, tenant: string, target: string, recent: bool): (refusal: Option<IdentityError>)
    ensures refusal.None? ==> ActiveSeat(r, tenant, target)
  {
    if !recent then Some(RecentAuthRequired)
    else if !ActiveSeat(r, tenant, actor) || r.memberships[(tenant, actor)].role !in {OWNER, ADMIN} then Some(ActorNotAuthorized)
    else if !ActiveSeat(r, tenant, target) then Some(TargetNotActive)
    else if r.memberships[(tenant, target)].role == OWNER && |OwnersOf(r, tenant)| <= 1 then Some(LastOwner)
    else None
  }

  function Departed(t: Tables, tenant: string, target: string, now: int): Tables
    requires (tenant, target) in t.roster.memberships
  {
    RevokeSessions(t, Filter(None, Some(target), Some(tenant)), now).(
      roster := DisableIfGone(Unseat(t.roster, tenant, target), target))
  }

  function DeleteRefusal(r: Roster, user: string, recent: bool, confirmed: bool): Option<IdentityError> {
    if !recent then Some(RecentAuthRequired)
    else if !confirmed then Some(ConfirmationRequired)
    else if user !in r.users || !r.users[user] then Some(UserNotActive)
    else if OwnerSeatsOf(r, user) != {} then Some(OwnerMustTransfer)
    else None
  }

  function UnseatUser(r: Roster, user: string): Roster {
    r.(memberships := map m | m in r.memberships :: if m.1 == user then r.memberships[m].(status := Revoked) else r.memberships[m])
  }

  function Deleted(t: Tables, user: string, now: int): Tables {
    RevokeSessions(t, Filter(None, Some(user), None), now).(
      roster := Disable(UnseatUser(t.roster, user), user),
      links := map k | k in t.links && t.links[k].user != user :: t.links[k])
  }

  /** The row counts a deletion reports. */
  datatype DeletedRows = DeletedRows(memberships: nat, sessions: nat, identities: nat)

  function RowsToDelete(t: Tables, user: string): DeletedRows {
    DeletedRows(|LiveSeatsOf(t.roster, user)|, |OpenSessions(t, Filter(None, Some(user), None))|, |OwnedLinks(t, user)|)
  }

  /** `delete_account`. */
  function Delete(t: Tables, userText: string, recent: bool, confirmed: bool, now: int): (Tables, Result<DeletedRows, IdentityError>) {
    var user := Strip(userText);
    if user == "" then (t, Err(ContextIncomplete))
    else
      var refusal := DeleteRefusal(t.roster, user, recent, confirmed);
      if refusal.Some? then (t.Log(AccountDelete, user, refusal), Err(refusal.value))
      else (Deleted(t, user, now).Log(AccountDelete, user, None), Ok(RowsToDelete(t, user)))
  }

  function CloseRefusal(r: Roster, actor: string, tenant: string, recent: bool, confirmed: bool): Option<IdentityError> {
    if !recent then Some(RecentAuthRequired)
    else if !confirmed then Some(ConfirmationRequired)
    else if tenant !in r.tenants || !r.tenants[tenant] then Some(TenantNotActive)
    else if !ActiveOwner(r, tenant, actor) then Some(ActorNotAuthorized)
    else None
  }

  function UnseatTenant(r: Roster, tenant: string): Roster {
    r.(tenants := r.tenants[tenant := false],
       memberships := map m | m in r.memberships :: if m.0 == tenant then r.memberships[m].(status := Revoked) else r.memberships[m])
  }

  /** The loop over the tenant's members: those without any ACTIVE membership are disabled. */
  function DisableGone(r: Roster, tenant: string): Roster {
    r.(users := map u | u in r.users :: r.users[u] && ((tenant, u) in r.memberships ==> ActiveSeatsOf(r, u) != {}))
  }

  function Closed(t: Tables, tenant: string, now: int): Tables {
    RevokeSessions(t, Filter(None, None, Some(tenant)), now).(
      roster := DisableGone(UnseatTenant(t.roster, tenant), tenant),
      entitlements := map e | e in t.entitlements :: if e.0 == tenant then t.entitlements[e].(state := "REVOKED") else t.entitlements[e])
  }

  /** The row counts a tenant deletion reports. */
  datatype ClosedRows = ClosedRows(memberships: nat, sessions: nat, entitlements: nat, users: nat)

  function RowsToClose(t: Tables, tenant: string): ClosedRows {
    ClosedRows(|LiveSeatsIn(t.roster, tenant)|, |OpenSessions(t, Filter(None, None, Some(tenant)))|, |LiveEntitlements(t, tenant)|,
               |GoneMembers(UnseatTenant(t.roster, tenant), tenant)|)
  }

  /** `delete_tenant`. */
  function CloseTenant(t: Tables, actorText: string, tenantText: string, recent: bool, confirmed: bool, now: int)
    : (Tables, Result<ClosedRows, IdentityError>)
  {
    var actor, tenant := Strip(actorText), Strip(tenantText);
    if actor == "" || tenant == "" then (t, Err(ContextIncomplete))
    else
      var refusal := CloseRefusal(t.roster, actor, tenant, recent, confirmed);
      if refusal.Some? then (t.Log(TenantDelete, tenant, refusal), Err(refusal.value))
      else (Closed(t, tenant, now).Log(TenantDelete, tenant, None), Ok(RowsToClose(t, tenant)))
  }

  /** The counts are the rows that changed: seats taken down, sessions revoked, links dropped. */
  lemma DeleteReports(t: Tables, user: string, now: int)
    ensures var t', rows := Deleted(t, user, now), RowsToDelete(t, user);
            && rows.memberships == |set m | m in t.roster.memberships && m in t'.roster.memberships && t'.roster.memberships[m] != t.roster.memberships[m]|
            && rows.sessions == |set sid | sid in t.sessions && sid in t'.sessions && t'.sessions[sid] != t.sessions[sid]|
            && rows.identities == |t.links.Keys - t'.links.Keys|
  {
    var t' := Deleted(t, user, now);
    assert LiveSeatsOf(t.roster, user)
        == set m | m in t.roster.memberships && m in t'.roster.memberships && t'.roster.memberships[m] != t.roster.memberships[m];
    assert OpenSessions(t, Filter(None, Some(user), None)) == set sid | sid in t.sessions && sid in t'.sessions && t'.sessions[sid] != t.sessions[sid];
    assert OwnedLinks(t, user) == t.links.Keys - t'.links.Keys;
  }

  lemma CloseReports(t: Tables, tenant: string, now: int)
    ensures var t', rows := Closed(t, tenant, now), RowsToClose(t, tenant);
            && rows.memberships == |set m | m in t.roster.memberships && m in t'.roster.memberships && t'.roster.memberships[m] != t.roster.memberships[m]|
            && rows.sessions == |set sid | sid in t.sessions && sid in t'.sessions && t'.sessions[sid] != t.sessions[sid]|
            && rows.entitlements == |set e | e in t.entitlements && e in t'.entitlements && t'.entitlements[e] != t.entitlements[e]|
            && rows.users == |set u | u in t.roster.users && u in t'.roster.users && t'.roster.users[u] != t.roster.users[u]|
  {
    hide ActiveSeatsOf;
    var t' := Closed(t, tenant, now);
    assert LiveSeatsIn(t.roster, tenant)
        == set m | m in t.roster.memberships && m in t'.roster.memberships && t'.roster.memberships[m] != t.roster.memberships[m];
    assert OpenSessions(t, Filter(None, None, Some(tenant))) == set sid | sid in t.sessions && sid in t'.sessions && t'.sessions[sid] != t.sessions[sid];
    assert LiveEntitlements(t, tenant) == set e | e in t.entitlements && e in t'.entitlements && t'.entitlements[e] != t.entitlements[e];
    assert GoneMembers(UnseatTenant(t.roster, tenant), tenant)
        == set u | u in t.roster.users && u in t'.roster.users && t'.roster.users[u] != t.roster.users[u];
  }

  // ----- sessions -----

  predicate HexDigest(hash: string) {
    |hash| == 64 && forall i :: 0 <= i < |hash| ==> hash[i] in "0123456789abcdefABCDEF"
  }

  /** `persist_session`. */
  ghost function PersistSession(t: Tables, sid: string, user: string, tenant: string, hash: string, expires: int)
    : (Tables, Result<Session, IdentityError>)
  {
    var account := GetAccount(t, user);
    var row := Session(user, tenant, hash, expires, None);
    if !HexDigest(hash) then (t, Err(BadDigest))
    else if account.None? || !account.value.enabled || account.value.tenant != tenant then (t, Err(SessionInvalid))
    else if sid in t.sessions || (tenant, user) !in t.roster.memberships then (t, Err(PersistenceConflict))
    else (t.(sessions := t.sessions[sid := row]), Ok(row))
  }

  /** `resolve`: the predicate issuing and verifying rest on; it yields user, tenant and role. */
  function Resolve(t: Tables, a: Account): Result<(string, string, string), IdentityError> {
    var user, tenant := Strip(a.user), Strip(a.tenant);
    if !a.enabled || user == "" || tenant == "" then Err(AccountUnavailable)
    else if !IsPrimary(t.roster, tenant, user) then Err(MembershipInactive)
    else
      var role := Strip(t.roster.memberships[(tenant, user)].role);
      if !t.roster.users[user] || !t.roster.tenants[tenant] || !ActiveSeat(t.roster, tenant, user) || role == "" then Err(MembershipInactive)
      else Ok((user, tenant, role))
  }

  /** `issue`; the session id and the credential come from the generator. */
  function Issue(digest: string -> string, t: Tables, a: Account, now: int, lifetime: int, maximum: int, sid: Id, credential: Id)
    : (Tables, Result<int, IdentityError>)
  {
    if lifetime <= 0 || lifetime > maximum then (t, Err(BadLifetime))
    else
      var principal := Resolve(t, a);
      if principal.Err? then (t, Err(principal.error))
      else if sid in t.sessions then (t, Err(PersistenceConflict))
      else
        var row := Session(principal.value.0, principal.value.1, digest(credential), now + lifetime, None);
        (t.(sessions := t.sessions[sid := row]), Ok(now + lifetime))
  }

  /** `get_account` of the store that `verify` uses: it does not look at the tenant. */
  ghost function SessionAccount(t: Tables, user: string): Option<Account> {
    var u := Strip(user);
    if exists tenant :: ActivePrimary(t.roster, tenant, u) then
      var tenant :| ActivePrimary(t.roster, tenant, u);
      Some(Account(u, tenant, t.roster.users[u]))
    else None
  }

  predicate ActivePrimary(r: Roster, tenant: string, user: string) {
    user in r.users && ActiveSeat(r, tenant, user) && r.memberships[(tenant, user)].primary
  }

  ghost function Verify(digest: string -> string, t: Tables, sidText: string, credentialText: string, now: int)
    : Result<(string, string, string), IdentityError>
  {
    var sid, credential := Strip(sidText), Strip(credentialText);
    if sid == "" || credential == "" || sid !in t.sessions then Err(SessionInvalid)
    else
      var s := t.sessions[sid];
      if s.revoked.Some? || s.expires <= now || digest(credential) != s.hash then Err(SessionInvalid)
      else
        var account := SessionAccount(t, s.user);
        if account.None? || account.value.tenant != s.tenant || !account.value.enabled then Err(SessionInvalid)
        else Resolve(t, account.value)
  }

  /** `revoke_session` of the store and `revoke` of the browser authority: one id, whoever owns it. */
  function RevokeById(t: Tables, sidText: string, now: int): Tables {
    RevokeSessions(t, Filter(Some(sidText), None, None), now)
  }

  /** `logout_session`. */
  ghost function Logout(t: Tables, userText: string, tenantText: string, sidText: string, now: int): (Tables, Option<IdentityError>) {
    var user, tenant, sid := Strip(userText), Strip(tenantText), Strip(sidText);
    var account := Authenticated(t, user, tenant, true);
    var refusal :=
      if account.Err? then Some(account.error)
      else if sid == "" then Some(ContextIncomplete)
      else if sid !in t.sessions then Some(SessionUnavailable)
      else if t.sessions[sid].user != user || t.sessions[sid].tenant != tenant then Some(SessionOwner)
      else if t.sessions[sid].revoked.Some? then Some(AlreadyRevoked)
      else None;
    ((if refusal.None? then RevokeSessions(t, Filter(Some(sid), Some(user), Some(tenant)), now) else t).Log(LogoutSession, user, refusal),
     refusal)
  }

  /** `revoke_all_sessions`. */
  ghost function RevokeAll(t: Tables, userText: string, tenantText: string, recent: bool, now: int): (Tables, Result<nat, IdentityError>) {
    var user, tenant := Strip(userText), Strip(tenantText);
    var account := Authenticated(t, user, tenant, true);
    var refusal := if account.Err? then Some(account.error) else if !recent then Some(RecentAuthRequired) else None;
    var f := Filter(None, Some(user), Some(tenant));
    if refusal.Some? then (t.Log(RevokeAllSessions, user, refusal), Err(refusal.value))
    else (RevokeSessions(t, f, now).Log(RevokeAllSessions, user, None), Ok(|OpenSessions(t, f)|))
  }

  // ----- entitlements, and members added elsewhere -----

  function SetEntitlement(t: Tables, tenant: string, key: string, state: string, limit: Option<int>): (Tables, Option<IdentityError>) {
    if state !in ENTITLEMENT_STATES || (limit.Some? && limit.value < 0) || tenant !in t.roster.tenants then (t, Some(BadEntitlement))
    else (t.(entitlements := t.entitlements[(tenant, key) := Entitlement(state, limit)]), None)
  }

  /** No transaction of this module adds a second member; whatever does may seat any enabled user, but not as primary, and only once. */
  function AddMember(t: Tables, tenant: string, user: string, role: string): Tables {
    if tenant !in t.roster.tenants || user !in t.roster.users || !t.roster.users[user] || (tenant, user) in t.roster.memberships then t
    else t.(roster := t.roster.(memberships := t.roster.memberships[(tenant, user) := Membership(role, Active, false)]))
  }
}
