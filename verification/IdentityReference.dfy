/** The in-memory reference store, and the account services over it. */
module IdentityReference {
  import opened Prelude
  import opened Text
  import opened IdentityKeys
  import opened IdentityTables

  datatype Link = Link(user: string, tenant: string, email: Option<string>, issuer: Option<string>)

  /** `_accounts`, `_links` and `_next_account`. */
  datatype Memory = Memory(accounts: map<string, Account>, links: map<Key, Link>, next: nat) {
    function Find(user: string): Option<Account> { if user in accounts then Some(accounts[user]) else None }
  }

  const NOTHING := Memory(map[], map[], 1)

  /** How the store names its n-th user and tenant. */
  datatype Names = Names(user: nat -> string, tenant: nat -> string)

  function LinkFor(a: Account, i: Identity): Link { Link(a.user, a.tenant, EmailOf(i), i.issuer) }

  function UserLinks(m: Memory, user: string): set<Key> {
    set k | k in m.links && m.links[k].user == user
  }

  function AccountLinks(m: Memory, user: string, tenant: string): set<Key> {
    set k | k in m.links && m.links[k].user == user && m.links[k].tenant == tenant
  }

  function MemCreate(n: Names, m: Memory, i: Identity): (Memory, Result<Account, IdentityError>) {
    if KeyOf(i) in m.links then (m, Err(AlreadyLinked))
    else
      var a := Account(n.user(m.next), n.tenant(m.next), true);
      (Memory(m.accounts[a.user := a], m.links[KeyOf(i) := LinkFor(a, i)], m.next + 1), Ok(a))
  }

  function MemAdd(m: Memory, a: Account, i: Identity): (Memory, Result<Link, IdentityError>) {
    if KeyOf(i) in m.links then (m, Err(AlreadyLinked))
    else if m.Find(a.user) != Some(a) then (m, Err(AccountChanged))
    else (m.(links := m.links[KeyOf(i) := LinkFor(a, i)]), Ok(LinkFor(a, i)))
  }

  /** `transfer_isolated_link`; the link is rebuilt from the identity presented. */
  function MemTransfer(m: Memory, a: Account, i: Identity): (Memory, Result<Link, IdentityError>) {
    var key := KeyOf(i);
    if key !in m.links then (m, Err(NotLinked))
    else
      var existing := m.links[key];
      if existing.user == a.user && existing.tenant == a.tenant then (m, Ok(existing))
      else if m.Find(a.user) != Some(a) then (m, Err(AccountChanged))
      else
        var source := m.Find(existing.user);
        if source.None? || !source.value.enabled || source.value.tenant != existing.tenant
           || |AccountLinks(m, source.value.user, source.value.tenant)| != 1 then
          (m, Err(OtherAccount))
        else
          (m.(links := m.links[key := LinkFor(a, i)], accounts := m.accounts[source.value.user := source.value.(enabled := false)]),
           Ok(LinkFor(a, i)))
  }

  function MemRemove(m: Memory, a: Account, i: Identity): (Memory, Result<Link, IdentityError>) {
    var key := KeyOf(i);
    if key !in m.links then (m, Err(NotLinked))
    else if m.links[key].user != a.user || m.links[key].tenant != a.tenant then (m, Err(OtherAccount))
    else if |UserLinks(m, a.user)| <= 1 then (m, Err(LastLink))
    else (m.(links := m.links - {key}), Ok(m.links[key]))
  }

  // ----- CentralIdentityService over this store -----

  function MemSignIn(fold: string -> string, n: Names, m: Memory, i: Identity): (Memory, Result<Account, IdentityError>) {
    var canonical := Canonical(fold, i);
    if canonical.Err? then (m, Err(canonical.error))
    else
      var key := KeyOf(canonical.value);
      if key !in m.links then MemCreate(n, m, canonical.value)
      else
        var account := m.Find(m.links[key].user);
        (m, if account.None? then Err(MissingAccount)
            else if account.value.tenant != m.links[key].tenant then Err(TenantMismatch)
            else if !account.value.enabled then Err(AccountDisabled)
            else Ok(account.value))
  }

  function MemAuthenticated(m: Memory, user: string, tenant: string, recent: bool): Result<Account, IdentityError> {
    if Strip(user) == "" || Strip(tenant) == "" then Err(ContextIncomplete)
    else if !recent then Err(RecentAuthRequired)
    else
      var account := m.Find(Strip(user));
      if account.None? || !account.value.enabled then Err(AccountUnavailable)
      else if account.value.tenant != Strip(tenant) then Err(TenantMismatch)
      else Ok(account.value)
  }

  function MemLink(fold: string -> string, m: Memory, user: string, tenant: string, i: Identity, recent: bool): (Memory, Result<Link, IdentityError>) {
    var account := MemAuthenticated(m, user, tenant, recent);
    var canonical := Canonical(fold, i);
    if account.Err? then (m, Err(account.error))
    else if canonical.Err? then (m, Err(canonical.error))
    else
      var key := KeyOf(canonical.value);
      if key !in m.links then MemAdd(m, account.value, canonical.value)
      else if m.links[key].user == account.value.user && m.links[key].tenant == account.value.tenant then (m, Ok(m.links[key]))
      else MemTransfer(m, account.value, canonical.value)
  }

  function MemUnlink(fold: string -> string, m: Memory, user: string, tenant: string, i: Identity, recent: bool): (Memory, Result<Link, IdentityError>) {
    var account := MemAuthenticated(m, user, tenant, recent);
    var canonical := Canonical(fold, i);
    if account.Err? then (m, Err(account.error))
    else if canonical.Err? then (m, Err(canonical.error))
    else
      var key := KeyOf(canonical.value);
      if key !in m.links then (m, Err(NotLinked))
      else if m.links[key].user != account.value.user || m.links[key].tenant != account.value.tenant then (m, Err(OtherAccount))
      else MemRemove(m, account.value, canonical.value)
  }

  /** The store as the object it is: two dictionaries and a counter, assigned in place. */
  class InMemoryStore {
    const names: Names
    var accounts: map<string, Account>
    var links: map<Key, Link>
    var next: nat

    function State(): Memory
      reads this
    {
      Memory(accounts, links, next)
    }

    constructor (names: Names)
      ensures this.names == names && State() == NOTHING
    {
      this.names := names;
      accounts, links, next := map[], map[], 1;
    }

    method Create(i: Identity) returns (result: Result<Account, IdentityError>)
      modifies this
      ensures (State(), result) == MemCreate(names, old(State()), i)
    {
      if KeyOf(i) in links {
        return Err(AlreadyLinked);
      }
      var sequence := next;
      next := next + 1;
      var account := Account(names.user(sequence), names.tenant(sequence), true);
      accounts := accounts[account.user := account];
      links := links[KeyOf(i) := LinkFor(account, i)];
      return Ok(account);
    }

    method Transfer(a: Account, i: Identity) returns (result: Result<Link, IdentityError>)
      modifies this`accounts, this`links
      ensures (State(), result) == MemTransfer(old(State()), a, i)
    {
      hide KeyOf, LinkFor;
      var key := KeyOf(i);
      if key !in links {
        return Err(NotLinked);
      }
      var existing := links[key];
      if existing.user == a.user && existing.tenant == a.tenant {
        return Ok(existing);
      }
      if a.user !in accounts || accounts[a.user] != a {
        return Err(AccountChanged);
      }
      if existing.user !in accounts {
        return Err(OtherAccount);
      }
      var source := accounts[existing.user];
      if !source.enabled || source.tenant != existing.tenant || |AccountLinks(State(), source.user, source.tenant)| != 1 {
        return Err(OtherAccount);
      }
      links := links[key := LinkFor(a, i)];
      accounts := accounts[source.user := source.(enabled := false)];
      return Ok(links[key]);
    }

    method Remove(a: Account, i: Identity) returns (result: Result<Link, IdentityError>)
      modifies this`links
      ensures (State(), result) == MemRemove(old(State()), a, i)
    {
      var key := KeyOf(i);
      if key !in links {
        return Err(NotLinked);
      }
      var existing := links[key];
      if existing.user != a.user || existing.tenant != a.tenant {
        return Err(OtherAccount);
      }
      if |UserLinks(State(), a.user)| <= 1 {
        return Err(LastLink);
      }
      links := links - {key};
      return Ok(existing);
    }
  }
}
