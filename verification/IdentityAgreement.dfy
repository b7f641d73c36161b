/** The SQL store answers every run of account calls as the in-memory store does; where their emails part is settled exactly. */
module IdentityAgreement {
  import opened Prelude
  import opened Text
  import opened IdentityKeys
  import opened IdentityTables
  import opened IdentityInvariant
  import opened IdentityReference
  import opened IdentitySimulation

  // ----- calls and answers -----

  datatype CallKind = SignInCall | LinkCall | UnlinkCall | ListCall

  /** One call, as made to either service: ids differ, everything else is the same. */
  datatype Call = Call(
    kind: CallKind, identity: Identity, user: string, tenant: string, memUser: string, memTenant: string,
    recent: bool, now: int, newUser: Id, newTenant: Id)

  /** A link as a caller sees it, but for its key and for the issuer outside of namespaces. */
  datatype Shown = Shown(user: string, tenant: string, email: Option<string>)

  /** What a call gives back. */
  datatype Answer =
    | Refused(error: IdentityError) | Signed(account: Account) | Linked(key: Key, link: Shown) | Listed(links: map<Key, Shown>)

  function RowShown(row: LinkRow): Shown { Shown(row.user, row.tenant, row.email) }

  function LinkShown(link: Link): Shown { Shown(link.user, link.tenant, link.email) }

  function KeyIn(fold: string -> string, i: Identity): Key {
    if Canonical(fold, i).Ok? then KeyOf(Canonical(fold, i).value) else (Google, "", "")
  }

  function ToSigned(r: Result<Account, IdentityError>): Answer { if r.Ok? then Signed(r.value) else Refused(r.error) }

  function ToLinked(key: Key, r: Result<Shown, IdentityError>): Answer { if r.Ok? then Linked(key, r.value) else Refused(r.error) }

  function RowResult(r: Result<LinkRow, IdentityError>): Result<Shown, IdentityError> {
    if r.Ok? then Ok(RowShown(r.value)) else Err(r.error)
  }

  function LinkResult(r: Result<Link, IdentityError>): Result<Shown, IdentityError> {
    if r.Ok? then Ok(LinkShown(r.value)) else Err(r.error)
  }

  /** `linked_identities`. */
  ghost function SqlList(t: Tables, user: string): Answer {
    var account := GetAccount(t, Strip(user));
    if account.None? || !account.value.enabled then Refused(AccountUnavailable)
    else Listed(map k | k in OwnedLinks(t, account.value.user) :: RowShown(t.links[k]))
  }

  function MemList(m: Memory, user: string): Answer {
    var account := m.Find(Strip(user));
    if account.None? || !account.value.enabled then Refused(AccountUnavailable)
    else Listed(map k | k in UserLinks(m, account.value.user) :: LinkShown(m.links[k]))
  }

  ghost function SqlCall(fold: string -> string, t: Tables, c: Call): (Tables, Answer) {
    match c.kind
    case SignInCall => var r := SignIn(fold, t, c.identity, c.newUser, c.newTenant); (r.0, ToSigned(r.1))
    case LinkCall =>
      var r := LinkIdentity(fold, t, c.user, c.tenant, c.identity, c.recent, c.now);
      (r.0, ToLinked(KeyIn(fold, c.identity), RowResult(r.1)))
    case UnlinkCall =>
      var r := Unlink(fold, t, c.user, c.tenant, c.identity, c.recent);
      (r.0, ToLinked(KeyIn(fold, c.identity), RowResult(r.1)))
    case ListCall => (t, SqlList(t, c.user))
  }

  function MemCall(fold: string -> string, n: Names, m: Memory, c: Call): (Memory, Answer) {
    match c.kind
    case SignInCall => var r := MemSignIn(fold, n, m, c.identity); (r.0, ToSigned(r.1))
    case LinkCall =>
      var r := MemLink(fold, m, c.memUser, c.memTenant, c.identity, c.recent);
      (r.0, ToLinked(KeyIn(fold, c.identity), LinkResult(r.1)))
    case UnlinkCall =>
      var r := MemUnlink(fold, m, c.memUser, c.memTenant, c.identity, c.recent);
      (r.0, ToLinked(KeyIn(fold, c.identity), LinkResult(r.1)))
    case ListCall => (m, MemList(m, c.memUser))
  }

  // ----- the same answer, up to the names of ids -----

  predicate Counterparts(n: Names, w: Twins, user: string, tenant: string, memUser: string, memTenant: string) {
    user in w && tenant == w[user].0 && memUser == n.user(w[user].1) && memTenant == n.tenant(w[user].1)
  }

  predicate SameShown(n: Names, w: Twins, a: Shown, b: Shown, emails: bool) {
    Counterparts(n, w, a.user, a.tenant, b.user, b.tenant) && (emails ==> a.email == b.email)
  }

  /** The same error, counterpart accounts, or the same links of counterpart accounts; with `emails`, showing the same emails. */
  predicate SameAnswer(n: Names, w: Twins, a: Answer, b: Answer, emails: bool) {
    match a
    case Refused(error) => b == a
    case Signed(x) =>
      b.Signed? && Counterparts(n, w, x.user, x.tenant, b.account.user, b.account.tenant) && x.enabled && b.account.enabled
    case Linked(key, link) => b.Linked? && b.key == key && SameShown(n, w, link, b.link, emails)
    case Listed(links) =>
      && b.Listed? && b.links.Keys == links.Keys
      && forall k :: k in links && k in b.links ==> SameShown(n, w, links[k], b.links[k], emails)
  }

  // ----- one call -----

  /** The caller names the same account, or nobody, in both worlds. */
  predicate SameCaller(n: Names, m: Memory, w: Twins, c: Call) {
    var su, st, mu, mt := Strip(c.user), Strip(c.tenant), Strip(c.memUser), Strip(c.memTenant);
    && (su == "" <==> mu == "") && (st == "" <==> mt == "")
    && (if su in w then mu == n.user(w[su].1) && (st == w[su].0 <==> mt == n.tenant(w[su].1)) else mu !in m.accounts)
  }

  /** The ids the generator hands out are new. */
  predicate Playable(n: Names, t: Tables, m: Memory, w: Twins, c: Call) {
    if c.kind.SignInCall? then c.newUser !in t.roster.users && c.newTenant !in t.roster.tenants else SameCaller(n, m, w, c)
  }

  /** Whether the account is there and enabled, and which it is. */
  predicate SameStanding(n: Names, w: Twins, u: string, a: Option<Account>, b: Option<Account>) {
    var up := a.Some? && a.value.enabled;
    && up == (b.Some? && b.value.enabled)
    && (up ==> u in w && a == Some(Account(u, w[u].0, true)) && b == Some(Account(n.user(w[u].1), n.tenant(w[u].1), true)))
  }

  lemma SameAccount(n: Names, t: Tables, m: Memory, w: Twins, user: string, mem: string)
    requires Related(n, t, m, w)
    requires if Strip(user) in w then mem == n.user(w[Strip(user)].1) else mem !in m.accounts
    ensures SameStanding(n, w, Strip(user), GetAccount(t, Strip(user)), m.Find(mem))
    ensures var a := GetAccount(t, Strip(user)); a.Some? && a.value.enabled ==> Strip(user) in w && t.roster.users[Strip(user)]
  {
    var u := Strip(user);
    StripTwice(user);
    AccountShape(t, u);
    if u in w && t.roster.users[u] { WholeAccount(t, w, u); } else { RetiredAccount(t, w, u); }
    hide Strip, GetAccount, Solo, Apart, LinksAgree;
  }

  lemma SameAuthentication(n: Names, t: Tables, m: Memory, w: Twins, c: Call)
    requires Related(n, t, m, w) && SameCaller(n, m, w, c)
    ensures var a, b := Authenticated(t, c.user, c.tenant, c.recent), MemAuthenticated(m, c.memUser, c.memTenant, c.recent);
            var u := Strip(c.user);
            && a.Ok? == b.Ok? && (a.Err? ==> b.error == a.error)
            && (a.Ok? ==> && u in w && t.roster.users[u] && a.value == Account(u, w[u].0, true)
                          && b.value == Account(n.user(w[u].1), n.tenant(w[u].1), true))
  {
    SameAccount(n, t, m, w, c.user, Strip(c.memUser));
    hide Strip, GetAccount, Related;
  }

  lemma OneAgrees(n: Names, t: Tables, m: Memory, w: Twins, key: Key)
    requires LinksAgree(n, t.roster.users, t.links, m.links, w) && key in t.links
    ensures key in m.links && SameShown(n, w, RowShown(t.links[key]), LinkShown(m.links[key]), SameEmails(t.links, m.links))
  {
  }

  lemma ListsAgree(n: Names, t: Tables, m: Memory, w: Twins, u: string)
    requires Related(n, t, m, w) && Distinct(n) && u in w
    ensures OwnedLinks(t, u) == UserLinks(m, n.user(w[u].1))
    ensures forall k :: k in OwnedLinks(t, u) ==>
              k in m.links && SameShown(n, w, RowShown(t.links[k]), LinkShown(m.links[k]), SameEmails(t.links, m.links))
  {
    SameCounts(n, t, m, w, u);
    hide SameShown, SameEmails, RowShown, LinkShown;
    forall k | k in OwnedLinks(t, u)
      ensures k in m.links && SameShown(n, w, RowShown(t.links[k]), LinkShown(m.links[k]), SameEmails(t.links, m.links))
    {
      OneAgrees(n, t, m, w, k);
    }
  }

  /** A sign-in of an unknown identity pairs two new accounts. */
  function Paired(fold: string -> string, t: Tables, m: Memory, w: Twins, c: Call): Twins {
    if c.kind.SignInCall? && Canonical(fold, c.identity).Ok? && KeyOf(Canonical(fold, c.identity).value) !in t.links then
      w[c.newUser := (c.newTenant, m.next)]
    else w
  }

  /**
   * A link call that moves the only link of another account and presents another email than the stored one.
   * Everything here can be looked up before the call.
   */
  ghost predicate Replaces(fold: string -> string, t: Tables, c: Call) {
    && c.kind.LinkCall? && Canonical(fold, c.identity).Ok? && Authenticated(t, c.user, c.tenant, c.recent).Ok?
    && var i := Canonical(fold, c.identity).value;
       && KeyOf(i) in t.links && t.links[KeyOf(i)].user != Strip(c.user)
       && |SeatLinks(t, t.links[KeyOf(i)].user, t.links[KeyOf(i)].tenant)| == 1
       && EmailOf(i) != t.links[KeyOf(i)].email
  }

  /** Stores that showed the same emails go on to, exactly unless the call replaces one. */
  predicate EmailsFollow(t: Tables, m: Memory, t': Tables, m': Memory, replacing: bool) {
    SameEmails(t.links, m.links) ==> (SameEmails(t'.links, m'.links) <==> !replacing)
  }

  /** Related stores stay related, answer the same, and show the same emails on, exactly unless the call replaces one. */
  predicate Agreed(n: Names, t: Tables, m: Memory, w: Twins, w': Twins, a: (Tables, Answer), b: (Memory, Answer), replacing: bool) {
    && Related(n, a.0, b.0, w') && EmailsFollow(t, m, a.0, b.0, replacing)
    && SameAnswer(n, w', a.1, b.1, SameEmails(t.links, m.links) && !replacing)
  }

  lemma RefusalAgrees(n: Names, t: Tables, m: Memory, w: Twins, error: IdentityError)
    requires Related(n, t, m, w)
    ensures Agreed(n, t, m, w, w, (t, Refused(error)), (m, Refused(error)), false)
  {
    hide Related;
  }

  lemma CreateAgrees(n: Names, t: Tables, m: Memory, w: Twins, i: Identity, user: Id, tenant: Id)
    requires Related(n, t, m, w) && Distinct(n) && Keyed(i) && KeyOf(i) !in t.links && user !in t.roster.users && tenant !in t.roster.tenants
    ensures var a, b := Create(t, i, user, tenant), MemCreate(n, m, i);
            Agreed(n, t, m, w, w[user := (tenant, m.next)], (a.0, ToSigned(a.1)), (b.0, ToSigned(b.1)), false)
  {
    hide Related, SameEmails, Create, MemCreate, KeyOf, Distinct, Keyed;
    CreateSimulates(n, t, m, w, i, user, tenant);
  }

  lemma ReturnAgrees(n: Names, t: Tables, m: Memory, w: Twins, u: string)
    requires Related(n, t, m, w) && u in w
    ensures Agreed(n, t, m, w, w, (t, Signed(Account(u, w[u].0, true))), (m, Signed(Account(n.user(w[u].1), n.tenant(w[u].1), true))), false)
  {
    hide Related, SameEmails;
  }

  lemma SignInSimulates(fold: string -> string, n: Names, t: Tables, m: Memory, w: Twins, c: Call)
    requires Related(n, t, m, w) && Distinct(n) && Playable(n, t, m, w, c) && c.kind.SignInCall?
    ensures Agreed(n, t, m, w, Paired(fold, t, m, w, c), SqlCall(fold, t, c), MemCall(fold, n, m, c), false)
  {
    var canonical := Canonical(fold, c.identity);
    hide Canonical, Create, MemCreate, KeyOf, Agreed, Clean;
    if canonical.Err? {
      RefusalAgrees(n, t, m, w, canonical.error);
    } else {
      CanonicalKeyed(fold, c.identity);
      var key := KeyOf(canonical.value);
      if key !in t.links {
        CreateAgrees(n, t, m, w, canonical.value, c.newUser, c.newTenant);
        hide *;
        SignInCreates(fold, n, t, m, w, c);
      } else {
        WholeAccount(t, w, t.links[key].user);
        ReturnAgrees(n, t, m, w, t.links[key].user);
        hide GetAccount, Solo, Apart;
      }
    }
  }

  lemma SignInCreates(fold: string -> string, n: Names, t: Tables, m: Memory, w: Twins, c: Call)
    requires c.kind.SignInCall? && Canonical(fold, c.identity).Ok? && t.links.Keys == m.links.Keys
    requires KeyOf(Canonical(fold, c.identity).value) !in t.links
    ensures var i := Canonical(fold, c.identity).value;
            var a, b := Create(t, i, c.newUser, c.newTenant), MemCreate(n, m, i);
            && Paired(fold, t, m, w, c) == w[c.newUser := (c.newTenant, m.next)]
            && SqlCall(fold, t, c) == (a.0, ToSigned(a.1)) && MemCall(fold, n, m, c) == (b.0, ToSigned(b.1))
  {
    hide Canonical, KeyOf, Create, MemCreate;
  }

  lemma AddAgrees(n: Names, t: Tables, m: Memory, w: Twins, i: Identity, u: string, key: Key)
    requires Related(n, t, m, w) && Keyed(i) && KeyOf(i) !in t.links && u in w && t.roster.users[u]
    ensures var a, b := AddLink(t, Account(u, w[u].0, true), i), MemAdd(m, Account(n.user(w[u].1), n.tenant(w[u].1), true), i);
            Agreed(n, t, m, w, w, (a.0, ToLinked(key, RowResult(a.1))), (b.0, ToLinked(key, LinkResult(b.1))), false)
  {
    AddSimulates(n, t, m, w, i, u);
    hide Related, SameEmails, AddLink, MemAdd, KeyOf;
  }

  lemma RefusedRemoval(t: Tables, m: Memory, a: Account, b: Account, i: Identity)
    requires RemoveLink(t, a, i).1.Err? && MemRemove(m, b, i).1.Err?
    ensures RemoveLink(t, a, i).0 == t && MemRemove(m, b, i).0 == m
  {
    hide GetAccount, KeyOf;
  }

  lemma LinkedAgrees(
    n: Names, t: Tables, m: Memory, w: Twins, t': Tables, m': Memory, key: Key, row: LinkRow, link: Link, replacing: bool)
    requires Related(n, t', m', w) && EmailsFollow(t, m, t', m', replacing)
    requires SameShown(n, w, RowShown(row), LinkShown(link), SameEmails(t.links, m.links) && !replacing)
    ensures Agreed(n, t, m, w, w, (t', Linked(key, RowShown(row))), (m', Linked(key, LinkShown(link))), replacing)
  {
    hide Related, SameEmails, SameShown, EmailsFollow, RowShown, LinkShown;
  }

  lemma TransferAgrees(n: Names, t: Tables, m: Memory, w: Twins, i: Identity, u: string, now: int, key: Key)
    requires Related(n, t, m, w) && Distinct(n) && Keyed(i) && KeyOf(i) in t.links && t.links[KeyOf(i)].user != u
    requires u in w && t.roster.users[u]
    ensures var a := Transfer(t, Account(u, w[u].0, true), i, now);
            var b := MemTransfer(m, Account(n.user(w[u].1), n.tenant(w[u].1), true), i);
            var row := t.links[KeyOf(i)];
            Agreed(n, t, m, w, w, (a.0, ToLinked(key, RowResult(a.1))), (b.0, ToLinked(key, LinkResult(b.1))),
                   |SeatLinks(t, row.user, row.tenant)| == 1 && EmailOf(i) != row.email)
  {
    var a, b := Account(u, w[u].0, true), Account(n.user(w[u].1), n.tenant(w[u].1), true);
    var row := t.links[KeyOf(i)];
    TransferSimulates(n, t, m, w, i, u, now);
    hide Related, SameEmails, Transfer, MemTransfer, KeyOf, SeatLinks, EmailOf, Agreed;
    if |SeatLinks(t, row.user, row.tenant)| == 1 {
      LinkedAgrees(n, t, m, w, Transfer(t, a, i, now).0, MemTransfer(m, b, i).0, key,
                   row.(user := u, tenant := w[u].0), LinkFor(b, i), EmailOf(i) != row.email);
    } else {
      RefusalAgrees(n, t, m, w, OtherAccount);
    }
  }

  lemma RemoveAgrees(n: Names, t: Tables, m: Memory, w: Twins, i: Identity, u: string, key: Key)
    requires Related(n, t, m, w) && Distinct(n) && KeyOf(i) in t.links && t.links[KeyOf(i)].user == u && u in w && t.roster.users[u]
    ensures var a, b := RemoveLink(t, Account(u, w[u].0, true), i), MemRemove(m, Account(n.user(w[u].1), n.tenant(w[u].1), true), i);
            Agreed(n, t, m, w, w, (a.0, ToLinked(key, RowResult(a.1))), (b.0, ToLinked(key, LinkResult(b.1))), false)
  {
    var a, b := Account(u, w[u].0, true), Account(n.user(w[u].1), n.tenant(w[u].1), true);
    RemoveSimulates(n, t, m, w, i, u);
    SameOwner(n, t, m, w, KeyOf(i), u);
    if RemoveLink(t, a, i).1.Err? { RefusedRemoval(t, m, a, b, i); }
    hide Related, SameEmails, SameShown, RemoveLink, MemRemove, KeyOf, Agreed;
    if RemoveLink(t, a, i).1.Ok? {
      LinkedAgrees(n, t, m, w, RemoveLink(t, a, i).0, MemRemove(m, b, i).0, key, t.links[KeyOf(i)], m.links[KeyOf(i)], false);
    } else {
      RefusalAgrees(n, t, m, w, LastLink);
    }
  }

  lemma SameOwner(n: Names, t: Tables, m: Memory, w: Twins, key: Key, u: string)
    requires Related(n, t, m, w) && Distinct(n) && key in t.links && u in w
    ensures key in m.links
    ensures t.links[key].user == u <==> m.links[key].user == n.user(w[u].1)
    ensures t.links[key].user == u ==> t.links[key].tenant == w[u].0 && m.links[key].tenant == n.tenant(w[u].1)
    ensures SameShown(n, w, RowShown(t.links[key]), LinkShown(m.links[key]), SameEmails(t.links, m.links))
  {
    hide Solo, AccountsAgree;
  }

  lemma EchoAgrees(n: Names, t: Tables, m: Memory, w: Twins, key: Key, answer: Key)
    requires Related(n, t, m, w) && key in t.links
    ensures key in m.links
    ensures Agreed(n, t, m, w, w, (t, Linked(answer, RowShown(t.links[key]))), (m, Linked(answer, LinkShown(m.links[key]))), false)
  {
    OneAgrees(n, t, m, w, key);
    hide SameShown, SameEmails, Solo, Apart, AccountsAgree;
  }

  lemma LinkSimulates(fold: string -> string, n: Names, t: Tables, m: Memory, w: Twins, c: Call)
    requires Related(n, t, m, w) && Distinct(n) && Playable(n, t, m, w, c) && c.kind.LinkCall?
    ensures Agreed(n, t, m, w, w, SqlCall(fold, t, c), MemCall(fold, n, m, c), Replaces(fold, t, c))
  {
    hide Canonical, KeyOf, KeyIn, Keyed, AddLink, MemAdd, Transfer, MemTransfer, Authenticated, MemAuthenticated, SameCaller, Strip,
         Agreed, SeatLinks, EmailOf;
    SameAuthentication(n, t, m, w, c);
    var canonical, answer := Canonical(fold, c.identity), KeyIn(fold, c.identity);
    var account := Authenticated(t, c.user, c.tenant, c.recent);
    if account.Err? {
      RefusalAgrees(n, t, m, w, account.error);
    } else if canonical.Err? {
      RefusalAgrees(n, t, m, w, canonical.error);
    } else {
      CanonicalKeyed(fold, c.identity);
      var u, key := account.value.user, KeyOf(canonical.value);
      if key !in t.links {
        AddAgrees(n, t, m, w, canonical.value, u, answer);
      } else {
        SameOwner(n, t, m, w, key, u);
        if t.links[key].user != u {
          TransferAgrees(n, t, m, w, canonical.value, u, c.now, answer);
        } else {
          EchoAgrees(n, t, m, w, key, answer);
        }
      }
    }
    hide Solo, Apart, AccountsAgree, SameShown;
  }

  lemma UnlinkSimulates(fold: string -> string, n: Names, t: Tables, m: Memory, w: Twins, c: Call)
    requires Related(n, t, m, w) && Distinct(n) && Playable(n, t, m, w, c) && c.kind.UnlinkCall?
    ensures Agreed(n, t, m, w, w, SqlCall(fold, t, c), MemCall(fold, n, m, c), false)
  {
    hide Canonical, KeyOf, KeyIn, Keyed, RemoveLink, MemRemove, Authenticated, MemAuthenticated, SameCaller, Strip, Agreed;
    SameAuthentication(n, t, m, w, c);
    var canonical, answer := Canonical(fold, c.identity), KeyIn(fold, c.identity);
    var account := Authenticated(t, c.user, c.tenant, c.recent);
    if account.Err? {
      RefusalAgrees(n, t, m, w, account.error);
    } else if canonical.Err? {
      RefusalAgrees(n, t, m, w, canonical.error);
    } else {
      var u, key := account.value.user, KeyOf(canonical.value);
      if key !in t.links {
        RefusalAgrees(n, t, m, w, NotLinked);
      } else {
        SameOwner(n, t, m, w, key, u);
        if t.links[key].user == u {
          RemoveAgrees(n, t, m, w, canonical.value, u, answer);
        } else {
          RefusalAgrees(n, t, m, w, OtherAccount);
        }
      }
    }
    hide Solo, Apart, AccountsAgree, SameShown;
  }

  lemma ListSimulates(fold: string -> string, n: Names, t: Tables, m: Memory, w: Twins, c: Call)
    requires Related(n, t, m, w) && Distinct(n) && Playable(n, t, m, w, c) && c.kind.ListCall?
    ensures Agreed(n, t, m, w, w, SqlCall(fold, t, c), MemCall(fold, n, m, c), false)
  {
    hide SqlList, MemList, Agreed, Related, Distinct, Strip;
    ListAnswers(n, t, m, w, c.user, c.memUser);
  }

  lemma ListAnswers(n: Names, t: Tables, m: Memory, w: Twins, user: string, mem: string)
    requires Related(n, t, m, w) && Distinct(n)
    requires if Strip(user) in w then Strip(mem) == n.user(w[Strip(user)].1) else Strip(mem) !in m.accounts
    ensures Agreed(n, t, m, w, w, (t, SqlList(t, user)), (m, MemList(m, mem)), false)
  {
    SameAccount(n, t, m, w, user, Strip(mem));
    var account := GetAccount(t, Strip(user));
    hide Strip, GetAccount, Related, Distinct, Agreed;
    if account.Some? && account.value.enabled {
      ListedAgrees(n, t, m, w, Strip(user));
    } else {
      RefusalAgrees(n, t, m, w, AccountUnavailable);
    }
  }

  lemma ListedAgrees(n: Names, t: Tables, m: Memory, w: Twins, u: string)
    requires Related(n, t, m, w) && Distinct(n) && u in w
    ensures var mu := n.user(w[u].1);
            Agreed(n, t, m, w, w, (t, Listed(map k | k in OwnedLinks(t, u) :: RowShown(t.links[k]))),
                   (m, Listed(map k | k in UserLinks(m, mu) :: LinkShown(m.links[k]))), false)
  {
    ListsAgree(n, t, m, w, u);
    hide Related, SameShown, SameEmails, RowShown, LinkShown, OwnedLinks, UserLinks;
  }

  // ----- runs -----

  datatype Worlds = Worlds(t: Tables, m: Memory, w: Twins)

  ghost function Both(fold: string -> string, n: Names, s: Worlds, c: Call): Worlds {
    Worlds(SqlCall(fold, s.t, c).0, MemCall(fold, n, s.m, c).0, Paired(fold, s.t, s.m, s.w, c))
  }

  ghost function RunBoth(fold: string -> string, n: Names, calls: seq<Call>): Worlds {
    if calls == [] then Worlds(VACANT, NOTHING, map[])
    else Both(fold, n, RunBoth(fold, n, calls[..|calls| - 1]), calls[|calls| - 1])
  }

  ghost predicate Plays(fold: string -> string, n: Names, calls: seq<Call>) {
    forall k :: 0 <= k < |calls| ==> PlayableAt(fold, n, calls, k)
  }

  ghost predicate PlayableAt(fold: string -> string, n: Names, calls: seq<Call>, k: nat)
    requires k < |calls|
  {
    var s := RunBoth(fold, n, calls[..k]);
    Playable(n, s.t, s.m, s.w, calls[k])
  }

  /** The k-th call moves the only link of another account and presents another email than the stored one. */
  ghost predicate ReplacesAt(fold: string -> string, n: Names, calls: seq<Call>, k: nat)
    requires k < |calls|
  {
    Replaces(fold, RunBoth(fold, n, calls[..k]).t, calls[k])
  }

  /** After k calls both stores show the same emails. */
  ghost predicate EmailsAt(fold: string -> string, n: Names, calls: seq<Call>, k: nat)
    requires k <= |calls|
  {
    var s := RunBoth(fold, n, calls[..k]);
    SameEmails(s.t.links, s.m.links)
  }

  /** The k-th call gets the same answer from both stores and leaves them related. */
  ghost predicate AgreeAt(fold: string -> string, n: Names, calls: seq<Call>, k: nat)
    requires k < |calls|
  {
    var s, c := RunBoth(fold, n, calls[..k]), calls[k];
    Agreed(n, s.t, s.m, s.w, Paired(fold, s.t, s.m, s.w, c), SqlCall(fold, s.t, c), MemCall(fold, n, s.m, c), ReplacesAt(fold, n, calls, k))
  }

  lemma CallSimulates(fold: string -> string, n: Names, t: Tables, m: Memory, w: Twins, c: Call)
    requires Related(n, t, m, w) && Distinct(n) && Playable(n, t, m, w, c)
    ensures Agreed(n, t, m, w, Paired(fold, t, m, w, c), SqlCall(fold, t, c), MemCall(fold, n, m, c), Replaces(fold, t, c))
  {
    hide Related, Playable, Distinct, SqlCall, MemCall, Agreed, Canonical, KeyOf;
    match c.kind {
      case SignInCall => SignInSimulates(fold, n, t, m, w, c);
      case LinkCall => LinkSimulates(fold, n, t, m, w, c);
      case UnlinkCall => UnlinkSimulates(fold, n, t, m, w, c);
      case ListCall => ListSimulates(fold, n, t, m, w, c);
    }
  }

  lemma EmptyRelated(n: Names)
    ensures Related(n, VACANT, NOTHING, map[])
  {
  }

  lemma NextAgrees(fold: string -> string, n: Names, calls: seq<Call>, k: nat)
    requires k < |calls| && Distinct(n) && PlayableAt(fold, n, calls, k)
    requires var s := RunBoth(fold, n, calls[..k]); Related(n, s.t, s.m, s.w)
    ensures var s := RunBoth(fold, n, calls[..k + 1]); Related(n, s.t, s.m, s.w)
    ensures AgreeAt(fold, n, calls, k)
    ensures EmailsAt(fold, n, calls, k) ==> (EmailsAt(fold, n, calls, k + 1) <==> !ReplacesAt(fold, n, calls, k))
  {
    hide Related, Playable, SqlCall, MemCall, Distinct, Paired, Replaces, SameAnswer, SameEmails;
    assert calls[..k + 1][..k] == calls[..k];
    var s := RunBoth(fold, n, calls[..k]);
    CallSimulates(fold, n, s.t, s.m, s.w, calls[k]);
  }

  lemma {:induction false} AgreeUpTo(fold: string -> string, n: Names, calls: seq<Call>, k: nat)
    requires k <= |calls| && Distinct(n) && Plays(fold, n, calls)
    ensures var s := RunBoth(fold, n, calls[..k]); Related(n, s.t, s.m, s.w)
    ensures forall j :: 0 <= j < k ==> AgreeAt(fold, n, calls, j)
    ensures forall j :: 0 <= j < k && EmailsAt(fold, n, calls, j) ==> (EmailsAt(fold, n, calls, j + 1) <==> !ReplacesAt(fold, n, calls, j))
    decreases k
  {
    hide Related, AgreeAt, PlayableAt, Distinct, Both, EmailsAt, ReplacesAt;
    if k == 0 {
      EmptyRelated(n);
      assert calls[..0] == [];
    } else {
      hide RunBoth;
      AgreeUpTo(fold, n, calls, k - 1);
      assert PlayableAt(fold, n, calls, k - 1);
      NextAgrees(fold, n, calls, k - 1);
    }
  }

  /** From empty stores, every call of every run gets the same answer from both, up to the names of ids, and the stores stay related. */
  lemma StoresAgree(fold: string -> string, n: Names, calls: seq<Call>)
    requires Distinct(n) && Plays(fold, n, calls)
    ensures var s := RunBoth(fold, n, calls); Related(n, s.t, s.m, s.w)
    ensures forall k :: 0 <= k < |calls| ==> AgreeAt(fold, n, calls, k)
  {
    hide Related, RunBoth, AgreeAt, Plays, Distinct;
    AgreeUpTo(fold, n, calls, |calls|);
    assert calls[..|calls|] == calls;
  }

  /** The emails agree all along a run if and only if no call of it replaces a stored email. */
  lemma EmailsAgreeExactly(fold: string -> string, n: Names, calls: seq<Call>)
    requires Distinct(n) && Plays(fold, n, calls)
    ensures (forall k :: 0 <= k <= |calls| ==> EmailsAt(fold, n, calls, k))
       <==> (forall k :: 0 <= k < |calls| ==> !ReplacesAt(fold, n, calls, k))
  {
    AgreeUpTo(fold, n, calls, |calls|);
    hide RunBoth, AgreeAt, Plays, Distinct, ReplacesAt, Related;
    if forall k :: 0 <= k < |calls| ==> !ReplacesAt(fold, n, calls, k) {
      EmailsStay(fold, n, calls, |calls|);
    } else {
      hide EmailsAt;
      var k :| 0 <= k < |calls| && ReplacesAt(fold, n, calls, k);
      assert EmailsAt(fold, n, calls, k) ==> !EmailsAt(fold, n, calls, k + 1);
    }
  }

  lemma {:induction false} EmailsStay(fold: string -> string, n: Names, calls: seq<Call>, k: nat)
    requires k <= |calls|
    requires forall j :: 0 <= j < k ==> !ReplacesAt(fold, n, calls, j)
    requires forall j :: 0 <= j < k && EmailsAt(fold, n, calls, j) ==> (EmailsAt(fold, n, calls, j + 1) <==> !ReplacesAt(fold, n, calls, j))
    ensures forall j :: 0 <= j <= k ==> EmailsAt(fold, n, calls, j)
    decreases k
  {
    if k == 0 {
      assert calls[..0] == [];
    } else {
      EmailsStay(fold, n, calls, k - 1);
      hide EmailsAt, ReplacesAt;
      assert EmailsAt(fold, n, calls, k - 1) && !ReplacesAt(fold, n, calls, k - 1);
    }
  }

  // ----- a run on which the emails part -----

  lemma NewcomerPairs(fold: string -> string, n: Names, s: Worlds, c: Call)
    requires Related(n, s.t, s.m, s.w) && c.kind.SignInCall? && Canonical(fold, c.identity).Ok?
    requires KeyIn(fold, c.identity) !in s.t.links && c.newUser !in s.t.roster.users && c.newTenant !in s.t.roster.tenants
    ensures var s', i := Both(fold, n, s, c), Canonical(fold, c.identity).value;
            && s'.t.links == s.t.links[KeyOf(i) := LinkRow(c.newUser, c.newTenant, EmailOf(i))]
            && s'.t.roster == Enroll(s.t.roster, c.newUser, c.newTenant)
            && s'.m.next == s.m.next + 1 && s'.w == s.w[c.newUser := (c.newTenant, s.m.next)]
  {
    hide Canonical, KeyOf, Clean, EmailOf, Enroll, AccountsAgree, LinkFor;
    assert (c.newTenant, c.newUser) !in s.t.roster.memberships;
  }

  /** Two sign-ins of two identities, then a link of the second to the first account, presenting another email. */
  ghost predicate Parting(fold: string -> string, n: Names, a: Call, b: Call, c: Call) {
    && a.kind.SignInCall? && b.kind.SignInCall? && c.kind.LinkCall?
    && Canonical(fold, a.identity).Ok? && Canonical(fold, b.identity).Ok? && Canonical(fold, c.identity).Ok?
    && KeyIn(fold, a.identity) != KeyIn(fold, b.identity) && KeyIn(fold, c.identity) == KeyIn(fold, b.identity)
    && EmailOf(Canonical(fold, b.identity).value) != EmailOf(Canonical(fold, c.identity).value)
    && a.newUser != b.newUser && a.newTenant != b.newTenant
    && c.user == a.newUser && c.tenant == a.newTenant && c.memUser == n.user(1) && c.memTenant == n.tenant(1) && c.recent
    && Clean(n.user(1)) && Clean(n.tenant(1))
  }

  /** The world after the two sign-ins. */
  ghost predicate Paired2(fold: string -> string, s: Worlds, a: Call, b: Call)
    requires Canonical(fold, a.identity).Ok? && Canonical(fold, b.identity).Ok?
  {
    && s.w == map[a.newUser := (a.newTenant, 1), b.newUser := (b.newTenant, 2)]
    && s.t.roster.users == map[a.newUser := true, b.newUser := true]
    && s.t.links == map[
         KeyIn(fold, a.identity) := LinkRow(a.newUser, a.newTenant, EmailOf(Canonical(fold, a.identity).value)),
         KeyIn(fold, b.identity) := LinkRow(b.newUser, b.newTenant, EmailOf(Canonical(fold, b.identity).value))]
  }

  lemma TwoSignIns(fold: string -> string, n: Names, a: Call, b: Call, c: Call)
    requires Distinct(n) && Parting(fold, n, a, b, c)
    ensures Plays(fold, n, [a, b]) && Paired2(fold, RunBoth(fold, n, [a, b]), a, b)
  {
    hide Canonical, KeyOf, KeyIn, Clean, EmailOf, Related, Distinct, SqlCall, MemCall;
    var none := Worlds(VACANT, NOTHING, map[]);
    assert [a, b][..0] == [] && [a, b][..1] == [a] && [a][..0] == [];
    EmptyRelated(n);
    SameKeyIn(fold, a.identity);
    SameKeyIn(fold, b.identity);
    NewcomerPairs(fold, n, none, a);
    CallSimulates(fold, n, none.t, none.m, none.w, a);
    var one := Both(fold, n, none, a);
    assert RunBoth(fold, n, [a]) == one;
    NewcomerPairs(fold, n, one, b);
    assert RunBoth(fold, n, [a, b]) == Both(fold, n, one, b);
  }

  lemma SameKeyIn(fold: string -> string, i: Identity)
    requires Canonical(fold, i).Ok?
    ensures KeyIn(fold, i) == KeyOf(Canonical(fold, i).value)
  {
  }

  lemma ThirdReplaces(fold: string -> string, n: Names, s: Worlds, a: Call, b: Call, c: Call)
    requires Parting(fold, n, a, b, c) && Paired2(fold, s, a, b) && Related(n, s.t, s.m, s.w)
    ensures Playable(n, s.t, s.m, s.w, c) && Replaces(fold, s.t, c)
  {
    hide Canonical, KeyOf, EmailOf, Strip, AccountsAgree, LinksAgree, Apart, GetAccount;
    WholeAccount(s.t, s.w, a.newUser);
    assert Strip(c.user) == c.user == a.newUser && Strip(c.tenant) == a.newTenant;
    SameKeyIn(fold, b.identity);
    SameKeyIn(fold, c.identity);
    hide Solo, KeyIn;
    var key := KeyIn(fold, b.identity);
    assert SeatLinks(s.t, b.newUser, b.newTenant) == {key};
  }

  lemma SamePrefix(calls: seq<Call>, c: Call, k: nat)
    requires k <= |calls|
    ensures (calls + [c])[..k] == calls[..k]
  {
  }

  lemma PlaysOn(fold: string -> string, n: Names, calls: seq<Call>, c: Call)
    requires Plays(fold, n, calls)
    requires var s := RunBoth(fold, n, calls); Playable(n, s.t, s.m, s.w, c)
    ensures Plays(fold, n, calls + [c])
  {
    var more := calls + [c];
    hide RunBoth, Playable;
    forall k | 0 <= k < |more| ensures PlayableAt(fold, n, more, k) {
      if k < |calls| {
        assert PlayableAt(fold, n, calls, k);
        SamePrefix(calls, c, k);
      } else {
        SamePrefix(calls, c, |calls|);
        assert calls[..|calls|] == calls;
      }
    }
  }

  lemma PartsOn(fold: string -> string, n: Names, calls: seq<Call>, c: Call)
    requires Distinct(n) && Plays(fold, n, calls + [c]) && EmailsAt(fold, n, calls, |calls|)
    requires var s := RunBoth(fold, n, calls); Related(n, s.t, s.m, s.w) && Replaces(fold, s.t, c)
    ensures !EmailsAt(fold, n, calls + [c], |calls| + 1)
  {
    var more := calls + [c];
    SamePrefix(calls, c, |calls|);
    assert calls[..|calls|] == calls;
    assert PlayableAt(fold, n, more, |calls|);
    hide RunBoth, Distinct, Plays, PlayableAt, Replaces, SameEmails, Related;
    assert EmailsAt(fold, n, more, |calls|) && ReplacesAt(fold, n, more, |calls|);
    NextAgrees(fold, n, more, |calls|);
  }

  ghost predicate OnlySignIns(calls: seq<Call>) {
    forall k :: 0 <= k < |calls| ==> calls[k].kind.SignInCall?
  }

  lemma SignInsKeepEmails(fold: string -> string, n: Names, calls: seq<Call>)
    requires Distinct(n) && Plays(fold, n, calls) && OnlySignIns(calls)
    ensures EmailsAt(fold, n, calls, |calls|)
  {
    EmailsAgreeExactly(fold, n, calls);
    hide RunBoth, Distinct, Plays, EmailsAt;
    forall k | 0 <= k < |calls| ensures !ReplacesAt(fold, n, calls, k) {
      assert calls[k].kind.SignInCall?;
    }
  }

  lemma ThirdParts(fold: string -> string, n: Names, two: seq<Call>, a: Call, b: Call, c: Call)
    requires Distinct(n) && Parting(fold, n, a, b, c) && Plays(fold, n, two) && Paired2(fold, RunBoth(fold, n, two), a, b)
    requires OnlySignIns(two)
    ensures Plays(fold, n, two + [c]) && !EmailsAt(fold, n, two + [c], |two| + 1)
  {
    SignInsKeepEmails(fold, n, two);
    StoresAgree(fold, n, two);
    hide OnlySignIns, Related, Playable, Replaces, RunBoth, Paired2, Distinct, Plays, EmailsAt, Parting;
    ThirdReplaces(fold, n, RunBoth(fold, n, two), a, b, c);
    PlaysOn(fold, n, two, c);
    PartsOn(fold, n, two, c);
  }

  lemma BothSignIns(fold: string -> string, n: Names, a: Call, b: Call, c: Call)
    requires Parting(fold, n, a, b, c)
    ensures Canonical(fold, a.identity).Ok? && Canonical(fold, b.identity).Ok? && OnlySignIns([a, b])
  {
    hide Canonical, KeyIn, Clean, EmailOf;
  }

  /** Every such run ends with stores that show different emails. */
  lemma EmailsPart(fold: string -> string, n: Names, a: Call, b: Call, c: Call)
    requires Distinct(n) && Parting(fold, n, a, b, c)
    ensures Plays(fold, n, [a, b, c]) && !EmailsAt(fold, n, [a, b, c], 3)
  {
    hide *;
    BothSignIns(fold, n, a, b, c);
    TwoSignIns(fold, n, a, b, c);
    ThirdParts(fold, n, [a, b], a, b, c);
    assert [a, b] + [c] == [a, b, c];
  }

  // ----- such a run exists -----

  function Tally(k: nat): (t: string)
    ensures |t| == k + 1 && forall i :: 0 <= i < |t| ==> t[i] == 'i'
  {
    if k == 0 then "i" else Tally(k - 1) + "i"
  }

  const TALLIES := Names((k: nat) => Tally(k), (k: nat) => Tally(k))

  lemma TallyClean(k: nat)
    ensures Clean(Tally(k))
  {
    StripTrimmed(Tally(k));
  }

  lemma TalliesDistinct()
    ensures Distinct(TALLIES)
  {
    forall j: nat, k: nat | j != k ensures Tally(j) != Tally(k) { assert |Tally(j)| == j + 1 && |Tally(k)| == k + 1; }
  }

  function Plain(subject: string, email: string): Identity { Identity(GitHub, subject, Some(email), true, None) }

  function SameText(s: string): string { s }

  lemma PlainCanonical(subject: string, email: string)
    requires Clean(subject) && Clean(email)
    ensures Canonical(SameText, Plain(subject, email)) == Ok(Plain(subject, email))
  {
    hide Strip;
  }

  lemma PlainParting(n: Names, u: Id, v: Id, x: Id, y: Id)
    requires u != v && x != y && n.user(1) == n.tenant(1) == y
    ensures Parting(SameText, n,
              Call(SignInCall, Plain(u, x), "", "", "", "", false, 0, u, u),
              Call(SignInCall, Plain(v, x), "", "", "", "", false, 0, v, v),
              Call(LinkCall, Plain(v, y), u, u, y, y, true, 0, u, u))
  {
    PlainCanonical(u, x);
    PlainCanonical(v, x);
    PlainCanonical(v, y);
    hide Canonical, Clean;
  }

  /** The emails of the two stores do part on a run of the services. */
  lemma EmailsCanPart()
    ensures exists n, calls :: Distinct(n) && Plays(SameText, n, calls) && !EmailsAt(SameText, n, calls, |calls|)
  {
    var u, v, x, y := Tally(2), Tally(3), Tally(0), Tally(1);
    TallyClean(0);
    TallyClean(1);
    TallyClean(2);
    TallyClean(3);
    TalliesDistinct();
    hide Clean, Tally, Plays, EmailsAt, Parting, Distinct;
    PlainParting(TALLIES, u, v, x, y);
    var a := Call(SignInCall, Plain(u, x), "", "", "", "", false, 0, u, u);
    var b := Call(SignInCall, Plain(v, x), "", "", "", "", false, 0, v, v);
    var c := Call(LinkCall, Plain(v, y), u, u, y, y, true, 0, u, u);
    EmailsPart(SameText, TALLIES, a, b, c);
    assert |[a, b, c]| == 3;
  }
}
