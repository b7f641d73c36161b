/** The SQL store answers every run of account calls as the in-memory store does, up to the names of ids. */
module IdentitySimulation {
  import opened Prelude
  import opened Text
  import opened IdentityKeys
  import opened IdentityTables
  import opened IdentityInvariant
  import opened IdentityReference

  /** For each SQL user, its own tenant and the sequence number of its counterpart. */
  type Twins = map<string, (string, nat)>

  ghost predicate Distinct(n: Names) {
    forall j, k :: j != k ==> n.user(j) != n.user(k) && n.tenant(j) != n.tenant(k)
  }

  /** Different users have different tenants and counterparts. */
  predicate Apart(w: Twins) {
    forall u, v :: u in w && v in w && u != v ==> w[u].0 != w[v].0 && w[u].1 != w[v].1
  }

  /** The SQL roster holds one isolated account per user, retired or whole. */
  predicate Solo(r: Roster, w: Twins) {
    && r.users.Keys == w.Keys
    && (forall m :: m in r.memberships ==> m.1 in w && m.0 == w[m.1].0)
    && (forall u :: u in w ==>
         && Clean(u) && w[u].0 in r.tenants && (w[u].0, u) in r.memberships
         && (if r.users[u] then r.tenants[w[u].0] && r.memberships[(w[u].0, u)] == Membership(OWNER, Active, true)
             else !r.memberships[(w[u].0, u)].primary))
  }

  predicate AccountsAgree(n: Names, users: map<string, bool>, m: Memory, w: Twins) {
    forall u :: u in w && u in users ==>
      && w[u].1 < m.next && n.user(w[u].1) in m.accounts
      && m.accounts[n.user(w[u].1)] == Account(n.user(w[u].1), n.tenant(w[u].1), users[u])
  }

  /** The same keys lead to counterparts; of the issuer SQL keeps only what is in the key. */
  predicate LinksAgree(n: Names, users: map<string, bool>, rows: map<Key, LinkRow>, links: map<Key, Link>, w: Twins) {
    && rows.Keys == links.Keys
    && forall k :: k in rows ==>
         && rows[k].user in w && rows[k].user in users && users[rows[k].user]
         && rows[k].tenant == w[rows[k].user].0
         && links[k].user == n.user(w[rows[k].user].1) && links[k].tenant == n.tenant(w[rows[k].user].1)
         && (if Namespaced(k.0) then links[k].issuer == Some(k.1) else k.1 == "")
  }

  /** The emails shown with the links. */
  predicate SameEmails(rows: map<Key, LinkRow>, links: map<Key, Link>) {
    forall k :: k in rows && k in links ==> rows[k].email == links[k].email
  }

  predicate Related(n: Names, t: Tables, m: Memory, w: Twins) {
    && Apart(w) && Solo(t.roster, w) && AccountsAgree(n, t.roster.users, m, w)
    && LinksAgree(n, t.roster.users, t.links, m.links, w) && t.entitlements == map[]
  }

  // ----- looking up -----

  lemma WholeAccount(t: Tables, w: Twins, u: string)
    requires Solo(t.roster, w) && u in w && t.roster.users[u]
    ensures GetAccount(t, u) == Some(Account(u, w[u].0, true))
  {
    hide Strip;
    assert IsPrimary(t.roster, w[u].0, u);
  }

  lemma RetiredAccount(t: Tables, w: Twins, u: string)
    requires Solo(t.roster, w) && (u in w ==> !t.roster.users[u])
    ensures var a := GetAccount(t, u); a.Some? ==> a.value.user != u
  {
    hide Strip;
  }

  lemma SameCounts(n: Names, t: Tables, m: Memory, w: Twins, u: string)
    requires Related(n, t, m, w) && Distinct(n) && u in w
    ensures OwnedLinks(t, u) == SeatLinks(t, u, w[u].0)
    ensures SeatLinks(t, u, w[u].0) == AccountLinks(m, n.user(w[u].1), n.tenant(w[u].1)) == UserLinks(m, n.user(w[u].1))
  {
    hide Solo, AccountsAgree;
    var mine := n.user(w[u].1);
    forall k | k in t.links
      ensures k in m.links && (t.links[k].user == u <==> m.links[k].user == mine)
      ensures t.links[k].user == u ==> t.links[k].tenant == w[u].0 && m.links[k].tenant == n.tenant(w[u].1)
    {
      var v := t.links[k].user;
      assert v != u ==> w[v].1 != w[u].1;
    }
    assert SeatLinks(t, u, w[u].0) == UserLinks(m, mine);
    assert AccountLinks(m, mine, n.tenant(w[u].1)) == UserLinks(m, mine);
  }

  // ----- one store operation -----

  /** What canonical identities guarantee about their key. */
  predicate Keyed(i: Identity) {
    if Namespaced(i.provider) then i.issuer == Some(KeyOf(i).1) else KeyOf(i).1 == ""
  }

  lemma CanonicalKeyed(fold: string -> string, i: Identity)
    requires Canonical(fold, i).Ok?
    ensures Keyed(Canonical(fold, i).value)
  {
    hide Strip;
  }

  lemma CreateSimulates(n: Names, t: Tables, m: Memory, w: Twins, i: Identity, user: Id, tenant: Id)
    requires Related(n, t, m, w) && Distinct(n) && Keyed(i) && KeyOf(i) !in t.links && user !in t.roster.users && tenant !in t.roster.tenants
    ensures Create(t, i, user, tenant).1 == Ok(Account(user, tenant, true))
    ensures MemCreate(n, m, i).1 == Ok(Account(n.user(m.next), n.tenant(m.next), true))
    ensures Related(n, Create(t, i, user, tenant).0, MemCreate(n, m, i).0, w[user := (tenant, m.next)])
    ensures SameEmails(t.links, m.links) ==> SameEmails(Create(t, i, user, tenant).0.links, MemCreate(n, m, i).0.links)
  {
    hide Clean, KeyOf;
    assert (tenant, user) !in t.roster.memberships;
    EnrollSolo(t.roster, w, user, tenant, m.next);
    EnrollAccounts(n, t.roster.users, m, w, i, user, tenant);
    EnrollApart(n, t.roster, m, w, user, tenant);
    CreatedLinks(n, t, m, w, i, user, tenant);
    hide Solo, AccountsAgree, LinksAgree, Apart;
  }

  lemma EnrollApart(n: Names, r: Roster, m: Memory, w: Twins, user: Id, tenant: Id)
    requires Apart(w) && Solo(r, w) && AccountsAgree(n, r.users, m, w) && tenant !in r.tenants
    ensures Apart(w[user := (tenant, m.next)])
  {
    hide Clean;
  }

  lemma EnrollSolo(r: Roster, w: Twins, user: Id, tenant: Id, k: nat)
    requires Solo(r, w) && user !in r.users && tenant !in r.tenants
    ensures Solo(Enroll(r, user, tenant), w[user := (tenant, k)])
  {
    hide Clean;
  }

  lemma EnrollAccounts(n: Names, users: map<string, bool>, m: Memory, w: Twins, i: Identity, user: Id, tenant: Id)
    requires AccountsAgree(n, users, m, w) && Distinct(n) && user !in users && w.Keys == users.Keys && KeyOf(i) !in m.links
    ensures AccountsAgree(n, users[user := true], MemCreate(n, m, i).0, w[user := (tenant, m.next)])
  {
    hide Clean, KeyOf;
  }

  lemma CreatedLinks(n: Names, t: Tables, m: Memory, w: Twins, i: Identity, user: Id, tenant: Id)
    requires LinksAgree(n, t.roster.users, t.links, m.links, w) && Keyed(i) && KeyOf(i) !in t.links && user !in t.roster.users
    ensures var k := KeyOf(i);
            LinksAgree(n, t.roster.users[user := true], t.links[k := LinkRow(user, tenant, EmailOf(i))],
                       m.links[k := LinkFor(Account(n.user(m.next), n.tenant(m.next), true), i)], w[user := (tenant, m.next)])
  {
    hide Clean;
  }

  lemma AddSimulates(n: Names, t: Tables, m: Memory, w: Twins, i: Identity, u: string)
    requires Related(n, t, m, w) && Keyed(i) && KeyOf(i) !in t.links && u in w && t.roster.users[u]
    ensures var a, b := Account(u, w[u].0, true), Account(n.user(w[u].1), n.tenant(w[u].1), true);
            && AddLink(t, a, i).1 == Ok(LinkRow(u, w[u].0, EmailOf(i))) && MemAdd(m, b, i).1 == Ok(LinkFor(b, i))
            && Related(n, AddLink(t, a, i).0, MemAdd(m, b, i).0, w)
            && (SameEmails(t.links, m.links) ==> SameEmails(AddLink(t, a, i).0.links, MemAdd(m, b, i).0.links))
  {
    WholeAccount(t, w, u);
    AddedLinkAgrees(n, t.roster.users, t.links, m.links, w, i, u);
    hide Solo, GetAccount, Apart, LinksAgree, KeyOf, Keyed;
  }

  lemma AddedLinkAgrees(n: Names, users: map<string, bool>, rows: map<Key, LinkRow>, links: map<Key, Link>, w: Twins, i: Identity, u: string)
    requires LinksAgree(n, users, rows, links, w) && Keyed(i) && u in w && u in users && users[u]
    ensures LinksAgree(n, users, rows[KeyOf(i) := LinkRow(u, w[u].0, EmailOf(i))],
                       links[KeyOf(i) := LinkFor(Account(n.user(w[u].1), n.tenant(w[u].1), true), i)], w)
  {
  }

  lemma DroppedLinkAgrees(n: Names, users: map<string, bool>, rows: map<Key, LinkRow>, links: map<Key, Link>, w: Twins, key: Key)
    requires LinksAgree(n, users, rows, links, w)
    ensures LinksAgree(n, users, rows - {key}, links - {key}, w)
  {
  }

  lemma RemoveSimulates(n: Names, t: Tables, m: Memory, w: Twins, i: Identity, u: string)
    requires Related(n, t, m, w) && Distinct(n) && KeyOf(i) in t.links && t.links[KeyOf(i)].user == u && u in w && t.roster.users[u]
    ensures var a, b := Account(u, w[u].0, true), Account(n.user(w[u].1), n.tenant(w[u].1), true);
            && (if RemoveLink(t, a, i).1.Ok? then RemoveLink(t, a, i).1 == Ok(t.links[KeyOf(i)]) && MemRemove(m, b, i).1 == Ok(m.links[KeyOf(i)])
                else RemoveLink(t, a, i).1 == Err(LastLink) && MemRemove(m, b, i).1 == Err(LastLink))
            && Related(n, RemoveLink(t, a, i).0, MemRemove(m, b, i).0, w)
            && (SameEmails(t.links, m.links) ==> SameEmails(RemoveLink(t, a, i).0.links, MemRemove(m, b, i).0.links))
  {
    WholeAccount(t, w, u);
    SameCounts(n, t, m, w, u);
    DroppedLinkAgrees(n, t.roster.users, t.links, m.links, w, KeyOf(i));
    assert m.links[KeyOf(i)].user == n.user(w[u].1) && m.links[KeyOf(i)].tenant == n.tenant(w[u].1) && t.links[KeyOf(i)].tenant == w[u].0;
    hide Solo, GetAccount, Apart, AccountsAgree, LinksAgree, KeyOf, SeatLinks, UserLinks, AccountLinks, OwnedLinks;
  }

  /** In this world a source is isolated exactly when it has one link. */
  lemma IsolatedMeansOneLink(t: Tables, w: Twins, u: string)
    requires Apart(w) && Solo(t.roster, w) && u in w && t.roster.users[u] && t.entitlements == map[]
    ensures Isolated(t, Account(u, w[u].0, true)) <==> |SeatLinks(t, u, w[u].0)| == 1
  {
    hide Clean;
    assert SeatsOf(t.roster, u) == {(w[u].0, u)};
    assert SeatsIn(t.roster, w[u].0) == {(w[u].0, u)};
  }

  lemma RetireSolo(r: Roster, w: Twins, v: string)
    requires Apart(w) && Solo(r, w) && v in w
    ensures Solo(Retire(r, Account(v, w[v].0, true)), w)
  {
    hide Clean;
  }

  lemma RetireAccounts(n: Names, users: map<string, bool>, m: Memory, w: Twins, v: string)
    requires AccountsAgree(n, users, m, w) && Distinct(n) && Apart(w) && v in w && v in users
    ensures var b := Account(n.user(w[v].1), n.tenant(w[v].1), false);
            AccountsAgree(n, users[v := false], m.(accounts := m.accounts[b.user := b]), w)
  {
  }

  lemma OnlyLink(links: map<Key, LinkRow>, mine: set<Key>, v: string, key: Key)
    requires mine == (set k | k in links && links[k].user == v) && |mine| == 1 && key in mine
    ensures forall k :: k in links && links[k].user == v ==> k == key
  {
    forall k | k in links && links[k].user == v ensures k == key {
      if k != key { SubsetSize({k, key}, mine); assert false; }
    }
  }

  lemma MovedLinksAgree(n: Names, users: map<string, bool>, rows: map<Key, LinkRow>, links: map<Key, Link>, w: Twins, i: Identity, u: string)
    requires LinksAgree(n, users, rows, links, w) && Keyed(i) && KeyOf(i) in rows && u in w && u in users && users[u]
    requires rows[KeyOf(i)].user != u
    requires forall k :: k in rows && rows[k].user == rows[KeyOf(i)].user ==> k == KeyOf(i)
    ensures var key := KeyOf(i);
            var row := rows[key].(user := u, tenant := w[u].0);
            LinksAgree(n, users[rows[key].user := false], rows[key := row],
                       links[key := LinkFor(Account(n.user(w[u].1), n.tenant(w[u].1), true), i)], w)
  {
  }

  lemma SqlTransfers(t: Tables, w: Twins, i: Identity, u: string, now: int)
    requires Apart(w) && Solo(t.roster, w) && t.entitlements == map[] && KeyOf(i) in t.links && u in w && t.roster.users[u]
    requires var row := t.links[KeyOf(i)]; row.user != u && row.user in w && t.roster.users[row.user] && row.tenant == w[row.user].0
    ensures var row := t.links[KeyOf(i)];
            var (t', r) := Transfer(t, Account(u, w[u].0, true), i, now);
            if |SeatLinks(t, row.user, row.tenant)| == 1 then
              && r.Ok? && t'.roster == Retire(t.roster, Account(row.user, row.tenant, true)) && t'.entitlements == t.entitlements
              && t'.links == t.links[KeyOf(i) := row.(user := u, tenant := w[u].0)]
              && r.value == row.(user := u, tenant := w[u].0)
            else t' == t && r == Err(OtherAccount)
  {
    var v := t.links[KeyOf(i)].user;
    WholeAccount(t, w, u);
    WholeAccount(t, w, v);
    IsolatedMeansOneLink(t, w, v);
    assert Solo(t.roster, w) ==> (w[v].0, v) in t.roster.memberships;
    hide Solo, GetAccount, Apart, KeyOf, Isolated, SeatLinks;
  }

  lemma MemTransfers(m: Memory, a: Account, i: Identity, b: Account)
    requires KeyOf(i) in m.links && m.Find(a.user) == Some(a) && m.Find(b.user) == Some(b) && b.enabled && a.user != b.user
    requires m.links[KeyOf(i)].user == b.user && m.links[KeyOf(i)].tenant == b.tenant
    ensures MemTransfer(m, a, i) ==
            if |AccountLinks(m, b.user, b.tenant)| == 1 then
              (m.(links := m.links[KeyOf(i) := LinkFor(a, i)], accounts := m.accounts[b.user := b.(enabled := false)]), Ok(LinkFor(a, i)))
            else (m, Err(OtherAccount))
  {
    hide KeyOf, AccountLinks;
  }

  lemma MovedRelated(n: Names, t: Tables, m: Memory, w: Twins, i: Identity, u: string, t': Tables, m': Memory)
    requires Related(n, t, m, w) && Distinct(n) && Keyed(i) && KeyOf(i) in t.links && u in w && t.roster.users[u]
    requires var key, v := KeyOf(i), t.links[KeyOf(i)].user;
             && v != u && |OwnedLinks(t, v)| == 1 && v in w && (w[v].0, v) in t.roster.memberships
             && t'.roster == Retire(t.roster, Account(v, w[v].0, true)) && t'.entitlements == t.entitlements
             && t'.links == t.links[key := t.links[key].(user := u, tenant := w[u].0)]
             && m'.next == m.next
             && m'.accounts == m.accounts[n.user(w[v].1) := Account(n.user(w[v].1), n.tenant(w[v].1), false)]
             && m'.links == m.links[key := LinkFor(Account(n.user(w[u].1), n.tenant(w[u].1), true), i)]
    ensures Related(n, t', m', w)
  {
    hide KeyOf, Keyed;
    var v := t.links[KeyOf(i)].user;
    RetireSolo(t.roster, w, v);
    RetireAccounts(n, t.roster.users, m, w, v);
    OnlyLink(t.links, OwnedLinks(t, v), v, KeyOf(i));
    MovedLinksAgree(n, t.roster.users, t.links, m.links, w, i, u);
    assert m'.(links := m.links) == m.(accounts := m'.accounts);
    hide Solo, Apart, LinksAgree, OwnedLinks;
  }

  lemma TransferSimulates(n: Names, t: Tables, m: Memory, w: Twins, i: Identity, u: string, now: int)
    requires Related(n, t, m, w) && Distinct(n) && Keyed(i) && KeyOf(i) in t.links && t.links[KeyOf(i)].user != u
    requires u in w && t.roster.users[u]
    ensures var a, b := Account(u, w[u].0, true), Account(n.user(w[u].1), n.tenant(w[u].1), true);
            var row := t.links[KeyOf(i)];
            && (if |SeatLinks(t, row.user, row.tenant)| == 1 then
                  && Transfer(t, a, i, now).1 == Ok(row.(user := u, tenant := w[u].0)) && MemTransfer(m, b, i).1 == Ok(LinkFor(b, i))
                  && (SameEmails(t.links, m.links) ==>
                       (SameEmails(Transfer(t, a, i, now).0.links, MemTransfer(m, b, i).0.links) <==> EmailOf(i) == row.email))
                else Transfer(t, a, i, now) == (t, Err(OtherAccount)) && MemTransfer(m, b, i) == (m, Err(OtherAccount)))
            && Related(n, Transfer(t, a, i, now).0, MemTransfer(m, b, i).0, w)
  {
    hide KeyOf, Keyed, Distinct, Transfer, MemTransfer;
    var v := t.links[KeyOf(i)].user;
    var a, b := Account(u, w[u].0, true), Account(n.user(w[u].1), n.tenant(w[u].1), true);
    SqlTransfers(t, w, i, u, now);
    SameCounts(n, t, m, w, v);
    assert w[u].1 != w[v].1;
    assert n.user(w[u].1) != n.user(w[v].1) by { Separate(n, w[u].1, w[v].1); }
    MemTransfers(m, b, i, Account(n.user(w[v].1), n.tenant(w[v].1), true));
    if |SeatLinks(t, v, w[v].0)| == 1 {
      MovedRelated(n, t, m, w, i, u, Transfer(t, a, i, now).0, MemTransfer(m, b, i).0);
      if SameEmails(t.links, m.links) { MovedEmails(t.links, m.links, KeyOf(i), t.links[KeyOf(i)].(user := u, tenant := w[u].0), LinkFor(b, i)); }
    }
    hide Related, SeatLinks, AccountLinks, UserLinks, OwnedLinks, SameEmails;
  }

  /** A transfer keeps the stored email in SQL and replaces it in memory. */
  lemma MovedEmails(rows: map<Key, LinkRow>, links: map<Key, Link>, key: Key, row: LinkRow, link: Link)
    requires key in rows && row.email == rows[key].email && SameEmails(rows, links)
    ensures SameEmails(rows[key := row], links[key := link]) <==> link.email == row.email
  {
    assert key in rows[key := row] && key in links[key := link];
    assert SameEmails(rows[key := row], links[key := link]) ==> rows[key := row][key].email == links[key := link][key].email;
  }

  lemma Separate(n: Names, j: nat, k: nat)
    requires Distinct(n) && j != k
    ensures n.user(j) != n.user(k)
  {
  }
}
