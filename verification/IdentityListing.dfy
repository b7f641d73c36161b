/** `linked_identities` in order: SQL sorts by the stored key, the in-memory store by an issuer SQL does not keep. */
module IdentityListing {
  import opened Prelude
  import opened Text
  import opened IdentityKeys
  import opened IdentityTables
  import opened IdentityReference
  import opened IdentitySimulation

  function ProviderText(p: Provider): string {
    match p
    case Google => "google"
    case Microsoft => "microsoft"
    case GitHub => "github"
    case Apple => "apple"
    case Email => "email"
    case EnterpriseOidc => "enterprise_oidc"
  }

  type Rank = (string, string, string)

  predicate RankBelow(a: Rank, b: Rank) {
    Below(a.0, b.0) || (a.0 == b.0 && (Below(a.1, b.1) || (a.1 == b.1 && Below(a.2, b.2))))
  }

  function IssuerText(m: Memory, k: Key): string {
    if k in m.links && m.links[k].issuer.Some? then m.links[k].issuer.value else ""
  }

  function SqlRank(k: Key): Rank { (ProviderText(k.0), k.1, k.2) }

  function MemRank(m: Memory, k: Key): Rank { (ProviderText(k.0), IssuerText(m, k), k.2) }

  /** The keys, each once, in strictly rising order. */
  ghost predicate SqlOrder(list: seq<Key>, keys: set<Key>) {
    (forall k :: k in list <==> k in keys) && forall i, j :: 0 <= i < j < |list| ==> RankBelow(SqlRank(list[i]), SqlRank(list[j]))
  }

  ghost predicate MemOrder(m: Memory, list: seq<Key>, keys: set<Key>) {
    (forall k :: k in list <==> k in keys) && forall i, j :: 0 <= i < j < |list| ==> RankBelow(MemRank(m, list[i]), MemRank(m, list[j]))
  }

  lemma RankIrreflexive(a: Rank)
    ensures !RankBelow(a, a)
  {
    BelowIrreflexive(a.0);
    BelowIrreflexive(a.1);
    BelowIrreflexive(a.2);
  }

  lemma BelowAsymmetric(a: string, b: string)
    requires Below(a, b)
    ensures !Below(b, a) && a != b
  {
    BelowIrreflexive(a);
    if Below(b, a) { BelowTransitive(a, b, a); }
  }

  lemma RankAsymmetric(a: Rank, b: Rank)
    requires RankBelow(a, b)
    ensures !RankBelow(b, a) && a != b
  {
    if Below(a.0, b.0) { BelowAsymmetric(a.0, b.0); } else { BelowIrreflexive(a.0); }
    if Below(a.1, b.1) { BelowAsymmetric(a.1, b.1); } else { BelowIrreflexive(a.1); }
    if Below(a.2, b.2) { BelowAsymmetric(a.2, b.2); } else { BelowIrreflexive(a.2); }
  }

  lemma ListsNothing(m: Memory, p: seq<Key>, keys: set<Key>)
    requires MemOrder(m, p, keys)
    ensures p == [] <==> keys == {}
  {
    hide RankBelow, MemRank;
    if p != [] { assert p[0] in keys; }
    if keys != {} { var k :| k in keys; assert k in p; }
  }

  /** A set of keys has one rising listing. */
  lemma {:induction false} OneOrder(m: Memory, p: seq<Key>, q: seq<Key>, keys: set<Key>)
    requires MemOrder(m, p, keys) && MemOrder(m, q, keys)
    ensures p == q
    decreases |p|
  {
    ListsNothing(m, p, keys);
    ListsNothing(m, q, keys);
    if keys != {} {
      assert p[0] in keys;
      var i :| 0 <= i < |q| && q[i] == p[0];
      assert q[0] in keys;
      var j :| 0 <= j < |p| && p[j] == q[0];
      if i != 0 && j != 0 { RankAsymmetric(MemRank(m, q[0]), MemRank(m, q[i])); }
      assert p[0] == q[0];
      RestOrder(m, p, keys);
      RestOrder(m, q, keys);
      OneOrder(m, p[1..], q[1..], keys - {p[0]});
    }
  }

  lemma RestOrder(m: Memory, p: seq<Key>, keys: set<Key>)
    requires p != [] && MemOrder(m, p, keys)
    ensures MemOrder(m, p[1..], keys - {p[0]})
  {
    hide RankBelow, MemRank;
    forall k ensures k in p[1..] <==> k in keys - {p[0]} {
      assert k in p <==> k == p[0] || k in p[1..];
      if p[0] in p[1..] {
        var i :| 0 < i < |p| && p[i] == p[0];
        RankIrreflexive(MemRank(m, p[0]));
      }
    }
  }

  /** Among the links of one provider without a namespace, issuers rise with the subjects, or stay. */
  predicate IssuersRise(m: Memory, keys: set<Key>) {
    forall a, b :: a in keys && b in keys && a.0 == b.0 && !Namespaced(a.0) && Below(a.2, b.2) ==>
      IssuerText(m, a) == IssuerText(m, b) || Below(IssuerText(m, a), IssuerText(m, b))
  }

  /** What both stores keep of the issuer is in the key. */
  predicate IssuersKeyed(m: Memory, keys: set<Key>) {
    forall k :: k in keys ==> if Namespaced(k.0) then IssuerText(m, k) == k.1 else k.1 == ""
  }

  lemma ProvidersDiffer(p: Provider, q: Provider)
    requires p != q
    ensures ProviderText(p) != ProviderText(q)
  {
  }

  lemma SameProvider(a: Key, b: Key)
    requires SqlRank(a).0 == SqlRank(b).0
    ensures a.0 == b.0
  {
    if a.0 != b.0 { ProvidersDiffer(a.0, b.0); }
  }

  /** Two keys in SQL order are in memory order exactly if their issuers allow it. */
  lemma PairOrder(m: Memory, keys: set<Key>, a: Key, b: Key)
    requires IssuersKeyed(m, keys) && a in keys && b in keys && RankBelow(SqlRank(a), SqlRank(b))
    ensures RankBelow(MemRank(m, a), MemRank(m, b)) <==>
            (a.0 == b.0 && !Namespaced(a.0) ==> IssuerText(m, a) == IssuerText(m, b) || Below(IssuerText(m, a), IssuerText(m, b)))
  {
    hide IssuerText, ProviderText;
    if SqlRank(a).0 == SqlRank(b).0 {
      SameProvider(a, b);
      BelowIrreflexive(SqlRank(a).0);
      BelowIrreflexive("");
    }
  }

  lemma KeyedIssuers(n: Names, t: Tables, m: Memory, w: Twins, u: string)
    requires Related(n, t, m, w)
    ensures IssuersKeyed(m, OwnedLinks(t, u))
  {
  }

  /** Rising issuers: the SQL listing is a listing of the in-memory store too. */
  lemma RisingLists(m: Memory, p: seq<Key>, keys: set<Key>)
    requires SqlOrder(p, keys) && IssuersKeyed(m, keys) && IssuersRise(m, keys)
    ensures MemOrder(m, p, keys)
  {
    hide RankBelow, SqlRank, MemRank, IssuersKeyed;
    forall i, j | 0 <= i < j < |p| ensures RankBelow(MemRank(m, p[i]), MemRank(m, p[j])) {
      assert p[i] in keys && p[j] in keys;
      PairOrder(m, keys, p[i], p[j]);
      if p[i].0 == p[j].0 && !Namespaced(p[i].0) { SubjectsRise(m, keys, p[i], p[j]); }
    }
  }

  lemma SubjectsRise(m: Memory, keys: set<Key>, a: Key, b: Key)
    requires IssuersKeyed(m, keys) && a in keys && b in keys && a.0 == b.0 && !Namespaced(a.0)
    ensures RankBelow(SqlRank(a), SqlRank(b)) <==> Below(a.2, b.2)
  {
    BelowIrreflexive(ProviderText(a.0));
    BelowIrreflexive("");
  }

  lemma ListedRises(m: Memory, p: seq<Key>, keys: set<Key>, a: Key, b: Key)
    requires SqlOrder(p, keys) && MemOrder(m, p, keys) && IssuersKeyed(m, keys)
    requires a in keys && b in keys && a.0 == b.0 && !Namespaced(a.0) && Below(a.2, b.2)
    ensures IssuerText(m, a) == IssuerText(m, b) || Below(IssuerText(m, a), IssuerText(m, b))
  {
    hide RankBelow, SqlRank, MemRank, IssuersKeyed, IssuerText;
    SubjectsRise(m, keys, a, b);
    RankIrreflexive(SqlRank(a));
    var i :| 0 <= i < |p| && p[i] == a;
    var j :| 0 <= j < |p| && p[j] == b;
    if j < i { RankAsymmetric(SqlRank(b), SqlRank(a)); }
    PairOrder(m, keys, a, b);
  }

  /** Related stores list an account's links in the same order if and only if issuers rise with subjects. */
  lemma ListOrderExactly(n: Names, t: Tables, m: Memory, w: Twins, u: string, p: seq<Key>, q: seq<Key>)
    requires Related(n, t, m, w) && Distinct(n) && u in w
    requires SqlOrder(p, OwnedLinks(t, u)) && MemOrder(m, q, UserLinks(m, n.user(w[u].1)))
    ensures p == q <==> IssuersRise(m, OwnedLinks(t, u))
  {
    var keys := OwnedLinks(t, u);
    SameCounts(n, t, m, w, u);
    KeyedIssuers(n, t, m, w, u);
    hide Related, OwnedLinks, UserLinks, SqlOrder, MemOrder, IssuersKeyed;
    if IssuersRise(m, keys) {
      RisingLists(m, p, keys);
      OneOrder(m, p, q, keys);
    }
    if p == q {
      forall a, b | a in keys && b in keys && a.0 == b.0 && !Namespaced(a.0) && Below(a.2, b.2)
        ensures IssuerText(m, a) == IssuerText(m, b) || Below(IssuerText(m, a), IssuerText(m, b))
      {
        ListedRises(m, p, keys, a, b);
      }
    }
  }
}
