/** Whole runs of the commercial store: the latest event wins in any delivery order, replays change nothing. */
module CommercialRuns {
  import opened Prelude
  import opened CommercialAccess

  datatype Op =
    | Deliver(event: Event, now: int)
    | DoBind(id: string, tenant: string, user: string, plan: string, now: int)
    | DoGrant(id: string, subscription: string, from: int, until: int, paid: bool, now: int)
    | DoEntitle(id: string, terms: Terms)

  datatype Digests = Digests(grant: Grant -> string, terms: Terms -> string)

  function Do(d: Digests, a: Access, op: Op): Access {
    match op
    case Deliver(e, now) => Apply(a, e, now).0
    case DoBind(id, tenant, user, plan, now) => Bind(a, id, tenant, user, plan, now).0
    case DoGrant(id, subscription, from, until, paid, now) => GrantFor(a, d.grant, id, subscription, from, until, paid, now).0
    case DoEntitle(id, terms) => Entitle(a, d.terms, id, terms).0
  }

  function Perform(d: Digests, a: Access, ops: seq<Op>): Access {
    if ops == [] then a else Do(d, Perform(d, a, ops[..|ops| - 1]), ops[|ops| - 1])
  }

  // ----- provider events -----

  predicate Delivered(ops: seq<Op>, e: Event) {
    exists k :: 0 <= k < |ops| && ops[k].Deliver? && ops[k].event == e
  }

  /** A supported event of this subscription. */
  predicate Counts(e: Event, s: string) {
    e.subscription == s && StateFor(e.kind).Some?
  }

  /** Events with one id are one event, and no id was used before this run. */
  predicate DistinctIds(a: Access, ops: seq<Op>) {
    && (forall j, k :: 0 <= j < |ops| && 0 <= k < |ops| && ops[j].Deliver? && ops[k].Deliver? ==>
         (ops[j].event.id == ops[k].event.id ==> ops[j].event == ops[k].event))
    && (forall k :: 0 <= k < |ops| && ops[k].Deliver? ==> ops[k].event.id !in a.events)
  }

  /** The binding has followed the events delivered so far. */
  ghost predicate Follows(b: Binding, after: Binding, ops: seq<Op>, s: string) {
    && after.id == b.id && after.tenant == b.tenant && after.user == b.user && after.plan == b.plan && after.created == b.created
    && (after.lastEvent.None? ==> after == b)
    && (forall e :: Delivered(ops, e) && Counts(e, s) ==> after.lastEvent.Some? && e.occurred <= after.lastEvent.value)
    && (after.lastEvent.Some? ==> exists e :: Decides(after, ops, e, s))
  }

  /** The binding shows this delivered event. */
  ghost predicate Decides(b: Binding, ops: seq<Op>, e: Event, s: string) {
    Delivered(ops, e) && Counts(e, s) && b.lastEvent == Some(e.occurred) && Some(b.state) == StateFor(e.kind)
  }

  /** Every recorded id is an old one or was delivered. */
  ghost predicate Recorded(a: Access, a': Access, ops: seq<Op>) {
    forall id :: id in a'.events ==> id in a.events || exists e :: Delivered(ops, e) && e.id == id
  }

  lemma {:induction false} BindingFollows(d: Digests, a: Access, ops: seq<Op>, s: string)
    requires s in a.bindings && a.bindings[s].lastEvent.None? && DistinctIds(a, ops)
    ensures var a' := Perform(d, a, ops);
            s in a'.bindings && Follows(a.bindings[s], a'.bindings[s], ops, s) && Recorded(a, a', ops)
  {
    if ops != [] {
      var before, op := ops[..|ops| - 1], ops[|ops| - 1];
      assert DistinctIds(a, before);
      BindingFollows(d, a, before, s);
      FollowsOn(d, a, Perform(d, a, before), before, op, s);
      assert before + [op] == ops;
    }
  }

  lemma DeliveredMore(ops: seq<Op>, op: Op, e: Event)
    ensures Delivered(ops + [op], e) <==> Delivered(ops, e) || (op.Deliver? && op.event == e)
  {
    if Delivered(ops, e) {
      var k :| 0 <= k < |ops| && ops[k].Deliver? && ops[k].event == e;
      assert (ops + [op])[k] == ops[k];
    }
    if op.Deliver? && op.event == e { assert (ops + [op])[|ops|] == op; }
  }

  lemma FollowsOn(d: Digests, a: Access, m: Access, ops: seq<Op>, op: Op, s: string)
    requires s in a.bindings && s in m.bindings && DistinctIds(a, ops + [op])
    requires Follows(a.bindings[s], m.bindings[s], ops, s) && Recorded(a, m, ops)
    ensures var a' := Do(d, m, op);
            s in a'.bindings && Follows(a.bindings[s], a'.bindings[s], ops + [op], s) && Recorded(a, a', ops + [op])
  {
    var a' := Do(d, m, op);
    if op.Deliver? {
      assert (ops + [op])[|ops|] == op;
      if op.event.id in m.events { SeenBefore(a, m, ops, op); }
      ApplyEffect(m, op.event, op.now, s);
    }
    hide StateFor, Delivered, DistinctIds, Apply, Follows;
    RecordedOn(d, a, m, ops, op);
    if op.Deliver? && a'.bindings[s] != m.bindings[s] {
      FollowsNew(a.bindings[s], m.bindings[s], a'.bindings[s], ops, op, s);
    } else {
      FollowsSame(a.bindings[s], m.bindings[s], ops, op, s);
    }
  }

  lemma FollowsSame(b: Binding, c: Binding, ops: seq<Op>, op: Op, s: string)
    requires Follows(b, c, ops, s)
    requires op.Deliver? && Counts(op.event, s) ==> Delivered(ops, op.event) || (c.lastEvent.Some? && op.event.occurred <= c.lastEvent.value)
    ensures Follows(b, c, ops + [op], s)
  {
    hide StateFor, Delivered;
    forall e ensures Delivered(ops + [op], e) <==> Delivered(ops, e) || (op.Deliver? && op.event == e) { DeliveredMore(ops, op, e); }
    if c.lastEvent.Some? {
      var e :| Decides(c, ops, e, s);
      assert Decides(c, ops + [op], e, s);
    }
  }

  lemma FollowsNew(b: Binding, c: Binding, c': Binding, ops: seq<Op>, op: Op, s: string)
    requires Follows(b, c, ops, s) && op.Deliver? && Counts(op.event, s)
    requires c.lastEvent.None? || c.lastEvent.value < op.event.occurred
    requires exists now :: c' == c.(state := StateFor(op.event.kind).value, updated := now, lastEvent := Some(op.event.occurred))
    ensures Follows(b, c', ops + [op], s)
  {
    hide StateFor, Delivered;
    forall e ensures Delivered(ops + [op], e) <==> Delivered(ops, e) || (op.Deliver? && op.event == e) { DeliveredMore(ops, op, e); }
    assert Decides(c', ops + [op], op.event, s);
  }

  /** How one event moves one binding: a newer supported one replaces its state, anything else leaves it. */
  lemma ApplyEffect(m: Access, e: Event, now: int, s: string)
    requires s in m.bindings
    ensures var a', b := Apply(m, e, now).0, m.bindings[s];
            && s in a'.bindings
            && (a'.bindings[s] == b ||
                 (Counts(e, s) && (b.lastEvent.None? || b.lastEvent.value < e.occurred) && a'.bindings[s] ==
                    b.(state := StateFor(e.kind).value, updated := now, lastEvent := Some(e.occurred))))
            && (Counts(e, s) && e.id !in m.events ==> a'.bindings[s].lastEvent.Some? && e.occurred <= a'.bindings[s].lastEvent.value)
  {
    hide StateFor;
  }

  lemma RecordedOn(d: Digests, a: Access, m: Access, ops: seq<Op>, op: Op)
    requires Recorded(a, m, ops)
    ensures Recorded(a, Do(d, m, op), ops + [op])
  {
    hide StateFor, Delivered;
    forall e ensures Delivered(ops + [op], e) <==> Delivered(ops, e) || (op.Deliver? && op.event == e) { DeliveredMore(ops, op, e); }
  }

  /** An id already recorded in this run belongs to the same event, delivered before. */
  lemma SeenBefore(a: Access, m: Access, ops: seq<Op>, op: Op)
    requires DistinctIds(a, ops + [op]) && Recorded(a, m, ops) && op.Deliver? && op.event.id in m.events
    ensures Delivered(ops, op.event)
  {
    var all := ops + [op];
    assert all[|ops|] == op;
    var e :| Delivered(ops, e) && e.id == op.event.id;
    var k :| 0 <= k < |ops| && ops[k].Deliver? && ops[k].event == e;
    assert all[k] == ops[k];
  }

  /** No delivered event of this subscription is as late as `e`. */
  ghost predicate Latest(ops: seq<Op>, s: string, e: Event) {
    && Delivered(ops, e) && Counts(e, s)
    && forall f :: Delivered(ops, f) && Counts(f, s) && f != e ==> f.occurred < e.occurred
  }

  /** Whatever the order, the redeliveries and the refusals: the latest event decides, and the account never moves. */
  lemma LatestEventWins(d: Digests, a: Access, ops: seq<Op>, s: string, e: Event)
    requires s in a.bindings && a.bindings[s].lastEvent.None? && DistinctIds(a, ops) && Latest(ops, s, e)
    ensures var a' := Perform(d, a, ops);
            && s in a'.bindings
            && a'.bindings[s].lastEvent == Some(e.occurred)
            && Some(a'.bindings[s].state) == StateFor(e.kind)
            && a'.bindings[s].tenant == a.bindings[s].tenant && a'.bindings[s].user == a.bindings[s].user
            && a'.bindings[s].plan == a.bindings[s].plan
  {
    hide StateFor;
    BindingFollows(d, a, ops, s);
  }

  /** So two runs that deliver the same events, in any two orders, end with the same subscription. */
  lemma DeliveryOrderIrrelevant(d: Digests, a: Access, ops: seq<Op>, others: seq<Op>, s: string, e: Event)
    requires s in a.bindings && a.bindings[s].lastEvent.None? && DistinctIds(a, ops) && DistinctIds(a, others)
    requires Latest(ops, s, e) && forall f :: Counts(f, s) ==> (Delivered(ops, f) <==> Delivered(others, f))
    ensures var x, y := Perform(d, a, ops), Perform(d, a, others);
            && s in x.bindings && s in y.bindings
            && x.bindings[s].state == y.bindings[s].state && x.bindings[s].lastEvent == y.bindings[s].lastEvent
  {
    hide StateFor;
    LatestEventWins(d, a, ops, s, e);
    LatestEventWins(d, a, others, s, e);
  }

  // ----- replays -----

  /** Rows are never rewritten, and bindings never change their account. */
  predicate Keeps(a: Access, a': Access) {
    && (forall id :: id in a.events ==> id in a'.events && a'.events[id] == a.events[id])
    && (forall id :: id in a.changes ==> id in a'.changes && a'.changes[id] == a.changes[id])
    && (forall id :: id in a.grants ==> id in a'.grants && a'.grants[id] == a.grants[id])
    && (forall s :: s in a.bindings ==> s in a'.bindings && SameAccount(a.bindings[s], a'.bindings[s]))
  }

  predicate SameAccount(b: Binding, c: Binding) { b.tenant == c.tenant && b.user == c.user && b.plan == c.plan }

  lemma KeepsOn(a: Access, m: Access, a': Access)
    requires Keeps(a, m) && Keeps(m, a')
    ensures Keeps(a, a')
  {
  }

  lemma DoKeeps(d: Digests, a: Access, op: Op)
    ensures Keeps(a, Do(d, a, op))
  {
    match op {
      case Deliver(e, now) => ApplyKeeps(a, e, now);
      case DoBind(id, tenant, user, plan, now) => BindKeeps(a, id, tenant, user, plan, now);
      case DoGrant(id, subscription, from, until, paid, now) => GrantKeeps(d, a, id, subscription, from, until, paid, now);
      case DoEntitle(id, terms) => EntitleKeeps(d, a, id, terms);
    }
    hide StateFor, Apply, Bind, GrantFor, Entitle, Keeps;
  }

  lemma GrantKeeps(d: Digests, a: Access, id: string, subscription: string, from: int, until: int, paid: bool, now: int)
    ensures Keeps(a, GrantFor(a, d.grant, id, subscription, from, until, paid, now).0)
  {
  }

  lemma EntitleKeeps(d: Digests, a: Access, id: string, terms: Terms)
    ensures Keeps(a, Entitle(a, d.terms, id, terms).0)
  {
  }

  lemma ApplyKeeps(a: Access, e: Event, now: int)
    ensures Keeps(a, Apply(a, e, now).0)
  {
    hide StateFor;
  }

  lemma BindKeeps(a: Access, id: string, tenant: string, user: string, plan: string, now: int)
    ensures Keeps(a, Bind(a, id, tenant, user, plan, now).0)
  {
  }

  lemma {:induction false} RunKeeps(d: Digests, a: Access, ops: seq<Op>)
    ensures Keeps(a, Perform(d, a, ops))
  {
    hide Do;
    if ops != [] {
      hide Keeps;
      var m, op := Perform(d, a, ops[..|ops| - 1]), ops[|ops| - 1];
      RunKeeps(d, a, ops[..|ops| - 1]);
      DoKeeps(d, m, op);
      KeepsOn(a, m, Do(d, m, op));
    }
  }

  /** An accepted event is applied once: however much later it comes again, it returns what it returned, and changes nothing. */
  lemma {:induction false} EventsApplyOnce(d: Digests, a: Access, e: Event, now: int, ops: seq<Op>, again: int)
    requires Apply(a, e, now).1.Ok?
    ensures var m := Perform(d, Apply(a, e, now).0, ops);
            Apply(m, e, again) == (m, Apply(a, e, now).1)
  {
    hide StateFor;
    RunKeeps(d, Apply(a, e, now).0, ops);
    hide Perform;
  }

  /** The same for entitlement changes, for every digest. */
  lemma {:induction false} ChangesApplyOnce(d: Digests, a: Access, id: string, terms: Terms, ops: seq<Op>)
    requires Entitle(a, d.terms, id, terms).1.Ok?
    ensures var m := Perform(d, Entitle(a, d.terms, id, terms).0, ops);
            Entitle(m, d.terms, id, terms) == (m, Entitle(a, d.terms, id, terms).1)
  {
    RunKeeps(d, Entitle(a, d.terms, id, terms).0, ops);
    hide Perform;
  }

  // ----- entitlements and grants -----

  /** The rows that changed one account's entitlement. */
  function ChangesOf(a: Access, key: (string, string)): set<string> {
    set id | id in a.changes && (a.changes[id].snapshot.terms.tenant, a.changes[id].snapshot.terms.user) == key
  }

  /** Versions count the changes, no two changes share one, and the entitlement is the newest snapshot. */
  ghost predicate Versioned(a: Access) {
    && (forall key :: key in a.entitlements ==> Newest(a, key))
    && (forall id :: id in a.changes ==> Counted(a, a.changes[id].snapshot))
    && (forall i, j :: i in a.changes && j in a.changes && i != j ==> SeparateVersions(a.changes[i].snapshot, a.changes[j].snapshot))
  }

  predicate SeparateVersions(e: Entitlement, f: Entitlement) {
    e.terms.tenant == f.terms.tenant && e.terms.user == f.terms.user ==> e.version != f.version
  }

  ghost predicate Newest(a: Access, key: (string, string)) {
    && key in a.entitlements
    && (a.entitlements[key].terms.tenant, a.entitlements[key].terms.user) == key
    && a.entitlements[key].version == |ChangesOf(a, key)|
    && exists id :: id in a.changes && a.changes[id].snapshot == a.entitlements[key]
  }

  predicate GrantsBound(a: Access) {
    forall id :: id in a.grants ==>
      var g := a.grants[id];
      && g.subscription in a.bindings
      && g.tenant == a.bindings[g.subscription].tenant && g.user == a.bindings[g.subscription].user
      && g.plan == a.bindings[g.subscription].plan && g.from < g.until <= g.from + MAX_GRANT
  }

  lemma EntitleVersioned(a: Access, digest: Terms -> string, id: string, terms: Terms)
    requires Versioned(a)
    ensures Versioned(Entitle(a, digest, id, terms).0)
  {
    if id !in a.changes {
      var a' := Entitle(a, digest, id, terms).0;
      RowsOn(a, digest, id, terms);
      forall k | k in a'.entitlements ensures Newest(a', k) {
        if k == (terms.tenant, terms.user) {
          NewestChanged(a, digest, id, terms);
        } else {
          NewestUntouched(a, digest, id, terms, k);
        }
      }
      hide Newest, Entitle, SeparateVersions;
    }
  }

  predicate Counted(a: Access, e: Entitlement) {
    (e.terms.tenant, e.terms.user) in a.entitlements && 1 <= e.version <= a.entitlements[(e.terms.tenant, e.terms.user)].version
  }

  lemma RowsOn(a: Access, digest: Terms -> string, id: string, terms: Terms)
    requires Versioned(a) && id !in a.changes
    ensures var a' := Entitle(a, digest, id, terms).0;
            && (forall i :: i in a'.changes ==> Counted(a', a'.changes[i].snapshot))
            && (forall i, j :: i in a'.changes && j in a'.changes && i != j ==> SeparateVersions(a'.changes[i].snapshot, a'.changes[j].snapshot))
  {
    hide Newest;
    var a' := Entitle(a, digest, id, terms).0;
    forall i | i in a'.changes && i != id
      ensures Counted(a', a'.changes[i].snapshot) && SeparateVersions(a'.changes[i].snapshot, a'.changes[id].snapshot)
    {
      assert Counted(a, a.changes[i].snapshot);
    }
  }

  lemma NewestChanged(a: Access, digest: Terms -> string, id: string, terms: Terms)
    requires Versioned(a) && id !in a.changes
    ensures Newest(Entitle(a, digest, id, terms).0, (terms.tenant, terms.user))
  {
    hide SeparateVersions;
    var a', k := Entitle(a, digest, id, terms).0, (terms.tenant, terms.user);
    assert ChangesOf(a', k) == ChangesOf(a, k) + {id};
    if k in a.entitlements {
      assert Newest(a, k);
    } else {
      forall i | i in a.changes ensures i !in ChangesOf(a, k) { assert Counted(a, a.changes[i].snapshot); }
      assert ChangesOf(a, k) == {};
    }
    assert a'.changes[id].snapshot == a'.entitlements[k];
  }

  lemma NewestUntouched(a: Access, digest: Terms -> string, id: string, terms: Terms, k: (string, string))
    requires Newest(a, k) && id !in a.changes && k != (terms.tenant, terms.user)
    ensures Newest(Entitle(a, digest, id, terms).0, k)
  {
    var a' := Entitle(a, digest, id, terms).0;
    assert ChangesOf(a', k) == ChangesOf(a, k);
    var j :| j in a.changes && a.changes[j].snapshot == a.entitlements[k];
    assert a'.changes[j].snapshot == a'.entitlements[k];
  }

  lemma DoGrantsBound(d: Digests, a: Access, op: Op)
    requires GrantsBound(a)
    ensures GrantsBound(Do(d, a, op))
  {
    hide StateFor;
  }

  lemma DoVersioned(d: Digests, a: Access, op: Op)
    requires Versioned(a)
    ensures Versioned(Do(d, a, op))
  {
    hide StateFor, Versioned;
    if op.DoEntitle? {
      EntitleVersioned(a, d.terms, op.id, op.terms);
    } else {
      VersionedSame(a, Do(d, a, op));
    }
  }

  /** On every run, entitlement versions are 1, 2, 3, ... per account, and every grant carries its binding's account. */
  lemma {:induction false} RunsStayVersioned(d: Digests, ops: seq<Op>)
    ensures Versioned(Perform(d, BLANK, ops)) && GrantsBound(Perform(d, BLANK, ops))
  {
    hide Do;
    if ops != [] {
      RunsStayVersioned(d, ops[..|ops| - 1]);
      var m, op := Perform(d, BLANK, ops[..|ops| - 1]), ops[|ops| - 1];
      DoGrantsBound(d, m, op);
      DoVersioned(d, m, op);
      hide GrantsBound, Versioned;
    }
  }

  lemma VersionedSame(a: Access, a': Access)
    requires Versioned(a) && a'.changes == a.changes && a'.entitlements == a.entitlements
    ensures Versioned(a')
  {
    forall k | k in a'.entitlements ensures Newest(a', k) {
      assert Newest(a, k);
      assert ChangesOf(a', k) == ChangesOf(a, k);
    }
  }

  /** Access is granted exactly on the newest change of the account. */
  lemma AccessFollowsNewestChange(d: Digests, ops: seq<Op>, tenant: string, user: string, now: int, paid: bool)
    ensures var a := Perform(d, BLANK, ops);
            RequireAccess(a, tenant, user, now, paid).Ok? <==>
            exists id :: id in ChangesOf(a, (tenant, user)) && a.changes[id].snapshot.version == |ChangesOf(a, (tenant, user))|
              && var t := a.changes[id].snapshot.terms;
                 t.state == Active && (t.until.Some? ==> now < t.until.value) && (paid ==> t.paid)
  {
    RunsStayVersioned(d, ops);
    var a, key := Perform(d, BLANK, ops), (tenant, user);
    hide Perform;
    if key in a.entitlements {
      assert Newest(a, key);
      var id :| id in a.changes && a.changes[id].snapshot == a.entitlements[key];
      forall j | j in ChangesOf(a, key) && a.changes[j].snapshot.version == |ChangesOf(a, key)| ensures j == id {
        assert j != id ==> SeparateVersions(a.changes[j].snapshot, a.changes[id].snapshot);
      }
      assert id in ChangesOf(a, key);
    } else {
      forall i | i in a.changes ensures i !in ChangesOf(a, key) { assert Counted(a, a.changes[i].snapshot); }
      assert ChangesOf(a, key) == {};
    }
  }
}
