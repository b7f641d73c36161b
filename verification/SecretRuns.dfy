/** Whole runs of the secret store: reveal yields the latest plaintext, versions only age, the audit list rebuilds them. */
module SecretRuns {
  import opened Prelude
  import opened SecretContext
  import opened Secrets

  datatype Op =
    | DoPut(id: string, tenant: string, plain: Bytes, key: string, now: int, rotate: int, dataKey: Bytes, nonce: int)
    | DoReveal(id: string, tenant: string, now: int)
    | DoRevoke(id: string, tenant: string, now: int)
    | DoDestroy(id: string, tenant: string, now: int)

  function Do(c: Crypto, v: Vault, op: Op): Vault {
    match op
    case DoPut(id, tenant, plain, key, now, rotate, dataKey, nonce) => Put(c, v, id, tenant, plain, key, now, rotate, dataKey, nonce).0
    case DoReveal(id, tenant, now) => RevealSecret(c, v, id, tenant, now).0
    case DoRevoke(id, tenant, now) => RevokeSecret(v, id, tenant, now).0
    case DoDestroy(id, tenant, now) => DestroySecret(v, id, tenant, now).0
  }

  function Perform(c: Crypto, ops: seq<Op>): Vault {
    if ops == [] then EMPTY else Do(c, Perform(c, ops[..|ops| - 1]), ops[|ops| - 1])
  }

  /** The plaintexts that were put under an id, in order; the store keeps none of them. */
  function Plaintexts(c: Crypto, ops: seq<Op>, id: string): seq<Bytes> {
    if ops == [] then []
    else
      var init, op := ops[..|ops| - 1], ops[|ops| - 1];
      var before := Plaintexts(c, init, id);
      if op.DoPut? && op.id == id
         && Put(c, Perform(c, init), op.id, op.tenant, op.plain, op.key, op.now, op.rotate, op.dataKey, op.nonce).1.Ok? then
        before + [op.plain]
      else before
  }

  // ----- versions -----

  /** Version `i + 1` of a secret: its numbers, its owner, and a ciphertext that is there until it is destroyed. */
  predicate RecordOk(id: string, tenant: string, i: nat, r: Record) {
    && r.secret == id && r.tenant == tenant && r.version == i + 1 && r.created < r.rotate
    && (r.status == Active <==> r.revokedAt.None?) && (r.status == Destroyed <==> r.destroyedAt.Some?)
    && (r.status == Destroyed ==> r.ciphertext == [] && r.wrapped == [])
  }

  predicate VersionsOk(id: string, versions: seq<Record>) {
    versions != [] && forall i :: 0 <= i < |versions| ==> RecordOk(id, versions[0].tenant, i, versions[i])
  }

  predicate VaultOk(v: Vault) {
    forall id :: id in v.records ==> VersionsOk(id, v.records[id])
  }

  /** One step of a version: it stays, or goes from ACTIVE to REVOKED, or from REVOKED to DESTROYED. */
  predicate Ages(r: Record, r': Record) {
    || r' == r
    || (r.status == Active && r'.revokedAt.Some? && r' == r.(status := Revoked, revokedAt := r'.revokedAt))
    || (r.status == Revoked && r'.destroyedAt.Some? &&
        r' == r.(ciphertext := [], wrapped := [], status := Destroyed, destroyedAt := r'.destroyedAt))
  }

  /** No version disappears, and all but the newest stay exactly as they are. */
  ghost predicate VersionsAge(before: seq<Record>, after: seq<Record>) {
    && |before| <= |after| <= |before| + 1
    && (forall i :: 0 <= i < |before| ==> Ages(before[i], after[i]))
    && (forall i :: 0 <= i < |before| - 1 ==> after[i] == before[i])
    && (|after| > |before| ==> after[..|before|] == before)
  }

  lemma OpAges(c: Crypto, v: Vault, op: Op, id: string)
    ensures VersionsAge(v.Versions(id), Do(c, v, op).Versions(id))
    ensures op.id != id ==> Do(c, v, op).Versions(id) == v.Versions(id)
  {
    hide Context;
  }

  lemma OpKeepsVersions(c: Crypto, v: Vault, op: Op)
    requires VaultOk(v)
    ensures VaultOk(Do(c, v, op))
  {
    hide Context;
    var v' := Do(c, v, op);
    assert op.id in v.records ==> VersionsOk(op.id, v.records[op.id]);
  }

  /** Versions are 1 to n under one tenant, on every run. */
  lemma {:induction false} RunsKeepVersions(c: Crypto, ops: seq<Op>)
    ensures VaultOk(Perform(c, ops))
  {
    hide Do;
    if ops != [] {
      RunsKeepVersions(c, ops[..|ops| - 1]);
      OpKeepsVersions(c, Perform(c, ops[..|ops| - 1]), ops[|ops| - 1]);
    }
  }

  // ----- secrecy undone only by reveal -----

  /** Every version that is not destroyed still decrypts to what was put. */
  predicate Decrypts(c: Crypto, versions: seq<Record>, plain: seq<Bytes>) {
    && |versions| == |plain|
    && forall i :: 0 <= i < |versions| && versions[i].status != Destroyed ==> Decrypted(c, versions[i]) == plain[i]
  }

  lemma PutDecrypts(c: Crypto, v: Vault, op: Op)
    requires Lawful(c) && op.DoPut?
    requires Put(c, v, op.id, op.tenant, op.plain, op.key, op.now, op.rotate, op.dataKey, op.nonce).1.Ok?
    ensures var versions := Do(c, v, op).Versions(op.id);
            && versions == v.Versions(op.id) + [versions[|versions| - 1]]
            && Decrypted(c, versions[|versions| - 1]) == op.plain
  {
    hide Context;
    var context := Context(op.id, op.tenant, |v.Versions(op.id)| + 1);
    assert c.unwrap(op.key, c.wrap(op.nonce, op.key, op.dataKey, context), context) == op.dataKey;
  }

  lemma AgedDecrypts(c: Crypto, before: seq<Record>, after: seq<Record>, plain: seq<Bytes>)
    requires Decrypts(c, before, plain) && VersionsAge(before, after) && |after| == |before|
    ensures Decrypts(c, after, plain)
  {
    hide Context;
    forall i | 0 <= i < |after| && after[i].status != Destroyed ensures Decrypted(c, after[i]) == plain[i] {
      assert Ages(before[i], after[i]);
      assert Decrypted(c, after[i]) == Decrypted(c, before[i]);
    }
  }

  lemma {:induction false} RunsDecrypt(c: Crypto, ops: seq<Op>, id: string)
    requires Lawful(c)
    ensures Decrypts(c, Perform(c, ops).Versions(id), Plaintexts(c, ops, id))
  {
    if ops != [] {
      var init, op := ops[..|ops| - 1], ops[|ops| - 1];
      var v := Perform(c, init);
      RunsDecrypt(c, init, id);
      OpAges(c, v, op, id);
      if op.DoPut? && Put(c, v, op.id, op.tenant, op.plain, op.key, op.now, op.rotate, op.dataKey, op.nonce).1.Ok? {
        PutDecrypts(c, v, op);
        hide Put, Do, Decrypted, Lawful, Ages;
      } else {
        SameCount(c, v, op, id);
        AgedDecrypts(c, v.Versions(id), Do(c, v, op).Versions(id), Plaintexts(c, init, id));
        hide Put, Do, Decrypted, Lawful, Ages;
      }
    }
  }

  lemma SameCount(c: Crypto, v: Vault, op: Op, id: string)
    requires op.DoPut? ==> Put(c, v, op.id, op.tenant, op.plain, op.key, op.now, op.rotate, op.dataKey, op.nonce).1.Err?
    ensures |Do(c, v, op).Versions(id)| == |v.Versions(id)|
  {
    hide Context;
  }

  /** Exactly when a secret reveals, on any run, and that it is the plaintext of the latest put. */
  lemma {:induction false} RevealsLatest(c: Crypto, ops: seq<Op>, id: string, tenant: string, now: int)
    requires Lawful(c)
    ensures var v, plain := Perform(c, ops), Plaintexts(c, ops, id);
            var versions, r := v.Versions(id), RevealSecret(c, v, id, tenant, now).1;
            && |versions| == |plain|
            && (r.Ok? <==> versions != [] && versions[0].tenant == tenant && versions[|versions| - 1].status == Active
                           && now < versions[|versions| - 1].rotate)
            && (r.Ok? ==> r.value == plain[|plain| - 1])
  {
    RunsDecrypt(c, ops, id);
    RunsKeepVersions(c, ops);
    var v := Perform(c, ops);
    hide Perform, Plaintexts, Lawful, Decrypted;
    if v.Versions(id) != [] {
      assert VersionsOk(id, v.Versions(id));
      assert RecordOk(id, v.Versions(id)[0].tenant, |v.Versions(id)| - 1, v.Versions(id)[|v.Versions(id)| - 1]);
    }
  }

  /** A secret that was never put by a tenant is never revealed to it. */
  lemma {:induction false} OtherTenantsSeeNothing(c: Crypto, ops: seq<Op>, id: string, tenant: string, now: int)
    requires Lawful(c)
    requires Perform(c, ops).Versions(id) == [] || Perform(c, ops).Versions(id)[0].tenant != tenant
    ensures RevealSecret(c, Perform(c, ops), id, tenant, now).1.Err?
    ensures RevokeSecret(Perform(c, ops), id, tenant, now) == (Perform(c, ops), Some(NotFound))
    ensures DestroySecret(Perform(c, ops), id, tenant, now) == (Perform(c, ops), Some(NotFound))
  {
    RunsKeepVersions(c, ops);
    var v := Perform(c, ops);
    hide Perform, Lawful;
    if v.Versions(id) != [] {
      assert VersionsOk(id, v.Versions(id));
      assert RecordOk(id, v.Versions(id)[0].tenant, |v.Versions(id)| - 1, v.Versions(id)[|v.Versions(id)| - 1]);
    }
  }

  // ----- the audit list -----

  /** The statuses of one secret's versions, read off the audit list alone. */
  function Replay(audit: seq<Audit>, id: string): seq<Status> {
    if audit == [] then []
    else
      var before, e := Replay(audit[..|audit| - 1], id), audit[|audit| - 1];
      if e.secret != id then before
      else
        match e.operation
        case Create => before + [Active]
        case Rotate => before + [Active]
        case Reveal => before
        case Revoke => if 1 <= e.version <= |before| then before[e.version - 1 := Revoked] else before
        case Destroy => if 1 <= e.version <= |before| then before[e.version - 1 := Destroyed] else before
  }

  function Statuses(versions: seq<Record>): (s: seq<Status>)
    ensures |s| == |versions| && forall i :: 0 <= i < |s| ==> s[i] == versions[i].status
  {
    if versions == [] then [] else Statuses(versions[..|versions| - 1]) + [versions[|versions| - 1].status]
  }

  lemma ReplayOne(audit: seq<Audit>, e: Audit, id: string)
    ensures Replay(audit + [e], id) ==
            (var before := Replay(audit, id);
             if e.secret != id then before
             else
               match e.operation
               case Create => before + [Active]
               case Rotate => before + [Active]
               case Reveal => before
               case Revoke => if 1 <= e.version <= |before| then before[e.version - 1 := Revoked] else before
               case Destroy => if 1 <= e.version <= |before| then before[e.version - 1 := Destroyed] else before)
  {
    assert (audit + [e])[..|audit|] == audit;
  }

  /** What the audit row `e` says happened to the versions of its secret. */
  predicate Tells(e: Audit, before: seq<Record>, after: seq<Record>) {
    match e.operation
    case Create => |after| == |before| + 1 && after == before + [after[|before|]] && after[|before|].status == Active
    case Rotate => |after| == |before| + 1 && after == before + [after[|before|]] && after[|before|].status == Active
    case Reveal => after == before
    case Revoke => Replaces(e, before, after, Revoked)
    case Destroy => Replaces(e, before, after, Destroyed)
  }

  predicate Replaces(e: Audit, before: seq<Record>, after: seq<Record>, status: Status) {
    && |after| == |before| > 0 && e.version == |before|
    && after == before[|before| - 1 := after[|before| - 1]] && after[|before| - 1].status == status
  }

  lemma OpTells(c: Crypto, v: Vault, op: Op)
    requires VaultOk(v)
    ensures var v' := Do(c, v, op);
            || v' == v
            || (|v'.audit| == |v.audit| + 1 && v'.audit == v.audit + [v'.audit[|v.audit|]]
                && v'.audit[|v.audit|].secret == op.id && Tells(v'.audit[|v.audit|], v.Versions(op.id), v'.Versions(op.id)))
  {
    hide Context;
    if op.id in v.records {
      assert VersionsOk(op.id, v.records[op.id]);
      var versions := v.records[op.id];
      assert RecordOk(op.id, versions[0].tenant, |versions| - 1, versions[|versions| - 1]);
    }
  }

  lemma ReplayTells(audit: seq<Audit>, e: Audit, before: seq<Record>, after: seq<Record>)
    requires Replay(audit, e.secret) == Statuses(before) && Tells(e, before, after)
    ensures Replay(audit + [e], e.secret) == Statuses(after)
  {
    ReplayOne(audit, e, e.secret);
    hide Replay;
    assert Replay(audit + [e], e.secret) == Statuses(after);
  }

  lemma OpReplays(c: Crypto, v: Vault, op: Op, id: string)
    requires VaultOk(v) && Replay(v.audit, id) == Statuses(v.Versions(id))
    ensures var v' := Do(c, v, op); Replay(v'.audit, id) == Statuses(v'.Versions(id))
  {
    var v' := Do(c, v, op);
    OpTells(c, v, op);
    OpAges(c, v, op, id);
    if v' != v {
      var e := v'.audit[|v.audit|];
      if id == op.id {
        ReplayTells(v.audit, e, v.Versions(id), v'.Versions(id));
      } else {
        ReplayOne(v.audit, e, id);
      }
    }
    hide Do, Replay, Statuses, Tells, VersionsAge, VaultOk;
  }

  /** On every run, replaying the audit list rebuilds the status of every version of every secret. */
  lemma {:induction false} AuditRebuildsStatuses(c: Crypto, ops: seq<Op>, id: string)
    ensures Replay(Perform(c, ops).audit, id) == Statuses(Perform(c, ops).Versions(id))
  {
    hide Do;
    if ops != [] {
      AuditRebuildsStatuses(c, ops[..|ops| - 1], id);
      RunsKeepVersions(c, ops[..|ops| - 1]);
      OpReplays(c, Perform(c, ops[..|ops| - 1]), ops[|ops| - 1], id);
    }
  }

  // ----- each operation, exactly -----

  /** The tenant owns the secret, and its newest version has this status. */
  predicate NewestIs(v: Vault, id: string, tenant: string, status: Status) {
    && id in v.records && v.records[id] != []
    && v.records[id][|v.records[id]| - 1].tenant == tenant && v.records[id][|v.records[id]| - 1].status == status
  }

  /** The newest version of one secret is replaced, one audit row is added, and nothing else changes. */
  predicate NewestBecomes(v: Vault, v': Vault, id: string, r: Record, operation: Operation, now: int) {
    && id in v.records && v.records[id] != []
    && v' == Vault(v.records[id := v.records[id][|v.records[id]| - 1 := r]],
                   v.audit + [Audit(operation, r.secret, r.tenant, r.version, r.key, now)])
  }

  /** A put succeeds exactly with all texts given, a period within bounds and no foreign owner, and appends one active version. */
  lemma PutsExactly(
    c: Crypto, v: Vault, id: string, tenant: string, plain: Bytes, key: string, now: int, rotate: int, dataKey: Bytes, nonce: int)
    ensures var (v', r) := Put(c, v, id, tenant, plain, key, now, rotate, dataKey, nonce);
            var n := |v.Versions(id)|;
            && (r.Ok? <==>
                  && id != "" && tenant != "" && plain != [] && key != "" && now < rotate <= now + c.maximum
                  && (n > 0 ==> v.records[id][n - 1].tenant == tenant))
            && (r.Ok? ==>
                  && r.value.(ciphertext := [], wrapped := []) == Record(id, tenant, n + 1, key, [], [], now, rotate, Active, None, None)
                  && v' == Vault(v.records[id := v.Versions(id) + [r.value]],
                                 v.audit + [Audit(if n == 0 then Create else Rotate, id, tenant, n + 1, key, now)]))
            && (r.Err? ==> v' == v)
  {
    hide Context;
  }

  /** A revocation succeeds exactly on the owner's active newest version, and marks it with the time. */
  lemma RevokesExactly(v: Vault, id: string, tenant: string, now: int)
    ensures var (v', refusal) := RevokeSecret(v, id, tenant, now);
            && (refusal.None? <==> NewestIs(v, id, tenant, Active))
            && (refusal.None? ==>
                  NewestBecomes(v, v', id, v.records[id][|v.records[id]| - 1].(status := Revoked, revokedAt := Some(now)), Revoke, now))
            && (refusal.Some? ==> v' == v)
  {
  }

  /** A destruction succeeds exactly on the owner's revoked newest version, and drops its ciphertext and wrapped key. */
  lemma DestroysExactly(v: Vault, id: string, tenant: string, now: int)
    ensures var (v', refusal) := DestroySecret(v, id, tenant, now);
            && (refusal.None? <==> NewestIs(v, id, tenant, Revoked))
            && (refusal.None? ==>
                  NewestBecomes(v, v', id,
                    v.records[id][|v.records[id]| - 1].(ciphertext := [], wrapped := [], status := Destroyed, destroyedAt := Some(now)),
                    Destroy, now))
            && (refusal.Some? ==> v' == v)
  {
  }

  /** A reveal is recorded, and changes nothing else. */
  lemma RevealsOnlyAudit(c: Crypto, v: Vault, id: string, tenant: string, now: int)
    ensures var (v', r) := RevealSecret(c, v, id, tenant, now);
            && (r.Ok? ==>
                  && NewestIs(v, id, tenant, Active)
                  && var newest := v.records[id][|v.records[id]| - 1];
                     v' == v.(audit := v.audit + [Audit(Reveal, newest.secret, newest.tenant, newest.version, newest.key, now)]))
            && (r.Err? ==> v' == v)
  {
    hide Context, Decrypted;
  }

  /** So a secret just revoked is refused to its owner at any time. */
  lemma RevokedIsRefused(c: Crypto, v: Vault, id: string, tenant: string, now: int, later: int)
    requires RevokeSecret(v, id, tenant, now).1.None?
    ensures RevealSecret(c, RevokeSecret(v, id, tenant, now).0, id, tenant, later).1 == Err(NotActive)
  {
    hide Context, Decrypted;
  }
}
