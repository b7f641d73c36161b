/** Versioned secrets: the record lists and the audit list of the managed store, and what every run keeps of them. */
module Secrets {
  import opened Prelude
  import opened SecretContext

  type Bytes = seq<int>

  datatype SecretError = Incomplete | Cryptoperiod | OtherTenant | NotFound | NotActive | PeriodExpired | NotRevoked

  /** The key provider and the cipher; `nonce` is whatever fresh randomness an operation draws. */
  datatype Crypto = Crypto(
    encrypt: (int, Bytes, Bytes, string) -> Bytes, decrypt: (Bytes, Bytes, string) -> Bytes,
    wrap: (int, string, Bytes, string) -> Bytes, unwrap: (string, Bytes, string) -> Bytes,
    maximum: int)

  /** All that is asked of them: under an equal context, decrypting and unwrapping undo encrypting and wrapping. */
  ghost predicate Lawful(c: Crypto) {
    && (forall nonce: int, p: Bytes, k: Bytes, x: string :: c.decrypt(c.encrypt(nonce, p, k, x), k, x) == p)
    && (forall nonce: int, r: string, k: Bytes, x: string :: c.unwrap(r, c.wrap(nonce, r, k, x), x) == k)
  }

  datatype Status = Active | Revoked | Destroyed

  /** `SecretRecord` with its `Envelope`. */
  datatype Record = Record(
    secret: string, tenant: string, version: nat, key: string, ciphertext: Bytes, wrapped: Bytes,
    created: int, rotate: int, status: Status, revokedAt: Option<int>, destroyedAt: Option<int>)

  datatype Operation = Create | Rotate | Reveal | Revoke | Destroy

  datatype Audit = Audit(operation: Operation, secret: string, tenant: string, version: nat, key: string, at: int)

  datatype Vault = Vault(records: map<string, seq<Record>>, audit: seq<Audit>) {
    function Versions(id: string): seq<Record> { if id in records then records[id] else [] }

    function Log(op: Operation, r: Record, at: int): Vault {
      this.(audit := audit + [Audit(op, r.secret, r.tenant, r.version, r.key, at)])
    }
  }

  const EMPTY := Vault(map[], [])

  /** `put`; the data key and the nonce are drawn by the cipher. */
  function Put(c: Crypto, v: Vault, id: string, tenant: string, plain: Bytes, key: string, now: int, rotate: int, dataKey: Bytes, nonce: int)
    : (Vault, Result<Record, SecretError>)
  {
    if id == "" || tenant == "" || plain == [] || key == "" then (v, Err(Incomplete))
    else if rotate <= now || rotate - now > c.maximum then (v, Err(Cryptoperiod))
    else
      var versions := v.Versions(id);
      if versions != [] && versions[|versions| - 1].tenant != tenant then (v, Err(OtherTenant))
      else
        var version := |versions| + 1;
        var context := Context(id, tenant, version);
        var record := Record(id, tenant, version, key, c.encrypt(nonce, plain, dataKey, context), c.wrap(nonce, key, dataKey, context),
                             now, rotate, Active, None, None);
        (v.(records := v.records[id := versions + [record]]).Log(if version == 1 then Create else Rotate, record, now), Ok(record))
  }

  /** The newest record, if the tenant owns the secret. */
  function Newest(v: Vault, id: string, tenant: string): Result<Record, SecretError> {
    var versions := v.Versions(id);
    if versions == [] || versions[|versions| - 1].tenant != tenant then Err(NotFound) else Ok(versions[|versions| - 1])
  }

  /** `_active`. */
  function ActiveRecord(v: Vault, id: string, tenant: string): Result<Record, SecretError> {
    var newest := Newest(v, id, tenant);
    if newest.Ok? && newest.value.status != Active then Err(NotActive) else newest
  }

  function RevealSecret(c: Crypto, v: Vault, id: string, tenant: string, now: int): (Vault, Result<Bytes, SecretError>) {
    var active := ActiveRecord(v, id, tenant);
    if active.Err? then (v, Err(active.error))
    else if now >= active.value.rotate then (v, Err(PeriodExpired))
    else (v.Log(Reveal, active.value, now), Ok(Decrypted(c, active.value)))
  }

  function Decrypted(c: Crypto, r: Record): Bytes {
    var context := Context(r.secret, r.tenant, r.version);
    c.decrypt(r.ciphertext, c.unwrap(r.key, r.wrapped, context), context)
  }

  function Replaced(v: Vault, id: string, r: Record): Vault
    requires v.Versions(id) != []
  {
    var versions := v.Versions(id);
    v.(records := v.records[id := versions[|versions| - 1 := r]])
  }

  function RevokeSecret(v: Vault, id: string, tenant: string, now: int): (Vault, Option<SecretError>) {
    var active := ActiveRecord(v, id, tenant);
    if active.Err? then (v, Some(active.error))
    else
      var updated := active.value.(status := Revoked, revokedAt := Some(now));
      (Replaced(v, id, updated).Log(Revoke, updated, now), None)
  }

  function DestroySecret(v: Vault, id: string, tenant: string, now: int): (Vault, Option<SecretError>) {
    var newest := Newest(v, id, tenant);
    if newest.Err? then (v, Some(newest.error))
    else if newest.value.status != Revoked then (v, Some(NotRevoked))
    else
      var updated := newest.value.(ciphertext := [], wrapped := [], status := Destroyed, destroyedAt := Some(now));
      (Replaced(v, id, updated).Log(Destroy, updated, now), None)
  }

  // ----- the store as an object -----

  class SecretStore {
    const crypto: Crypto
    var records: map<string, seq<Record>>
    var audit: seq<Audit>

    function State(): Vault
      reads this
    {
      Vault(records, audit)
    }

    constructor (crypto: Crypto)
      ensures this.crypto == crypto && State() == EMPTY
    {
      this.crypto := crypto;
      records, audit := map[], [];
    }

    method PutSecret(id: string, tenant: string, plain: Bytes, key: string, now: int, rotate: int, dataKey: Bytes, nonce: int)
      returns (result: Result<Record, SecretError>)
      modifies this
      ensures (State(), result) == Put(crypto, old(State()), id, tenant, plain, key, now, rotate, dataKey, nonce)
    {
      hide Context;
      if id == "" || tenant == "" || plain == [] || key == "" {
        return Err(Incomplete);
      }
      if rotate <= now || rotate - now > crypto.maximum {
        return Err(Cryptoperiod);
      }
      var versions := if id in records then records[id] else [];
      if versions != [] && versions[|versions| - 1].tenant != tenant {
        return Err(OtherTenant);
      }
      var version := |versions| + 1;
      var context := Context(id, tenant, version);
      var record := Record(id, tenant, version, key, crypto.encrypt(nonce, plain, dataKey, context),
                           crypto.wrap(nonce, key, dataKey, context), now, rotate, Active, None, None);
      records := records[id := versions + [record]];
      audit := audit + [Audit(if version == 1 then Create else Rotate, id, tenant, version, key, now)];
      return Ok(record);
    }

    method RevealLatest(id: string, tenant: string, now: int) returns (result: Result<Bytes, SecretError>)
      modifies this`audit
      ensures (State(), result) == RevealSecret(crypto, old(State()), id, tenant, now)
    {
      hide Context;
      var active := ActiveRecord(State(), id, tenant);
      if active.Err? {
        return Err(active.error);
      }
      var r := active.value;
      if now >= r.rotate {
        return Err(PeriodExpired);
      }
      var context := Context(r.secret, r.tenant, r.version);
      var key := crypto.unwrap(r.key, r.wrapped, context);
      var plain := crypto.decrypt(r.ciphertext, key, context);
      audit := audit + [Audit(Reveal, r.secret, r.tenant, r.version, r.key, now)];
      return Ok(plain);
    }

    method RevokeLatest(id: string, tenant: string, now: int) returns (error: Option<SecretError>)
      modifies this
      ensures (State(), error) == RevokeSecret(old(State()), id, tenant, now)
    {
      var active := ActiveRecord(State(), id, tenant);
      if active.Err? {
        return Some(active.error);
      }
      var updated := active.value.(status := Revoked, revokedAt := Some(now));
      records := records[id := records[id][|records[id]| - 1 := updated]];
      audit := audit + [Audit(Revoke, updated.secret, updated.tenant, updated.version, updated.key, now)];
      return None;
    }

    method DestroyLatest(id: string, tenant: string, now: int) returns (error: Option<SecretError>)
      modifies this
      ensures (State(), error) == DestroySecret(old(State()), id, tenant, now)
    {
      var newest := Newest(State(), id, tenant);
      if newest.Err? {
        return Some(newest.error);
      }
      if newest.value.status != Revoked {
        return Some(NotRevoked);
      }
      var updated := newest.value.(ciphertext := [], wrapped := [], status := Destroyed, destroyedAt := Some(now));
      records := records[id := records[id][|records[id]| - 1 := updated]];
      audit := audit + [Audit(Destroy, updated.secret, updated.tenant, updated.version, updated.key, now)];
      return None;
    }
  }
}
