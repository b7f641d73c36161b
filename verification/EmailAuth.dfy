/** Email sign-in challenges: how often they may be issued, and that each is used once. */
module EmailAuth {
  import opened Prelude
  import opened Text
  import opened IdentityKeys

  datatype EmailError = InvalidEmail | RateLimited | Collision | InvalidId | InvalidSecret | Refused

  /** `EmailChallenge`. */
  datatype Challenge = Challenge(email: string, digest: string, issued: int, expires: int, consumed: Option<int>)

  type Challenges = map<string, Challenge>

  datatype PolicyRecord = PolicyRecord(ttl: int, window: int, maximum: nat) {
    predicate Valid() { 0 < ttl <= 1800 && window > 0 && 1 <= maximum <= 20 }
  }

  type Policy = p: PolicyRecord | p.Valid() witness PolicyRecord(600, 900, 5)

  /** What the service is built on: its policy, `str.casefold` and SHA-256. */
  datatype Env = Env(policy: Policy, fold: string -> string, digest: string -> string)

  function Count(s: string, c: char): nat {
    if s == "" then 0 else (if s[0] == c then 1 else 0) + Count(s[1..], c)
  }

  /** `_normalize_email`. */
  function NormalizeEmail(fold: string -> string, value: string): Option<string> {
    var s := fold(Strip(value));
    var at := Text.IndexOf(s, '@');
    if s == "" || |s| > 254 || Count(s, '@') != 1 then None
    else if at <= 0 || s[at + 1..] == "" || '.' !in s[at + 1..] then None
    else if exists i :: 0 <= i < |s| && IsSpace(s[i]) then None
    else Some(s)
  }

  /** `recent_issue_count`. */
  function Recent(c: Challenges, email: string, since: int): set<string> {
    set id | id in c && c[id].email == email && c[id].issued >= since
  }

  /** `issue`; the id and the secret come from the generator. */
  function Issue(env: Env, c: Challenges, email: string, now: int, id: string, secret: string): (Challenges, Result<string, EmailError>) {
    var normalized := NormalizeEmail(env.fold, email);
    if normalized.None? then (c, Err(InvalidEmail))
    else if |Recent(c, normalized.value, now - env.policy.window)| >= env.policy.maximum then (c, Err(RateLimited))
    else if id in c then (c, Err(Collision))
    else
      (c[id := Challenge(normalized.value, env.digest(secret), now, now + env.policy.ttl, None)], Ok(normalized.value))
  }

  /** `consume`. */
  predicate Consumable(c: Challenges, id: string, email: string, digest: string, now: int) {
    id in c && c[id].consumed.None? && c[id].email == email && now < c[id].expires && c[id].digest == digest
  }

  predicate PlausibleId(id: string) { |id| >= 20 && id[..4] == "emc_" }

  predicate PlausibleSecret(secret: string) { 32 <= |secret| <= 256 }

  /** `verify`: on success the sign-in identity of that email. */
  function Verify(env: Env, c: Challenges, idText: string, email: string, secretText: string, now: int)
    : (Challenges, Result<Identity, EmailError>)
  {
    var normalized := NormalizeEmail(env.fold, email);
    var id, secret := Strip(idText), Strip(secretText);
    if normalized.None? then (c, Err(InvalidEmail))
    else if !PlausibleId(id) then (c, Err(InvalidId))
    else if !PlausibleSecret(secret) then (c, Err(InvalidSecret))
    else if !Consumable(c, id, normalized.value, env.digest(secret), now) then (c, Err(Refused))
    else
      (c[id := c[id].(consumed := Some(now))],
       Ok(Identity(Email, normalized.value, Some(normalized.value), true, None)))
  }

  // ----- runs -----

  datatype Op =
    | DoIssue(email: string, now: int, id: string, secret: string)
    | DoVerify(id: string, email: string, secret: string, now: int)

  function Do(env: Env, c: Challenges, op: Op): Challenges {
    match op
    case DoIssue(email, now, id, secret) => Issue(env, c, email, now, id, secret).0
    case DoVerify(id, email, secret, now) => Verify(env, c, id, email, secret, now).0
  }

  function Perform(env: Env, ops: seq<Op>): Challenges {
    if ops == [] then map[] else Do(env, Perform(env, ops[..|ops| - 1]), ops[|ops| - 1])
  }

  /** The challenges of one email issued in the closed interval of one window length from `from`. */
  function InWindow(c: Challenges, email: string, from: int, window: int): set<string> {
    set id | id in c && c[id].email == email && from <= c[id].issued <= from + window
  }

  ghost predicate Limited(p: Policy, c: Challenges) {
    forall email, from: int :: |InWindow(c, email, from, p.window)| <= p.maximum
  }

  lemma IssueLimited(env: Env, c: Challenges, email: string, now: int, id: string, secret: string)
    requires Limited(env.policy, c)
    ensures Limited(env.policy, Issue(env, c, email, now, id, secret).0)
  {
    hide NormalizeEmail;
    var (c', issued) := Issue(env, c, email, now, id, secret);
    if issued.Ok? {
      forall mail, from: int ensures |InWindow(c', mail, from, env.policy.window)| <= env.policy.maximum {
        assert |InWindow(c, mail, from, env.policy.window)| <= env.policy.maximum;
        OneMore(c, id, c'[id], mail, from, env.policy);
      }
    }
  }

  lemma OneMore(c: Challenges, id: string, added: Challenge, email: string, from: int, p: Policy)
    requires id !in c && |InWindow(c, email, from, p.window)| <= p.maximum
    requires |Recent(c, added.email, added.issued - p.window)| < p.maximum
    ensures |InWindow(c[id := added], email, from, p.window)| <= p.maximum
  {
    var before, after := InWindow(c, email, from, p.window), InWindow(c[id := added], email, from, p.window);
    if email == added.email && from <= added.issued <= from + p.window {
      assert after == before + {id};
      SubsetSize(before, Recent(c, email, added.issued - p.window));
    } else {
      assert after == before;
    }
  }

  lemma VerifyLimited(env: Env, c: Challenges, id: string, email: string, secret: string, now: int)
    requires Limited(env.policy, c)
    ensures Limited(env.policy, Verify(env, c, id, email, secret, now).0)
  {
    hide NormalizeEmail, Strip;
    var c' := Verify(env, c, id, email, secret, now).0;
    forall mail, from: int ensures |InWindow(c', mail, from, env.policy.window)| <= env.policy.maximum {
      assert InWindow(c', mail, from, env.policy.window) == InWindow(c, mail, from, env.policy.window);
    }
  }

  /** Under any clock, running forwards or backwards, no closed window holds more challenges of an email than allowed. */
  lemma {:induction false} WindowsAreLimited(env: Env, ops: seq<Op>)
    ensures Limited(env.policy, Perform(env, ops))
  {
    if ops != [] {
      var c := Perform(env, ops[..|ops| - 1]);
      WindowsAreLimited(env, ops[..|ops| - 1]);
      match ops[|ops| - 1] {
        case DoIssue(email, now, id, secret) => IssueLimited(env, c, email, now, id, secret);
        case DoVerify(id, email, secret, now) => VerifyLimited(env, c, id, email, secret, now);
      }
      hide Issue, Verify, Limited;
    } else {
      forall email, from: int ensures |InWindow(map[], email, from, env.policy.window)| <= env.policy.maximum {
        assert InWindow(map[], email, from, env.policy.window) == {};
      }
    }
  }

  // ----- single use -----

  /** Challenges are never removed or rewritten, and consumption is final. */
  predicate Keeps(c: Challenges, c': Challenges) {
    forall id :: id in c ==>
      && id in c'
      && (c'[id] == c[id] || (c[id].consumed.None? && c'[id] == c[id].(consumed := c'[id].consumed)))
  }

  lemma DoKeeps(env: Env, c: Challenges, op: Op)
    ensures Keeps(c, Do(env, c, op))
  {
    hide NormalizeEmail, Strip;
  }

  function PerformOn(env: Env, c: Challenges, ops: seq<Op>): Challenges {
    if ops == [] then c else Do(env, PerformOn(env, c, ops[..|ops| - 1]), ops[|ops| - 1])
  }

  lemma {:induction false} RunKeeps(env: Env, c: Challenges, ops: seq<Op>)
    ensures Keeps(c, PerformOn(env, c, ops))
  {
    hide Do;
    if ops != [] {
      RunKeeps(env, c, ops[..|ops| - 1]);
      DoKeeps(env, PerformOn(env, c, ops[..|ops| - 1]), ops[|ops| - 1]);
    }
  }

  /** Exactly when a challenge verifies, and what that proves: its own email, in time, and never used before. */
  lemma VerifiesExactly(env: Env, c: Challenges, idText: string, email: string, secretText: string, now: int)
    ensures var r, id := Verify(env, c, idText, email, secretText, now), Strip(idText);
            && (r.1.Ok? <==>
                 && |id| >= 20 && "emc_" <= id && 32 <= |Strip(secretText)| <= 256 && id in c
                 && NormalizeEmail(env.fold, email) == Some(c[id].email)
                 && c[id].consumed.None? && now < c[id].expires && env.digest(Strip(secretText)) == c[id].digest)
            && (r.1.Ok? ==> r.1.value.email == Some(c[id].email) && id in r.0 && r.0[id].consumed == Some(now))
            && (r.1.Err? ==> r.0 == c)
  {
    hide NormalizeEmail, Strip;
  }

  /** A challenge that verified never verifies again, whatever happens in between and whoever presents it. */
  lemma {:induction false} UsedOnce(env: Env, c: Challenges, idText: string, email: string, secret: string, now: int, more: seq<Op>,
                 idAgain: string, emailAgain: string, secretAgain: string, later: int)
    requires Verify(env, c, idText, email, secret, now).1.Ok? && Strip(idAgain) == Strip(idText)
    ensures var c' := PerformOn(env, Verify(env, c, idText, email, secret, now).0, more);
            Verify(env, c', idAgain, emailAgain, secretAgain, later).1.Err?
  {
    var used := Verify(env, c, idText, email, secret, now).0;
    VerifiesExactly(env, c, idText, email, secret, now);
    RunKeeps(env, used, more);
    VerifiesExactly(env, PerformOn(env, used, more), idAgain, emailAgain, secretAgain, later);
    hide Verify, PerformOn, NormalizeEmail, Strip;
  }

  /** A text with exactly one at sign, around which it splits into a local part and a dotted domain, and without blanks. */
  ghost predicate Address(s: string) {
    && 0 < |s| <= 254 && (forall i :: 0 <= i < |s| ==> !IsSpace(s[i]))
    && exists at :: SplitsAt(s, at)
  }

  predicate SplitsAt(s: string, at: int) {
    0 < at < |s| - 1 && s[at] == '@' && '@' !in s[..at] && '@' !in s[at + 1..] && '.' in s[at + 1..]
  }

  lemma {:induction false} CountNone(s: string, c: char)
    ensures Count(s, c) == 0 <==> c !in s
  {
    if s != "" { CountNone(s[1..], c); }
  }

  lemma {:induction false} CountAt(s: string, c: char, at: nat)
    requires at < |s| && s[at] == c
    ensures Count(s, c) == Count(s[..at], c) + 1 + Count(s[at + 1..], c)
  {
    if at == 0 {
      assert s[..0] == "" && s[1..] == s[at + 1..];
    } else {
      assert s[..at][1..] == s[1..][..at - 1] && s[1..][at..] == s[at + 1..];
      CountAt(s[1..], c, at - 1);
    }
  }

  lemma {:induction false} FirstIndex(s: string, c: char)
    ensures var at := Text.IndexOf(s, c);
            if c in s then 0 <= at < |s| && s[at] == c && c !in s[..at] else at < 0
  {
    if s != "" {
      FirstIndex(s[1..], c);
      var at := Text.IndexOf(s, c);
      if at > 0 { assert s[..at] == [s[0]] + s[1..][..at - 1]; }
    }
  }

  /** Which texts are accepted as an address, and that folding and trimming is all that happens to them. */
  lemma NormalizesExactly(fold: string -> string, value: string)
    ensures NormalizeEmail(fold, value) == if Address(fold(Strip(value))) then Some(fold(Strip(value))) else None
  {
    var s := fold(Strip(value));
    var at := Text.IndexOf(s, '@');
    FirstIndex(s, '@');
    CountNone(s, '@');
    hide Strip, IsSpace;
    if '@' in s {
      CountAt(s, '@', at);
      CountNone(s[..at], '@');
      CountNone(s[at + 1..], '@');
      hide Count;
      if NormalizeEmail(fold, value).Some? { assert SplitsAt(s, at); }
      if exists i :: SplitsAt(s, i) {
        var i :| SplitsAt(s, i);
        OneAt(s, i, at);
      }
    } else {
      assert forall i :: !SplitsAt(s, i);
    }
  }

  lemma OneAt(s: string, i: int, at: nat)
    requires SplitsAt(s, i) && at < |s| && s[at] == '@' && '@' !in s[..at]
    ensures i == at
  {
    assert forall k :: 0 <= k < i ==> s[k] == s[..i][k];
    assert forall k :: 0 <= k < at ==> s[k] == s[..at][k];
  }

  /** A challenge is issued exactly for an acceptable address below its limit and under a new id, and one row is stored. */
  lemma IssuesExactly(env: Env, c: Challenges, email: string, now: int, id: string, secret: string)
    ensures var (c', r) := Issue(env, c, email, now, id, secret);
            var s := env.fold(Strip(email));
            && (r.Ok? <==>
                  && Address(s) && id !in c
                  && |set k | k in c && c[k].email == s && c[k].issued >= now - env.policy.window| < env.policy.maximum)
            && (r.Ok? ==> r.value == s)
            && c' == (if r.Ok? then c[id := Challenge(s, env.digest(secret), now, now + env.policy.ttl, None)] else c)
  {
    NormalizesExactly(env.fold, email);
    var s := env.fold(Strip(email));
    assert Recent(c, s, now - env.policy.window) == set k | k in c && c[k].email == s && c[k].issued >= now - env.policy.window;
    hide NormalizeEmail, Address, Strip, Recent;
  }

  /** However the run goes on, what was issued verifies exactly until it expires or is used, as the identity keyed by its email. */
  lemma {:induction false} IssuedVerifies(env: Env, c: Challenges, email: string, now: int, id: string, secret: string, more: seq<Op>, later: int)
    requires Folding(env.fold) && Issue(env, c, email, now, id, secret).1.Ok?
    requires Trimmed(id) && PlausibleId(id) && Trimmed(secret) && PlausibleSecret(secret)
    ensures var c' := PerformOn(env, Issue(env, c, email, now, id, secret).0, more);
            var r := Verify(env, c', id, email, secret, later).1;
            && id in c'
            && (r.Ok? <==> later < now + env.policy.ttl && c'[id].consumed.None?)
            && (r.Ok? ==>
                  && Normalized(env.fold, r.value) == Ok(r.value)
                  && Some(KeyOf(r.value).2) == NormalizeEmail(env.fold, email) && KeyOf(r.value).0 == Email && KeyOf(r.value).1 == "")
  {
    var issued := Issue(env, c, email, now, id, secret).0;
    StripTrimmed(id);
    StripTrimmed(secret);
    RunKeeps(env, issued, more);
    VerifiesExactly(env, PerformOn(env, issued, more), id, email, secret, later);
    EmailIdentity(env.fold, email);
    hide PerformOn, NormalizeEmail, Strip, Folding, PlausibleId, PlausibleSecret, Normalized;
  }

  lemma EmailIdentity(fold: string -> string, email: string)
    requires Folding(fold) && NormalizeEmail(fold, email).Some?
    ensures var e := NormalizeEmail(fold, email).value;
            var i := Identity(Email, e, Some(e), true, None);
            Normalized(fold, i) == Ok(i) && NormalizeEmail(fold, e) == Some(e)
  {
    var e := NormalizeEmail(fold, email).value;
    StripShape(email);
    StripTrimmed(e);
    hide LStrip, RStrip, IsSpace, Count;
  }

  // ----- the in-memory store, counting as it does -----

  class ChallengeStore {
    var challenges: Challenges

    constructor ()
      ensures challenges == map[]
    {
      challenges := map[];
    }

    method RecentIssueCount(email: string, since: int) returns (count: nat)
      ensures count == |Recent(challenges, email, since)|
    {
      var rest := challenges.Keys;
      count := 0;
      ghost var recent := Recent(challenges, email, since);
      while rest != {}
        invariant rest <= challenges.Keys && count == |recent - rest|
        decreases |rest|
      {
        var id :| id in rest;
        ghost var before := recent - rest;
        rest := rest - {id};
        if challenges[id].email == email && challenges[id].issued >= since {
          count := count + 1;
          assert recent - rest == before + {id};
        } else {
          assert recent - rest == before;
        }
      }
      assert recent - rest == recent;
    }

    method IssueChallenge(env: Env, email: string, now: int, id: string, secret: string) returns (result: Result<string, EmailError>)
      modifies this
      ensures (challenges, result) == Issue(env, old(challenges), email, now, id, secret)
    {
      hide NormalizeEmail;
      var normalized := NormalizeEmail(env.fold, email);
      if normalized.None? {
        return Err(InvalidEmail);
      }
      var recent := RecentIssueCount(normalized.value, now - env.policy.window);
      if recent >= env.policy.maximum {
        return Err(RateLimited);
      }
      if id in challenges {
        return Err(Collision);
      }
      challenges := challenges[id := Challenge(normalized.value, env.digest(secret), now, now + env.policy.ttl, None)];
      return Ok(normalized.value);
    }

    method Consume(id: string, email: string, digest: string, now: int) returns (consumed: Option<Challenge>)
      modifies this
      ensures consumed.Some? <==> Consumable(old(challenges), id, email, digest, now)
      ensures consumed.Some? ==> consumed.value == old(challenges)[id].(consumed := Some(now))
      ensures consumed.Some? ==> challenges == old(challenges)[id := consumed.value]
      ensures consumed.None? ==> challenges == old(challenges)
    {
      if id !in challenges {
        return None;
      }
      var challenge := challenges[id];
      if challenge.consumed.Some? || challenge.email != email || challenge.expires <= now || challenge.digest != digest {
        return None;
      }
      challenge := challenge.(consumed := Some(now));
      challenges := challenges[id := challenge];
      return Some(challenge);
    }
  }
}
