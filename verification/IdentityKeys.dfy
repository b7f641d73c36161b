/** Verified external identities and the keys that links are stored under. */
module IdentityKeys {
  import opened Prelude
  import opened Text

  datatype Provider = Google | Microsoft | GitHub | Apple | Email | EnterpriseOidc

  /** `VerifiedExternalIdentity`. */
  datatype Identity = Identity(
    provider: Provider, subject: string, email: Option<string>, emailVerified: bool, issuer: Option<string>)

  type Key = (Provider, string, string)

  datatype IdentityError =
    | SubjectRequired | VerifiedEmailRequired | SubjectMismatch | IssuerRequired
    | AlreadyLinked | NotLinked | OtherAccount | LastLink | AccountChanged | PersistenceConflict
    | MissingAccount | TenantMismatch | AccountDisabled | ContextIncomplete | RecentAuthRequired | AccountUnavailable
    | ConfirmationRequired | ActorNotAuthorized | TargetNotActive | LastOwner | UserNotActive | OwnerMustTransfer | TenantNotActive
    | SessionUnavailable | SessionOwner | AlreadyRevoked | SessionInvalid | MembershipInactive | BadDigest | BadLifetime
    | BadEntitlement | SameReauthentication

  predicate Namespaced(p: Provider) { p.EnterpriseOidc? || p.Microsoft? }

  /** `normalized`; `fold` is `str.casefold`. */
  function Normalized(fold: string -> string, i: Identity): Result<Identity, IdentityError> {
    var subject := Strip(i.subject);
    if subject == "" then Err(SubjectRequired)
    else
      var folded := if i.email.Some? then Some(fold(Strip(i.email.value))) else None;
      var email := if folded == Some("") then None else folded;
      var issuer := if i.issuer.Some? && i.issuer.value != "" then Some(Strip(i.issuer.value)) else None;
      if i.provider.Email? && (email.None? || !i.emailVerified) then Err(VerifiedEmailRequired)
      else if i.provider.Email? && fold(subject) != email.value then Err(SubjectMismatch)
      else if Namespaced(i.provider) && issuer.None? then Err(IssuerRequired)
      else Ok(Identity(i.provider, if i.provider.Email? then email.value else subject, email, i.emailVerified, issuer))
  }

  /** The key of an identity that is already normalized. */
  function KeyOf(i: Identity): Key {
    (i.provider, if Namespaced(i.provider) && i.issuer.Some? then i.issuer.value else "", i.subject)
  }

  /** What is asked of case folding: folding again, or stripping a folded trimmed text, changes nothing. */
  ghost predicate Folding(fold: string -> string) {
    && fold("") == ""
    && forall s :: Trimmed(s) ==> Trimmed(fold(s)) && fold(fold(s)) == fold(s)
  }

  /** A blank issuer is not the same as none: normalizing keeps it once and drops it the second time. */
  predicate BlankIssuer(i: Identity) {
    i.issuer.Some? && i.issuer.value != "" && Blank(i.issuer.value)
  }

  /** Normalizing twice is normalizing once, exactly for identities whose issuer is not blank. */
  lemma NormalizedTwice(fold: string -> string, i: Identity)
    requires Folding(fold) && Normalized(fold, i).Ok?
    ensures Normalized(fold, Normalized(fold, i).value) == Normalized(fold, i) <==> !BlankIssuer(i)
  {
    var n := Normalized(fold, i).value;
    TrimmedParts(fold, i);
    hide Trimmed, Folding, Strip, IsSpace;
    if BlankIssuer(i) {
      assert n.issuer == Some("");
    }
  }

  lemma TrimmedParts(fold: string -> string, i: Identity)
    requires Folding(fold) && Normalized(fold, i).Ok?
    ensures var n := Normalized(fold, i).value;
            && n.subject != "" && Strip(n.subject) == n.subject
            && (n.email.Some? ==> n.email.value != "" && Strip(n.email.value) == n.email.value && fold(n.email.value) == n.email.value)
            && (n.issuer.Some? ==> Strip(n.issuer.value) == n.issuer.value)
  {
    var n := Normalized(fold, i).value;
    hide IsSpace;
    StripShape(i.subject);
    if i.email.Some? { StripShape(i.email.value); }
    if i.issuer.Some? { StripShape(i.issuer.value); StripTrimmed(Strip(i.issuer.value)); }
    if n.email.Some? { StripTrimmed(n.email.value); }
    StripTrimmed(Strip(i.subject));
    hide Trimmed;
  }

  /** What reaches a store: the service normalizes, and the store normalizes again. */
  function Canonical(fold: string -> string, i: Identity): Result<Identity, IdentityError> {
    var once := Normalized(fold, i);
    if once.Err? then once else Normalized(fold, once.value)
  }

  /** The store works on a fixpoint: further normalizing, as `key` does, changes neither identity nor key. */
  lemma CanonicalIsFixed(fold: string -> string, i: Identity)
    requires Folding(fold) && Canonical(fold, i).Ok?
    ensures Normalized(fold, Canonical(fold, i).value) == Canonical(fold, i)
  {
    var once := Normalized(fold, i).value;
    TrimmedParts(fold, i);
    assert !BlankIssuer(once) by { hide IsSpace, LStrip, RStrip; assert once.issuer.Some? ==> Strip(once.issuer.value) == once.issuer.value; }
    NormalizedTwice(fold, once);
  }

  /** So a blank Microsoft issuer, accepted by the first normalizing, is refused before any store is changed. */
  lemma BlankIssuerRefused(fold: string -> string, i: Identity)
    requires Folding(fold) && Normalized(fold, i).Ok? && Namespaced(i.provider) && BlankIssuer(i)
    ensures Canonical(fold, i).Err?
  {
    TrimmedParts(fold, i);
    var once := Normalized(fold, i).value;
    assert once.issuer == Some("");
    hide Folding, IsSpace, Trimmed;
  }
}
