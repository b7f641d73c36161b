# Verified models of the ILAIOS service core

This project models the stateful and textual parts of the `services/` package and proves what they
promise over whole runs, whole inputs and whole interleavings. `dafny verify dfyconfig.toml` checks it.

Each stateful component has the same shape. Its transactions are functions on a value that holds its
tables (`IdentityTables`, `UsageSpec`, `CommercialAccess`, ...). A class holds the same tables as fields,
updates them step by step as the service does, and every method is proved equal to its transaction. The
theorems are about runs: sequences of operations of any length, with any arguments and any clock.

- **SKILL.md** (`Text`, `Sorting`, `SkillScalar`, `SkillDocument`, `SkillRoundTrip`, `SkillReading`). The scalar encoder, the
  three replace-all passes of the decoder, the line parser and the frontmatter finder. Which values and which
  documents round-trip is settled exactly; for the others the value read back is given, and exporting that loses nothing more.
  For documents as people write them, with bare, single-quoted and double-quoted values, comments and fields in any order,
  it is settled exactly which are accepted and what each field then says.
- **Sign-in completion** (`SignIn`, `SignInSafety`, `SignInRuns`, `SignInGap`, `SignInExact`, `SignInDisagree`,
  `SignInEviction`, `SignInClearing`, `SignInEarned`). Any
  number of polls, callbacks, rejections, starts and logouts interleave, one dictionary operation a step. The proof is
  by rely and guarantee: what a thread knows at each program point survives every step of every other thread. The
  Microsoft callback, which pops its flow before it sets its marker and hands every other provider's flow on to the
  threaded order, is in the same model; so is `reject`, which pops its flow before it publishes. Polls can be relied on
  exactly for providers other than Microsoft and without rejections, and duplicate callbacks agree exactly when nothing
  on a list of five causes happened to their state. What can take a stored result away, what a finished logout and a finished
  purge are sure to have removed, and where every published session comes from hold for every interleaving.
- **Identity** (`IdentityKeys`, `IdentityTables`, `IdentityInvariant`, `IdentityRuns`, `IdentityPromises`,
  `IdentityExact`, `IdentityLinkExact`, `IdentityDatabase`, `IdentityReference`, `IdentitySimulation`, `IdentityAgreement`,
  `IdentityListing`). Users, tenants, memberships, links, sessions and
  entitlements under sign-in, linking, transfer, unlinking, recovery, departure, deletion, tenant closing and
  session operations, with an extra step that seats a second member so that the last-owner rule matters. The SQL
  store is also shown to give every call of every run the answer that the in-memory store gives, but for link emails
  after a transfer and the order of listings; for both the exact condition is proved.
- **Usage** (`CircuitBreaker`, `UsageSpec`, `UsageConservation`, `UsageBudgets`,
  `UsageAdmission`, `UsageConcurrency`, `UsageCompletion`, `UsageGovernor`, `ModelRouting`).
  Admission over many scopes, reconciliation, completion, the sliding-window circuit, and model routing.
- **Commerce** (`CommercialAccess`, `CommercialRuns`, `CommercialExact`, `DigitalGoods`, `DigitalGoodsRuns`, `DigitalExact`). Provider events,
  grants and entitlements; orders, payments and download tokens.
- **Email challenges** (`EmailAuth`), **versioned secrets** (`SecretContext`, `Secrets`, `SecretRuns`),
  **artifacts** (`Artifacts`) and **assistant conversations** (`Conversations`).

The theorems named `...Exactly` say of one operation when it succeeds, as an if-and-only-if over the tables, dictionaries or
text it is given and not over the transaction's own checks, and what the tables are afterwards. Those of `IdentityExact`
and `IdentityLinkExact` that speak of live accounts hold of all tables with the invariant `Good`, that is, of every
reachable database.

SHA-256, `str.casefold`, ciphers, key wrapping, the calendar and the guidance texts are function parameters;
a lemma that needs something of them says so (`Folding`, `Lawful`, `Brief`). Times are integers, costs are reals.
Generated ids, tokens, nonces and clock readings are arguments.

## Where the code and a promise part

- Decoding turns every backslash followed by `n` into a newline, so a value round-trips exactly when it has no such
  pair (`SkillScalar.ScalarRoundTrip`); everything else survives the three passes.
- A request that lists a scope twice is checked once per listing and charged twice (`UsageBudgets.SafeExactlyWhenListedOnce`).
- The circuit answers like its history for all events under a clock that never steps back, and every backward step of
  the clock lets some events break the match (`CircuitBreaker.ClockExactly`).
- A poll can fail while a Microsoft callback, or a rejection, is about to succeed (`SignInGap`); nothing else can
  make it fail early (`SignInExact.ReliableExactly`).
- Two callbacks of one state can return differently after a failed credential save, a rejection, an unhandled exception,
  an eviction by a logout or by later results, or a hundred later failures (`SignInDisagree.ExcusesAreExact`).
- Nothing stops a request from being completed twice. That takes another request's place, which can then not be
  completed, and lets more requests run than the limit allows (`UsageCompletion.ReliableExactly`, `LimitsExactly`).
- A verified issuer that is blank but not empty survives the first normalization and is refused by the second
  (`IdentityKeys.BlankIssuerRefused`).
- After a transfer the SQL store keeps the link's email and the in-memory store replaces it
  (`IdentityAgreement.EmailsAgreeExactly`, `EmailsCanPart`).
- `payment.failed` is accepted by the digital store though the verifier never emits it; it is the one event that
  reopens a revoked order (`DigitalGoodsRuns.StaysRevokedExactly`, `FailedReopensRevoked`), and the one that can leave
  an unrevoked token on an unpaid order (`TokensStayOkExactly`).
- Contexts of secrets collide when a bar can move from the tenant to the secret (`SecretContext.BarsCollide`).
- A repeated `put` of the same bytes under another scope succeeds and echoes that scope, which is not stored
  (`Artifacts.RepeatedPutEchoes`).

## Model

The rows that name a class come last: they tie the classes, whose methods work step by step, to the transactions that
the other rows are about.

| member | source | states |
|---|---|---|
| SkillScalar.YamlScalarIsEncode | services/agent_skills_compat.py:352-354 | the three sequential escapes of the printer equal one per-character encoder |
| SkillScalar.DecodeEncoded | services/agent_skills_compat.py:273-285 | decoding a printed scalar never fails and yields the value with each backslash-n pair turned into a newline |
| SkillScalar.ScalarRoundTrip | services/agent_skills_compat.py:273-285 | decode(encode(v)) is v if and only if v has no backslash directly before the letter n |
| SkillDocument.RenderAgentSkill | services/agent_skills_compat.py:137-164 | the line-appending renderer yields the rendered document, or the first violated check |
| SkillDocument.ParseFrontmatter | services/agent_skills_compat.py:228-270 | the dictionary-filling line loop equals the parse of all lines, with its errors and line numbers |
| SkillRoundTrip.ReadRendered | services/agent_skills_compat.py:181-225 | whenever lines can carry the export, reading it back succeeds with every value garbled as the scalar decoder garbles it |
| SkillRoundTrip.DocumentRoundTrip | services/agent_skills_compat.py:137-270 | a rendered document reads back as name, description, license, compatibility, metadata with the two forced keys and the stripped body if and only if the export is portable |
| SkillRoundTrip.ReadIsClean | services/agent_skills_compat.py:181-270 | whatever text is read, its keys are trimmed, colon-free and no comment, and its values hold no foreign line break |
| SkillRoundTrip.RenderingIsFixpoint | services/agent_skills_compat.py:137-225 | rendering what was read from a rendered portable export gives the same text again |
| SkillRoundTrip.SecondRoundIsFaithful | services/agent_skills_compat.py:137-225 | whatever export lines can carry, backslash-n values included, the export rebuilt from what was read is portable, renders, and reads back as exactly the same |
| SkillReading.ReadsExactly | services/agent_skills_compat.py:181-285 | a page of sound lines in any order and any mix of bare, single-quoted and printed values, with comments, is accepted if and only if no key repeats, entries stand under one header, only the six fields occur, name, description, license, compatibility and allowed-tools are valid; then every field is what its own line means and the body is kept |
| SkillReading.ReadsValue | services/agent_skills_compat.py:273-285 | a bare value is read as it stands, a single-quoted one with its doubled quotes halved, a printed one as garbled |
| SkillReading.RefusesExactly | services/agent_skills_compat.py:281-285 | a scalar is refused if and only if it begins with one of the seven YAML indicators, and outside of quotes any other stands for itself |
| SkillReading.IndicatorsRefused | services/agent_skills_compat.py:251-269 | a new key whose bare value begins with an indicator is refused at the top and in the table |
| SkillReading.EmptyRefused | services/agent_skills_compat.py:262-264 | a new key without a value is refused, but for metadata |
| SkillReading.AcceptedIsValid | services/agent_skills_compat.py:181-225 | whatever text is accepted, its name, description, license, compatibility and allowed-tools are valid and its body is what follows the closing marker |
| SkillReading.RendersPage | services/agent_skills_compat.py:137-164 | what the renderer writes is such a page: the fields in a fixed order, the table sorted by key, the stripped body |
| SkillReading.NamesExactly | services/agent_skills_compat.py:338-340 | a name is valid if and only if it is at most 64 characters long and consists of non-empty words of lower-case letters and digits, each joined to the next by one hyphen |
| Text.SplitsExactly | services/agent_skills_compat.py:236-236 | a line ends at the first break, a carriage return with its newline being one, and a text without a break is one line |
| Text.BlanksExactly | services/agent_skills_compat.py:236-261 | the characters that end a line and the characters that strip cuts, by their code points |
| Text.StripsExactly | services/agent_skills_compat.py:237-261 | stripping cuts blanks on the left and on the right and nothing else |
| SignInRuns.PollsNeverLie | services/desktop_oidc_threaded.py:395-423 | for every interleaving a poll of a started state returns the published result or pending for its provider, raises a recorded message only if that failure happened, and raises unknown only after expiry past the deadline, eviction, a dropped error, an unhandled exception, or a read inside a pop-before-mark gap |
| SignInRuns.PollsWaitForFailure | services/desktop_oidc_threaded.py:351-423 | whatever calls it receives, the Microsoft override included, a poll of an unexpired unevicted sign-in of another provider that was not rejected raises only once completion has failed |
| SignInEviction.PublishedIsSeen | services/desktop_oidc.py:354-371 | a poll that starts after publication returns the published result, unless more than a hundred results were stored and it was older than the newest hundred, or a logout was called for exactly its session |
| SignInRuns.ExchangedOnce | services/desktop_oidc.py:224-253 | in every interleaving a state's code is exchanged at most once, and never while its flow is still stored |
| SignInRuns.CallbacksAgree | services/desktop_oidc_threaded.py:351-393 | two finished callbacks of one state, in either order of steps, returned or raised the same, unless an outcome was evicted, dropped, crashed, rejected, or published before its credential failed to be saved |
| SignInDisagree.ExcusesAreExact | services/desktop_oidc_threaded.py:366-393 | finished callbacks agree in every run in which nothing but the allowed causes happened to their state if and only if none of the five causes is allowed |
| SignInDisagree.UnsavedParts | services/desktop_oidc_threaded.py:371-380 | a run in which the first callback raises because saving failed and the second returns the published result |
| SignInDisagree.RejectedParts | services/desktop_oidc.py:341-352 | a run in which a callback raises between the pop and the publication of a rejection and a later one returns the rejection |
| SignInDisagree.ForgottenParts | services/desktop_oidc_threaded.py:351-393 | a run in which a hundred later failures push a failure out, so that a late callback raises another error |
| SignInRuns.PlayOk | services/desktop_oidc_threaded.py:351-423 | the joint invariant of flows, results, errors, markers, lock and every thread's knowledge holds after every run |
| SignInRuns.NeverExposed | services/desktop_oidc_microsoft.py:188-206 | in every run a flow is popped before its marker only if its provider is Microsoft or it was rejected |
| SignInRuns.PlayAccounts | services/desktop_oidc_microsoft.py:188-190 | the invariant behind it: a call takes the Microsoft order only for a flow started with Microsoft, and every unmarked pop is accounted for |
| SignInExact.ReliableExactly | services/desktop_oidc_microsoft.py:182-213 | polls of a provider raise only after failure in every run if and only if the provider is not Microsoft and users may not reject |
| SignInSafety.Stands | services/desktop_oidc_threaded.py:351-423 | what a thread knows at any program point survives any step another thread may take |
| SignInSafety.StepKeeps | services/desktop_oidc.py:224-371 | no step of any thread unsettles any state or breaks what another thread relies on |
| SignInSafety.OverdueAreDue | services/desktop_oidc.py:477-482 | a purge snapshots only flows whose deadline has passed |
| SignInEviction.LostOnlyByCause | services/desktop_oidc.py:464-485 | in every interleaving a published result is lost only if more than a hundred results were stored and it was older than the newest hundred, or if a logout was called for exactly the session it carries |
| SignInEviction.ErrorLostOnlyByCause | services/desktop_oidc_threaded.py:531-536 | a recorded error is lost only if more than a hundred errors were stored and it was the oldest |
| SignInEviction.UnknownHasCause | services/desktop_oidc_threaded.py:395-423 | a poll of a started state raises unknown only after expiry, a crash, such a loss of its result or error, or a read inside the gap |
| SignInEviction.PlayKept | services/desktop_oidc.py:464-485 | the invariant behind these: the dictionaries keep their order, a lost result never returns, and every purge and logout still under way has only such states left to drop |
| SignInClearing.LogoutClears | services/desktop_oidc.py:464-475 | once a logout has finished, no result of its session that was stored when it was called is stored, whatever ran beside it |
| SignInClearing.PurgeTrims | services/desktop_oidc.py:483-485 | once a purge has finished, no result older than the newest hundred it found is stored |
| SignInClearing.PurgeExpires | services/desktop_oidc.py:477-482 | once a purge has finished, no flow is stored whose time was up when it began |
| SignInClearing.StartsForFiveMinutes | services/desktop_oidc.py:177-222 | a start stores one flow under a fresh state, for three hundred seconds, and touches no other state |
| SignInEarned.ResultsAreEarned | services/desktop_oidc.py:309-371 | in every interleaving a published result names the provider its sign-in was started with, and carries the session that an exchange of one of its own callbacks returned, or none and the reason of one of its own rejections |
| SignInEarned.AnswersAreCurrent | services/desktop_oidc_threaded.py:395-423 | a poll answers with the result, flow, marker or error stored at its last step, and raises unknown only if no flow is stored then |
| SignInEarned.ErrorsAreOwn | services/desktop_oidc_threaded.py:351-393 | a recorded error is the refusal of its state or what one of its own callbacks failed with |
| SignInGap.MicrosoftGap | services/desktop_oidc_microsoft.py:192-213 | from every reachable world in which a Microsoft sign-in waits, a poll can raise unknown with nothing expired or failed, after which the callback still publishes |
| SignInGap.PopBeforeMarkFails | services/desktop_oidc_microsoft.py:200-206 | a concrete run from the empty service that shows this |
| SignInGap.RejectGap | services/desktop_oidc.py:341-352 | a poll between the pop and the publication of a rejection raises unknown |
| SignInGap.PollRaises | services/desktop_oidc_threaded.py:410-423 | a poll that runs alone while nothing is stored for its state raises and changes nothing |
| SignInGap.MicrosoftFinishes | services/desktop_oidc_microsoft.py:205-223 | an undisturbed Microsoft callback that is past its pop publishes one result after one exchange |
| IdentityKeys.NormalizedTwice | services/central_identity.py:49-78 | normalizing again changes nothing if and only if the issuer was not blank |
| IdentityKeys.CanonicalIsFixed | services/central_identity.py:80-89 | the identity a store works on is a fixpoint, so the key's own normalization changes nothing |
| IdentityKeys.BlankIssuerRefused | services/central_identity.py:60-72 | a namespaced identity with a blank issuer passes the service and is refused by the store |
| IdentityRuns.RunsKeepInvariant | services/central_identity_sqlite.py:86-335 | after every run every ACTIVE tenant has an ACTIVE owner, ACTIVE seats belong to enabled users, primaries are unique and owners, links lead to primaries, enabled users keep a link, open sessions sit on live primaries |
| IdentityInvariant.TransferGood | services/central_identity_sqlite.py:184-292 | a transfer of an isolated account keeps that invariant |
| IdentityInvariant.CreateGood | services/central_identity_sqlite.py:86-141 | creating an account with its first link keeps it |
| IdentityInvariant.RemoveLinkGood | services/central_identity_sqlite.py:294-335 | removing a link keeps it, because another link of the user remains |
| IdentityInvariant.RemoveIfAlternateGood | services/account_lifecycle.py:202-250 | so does the second removal path |
| IdentityRuns.DepartGood | services/account_departure.py:21-114 | a departure keeps it, because the last ACTIVE owner is refused |
| IdentityRuns.DeleteGood | services/account_delete.py:21-99 | an account deletion keeps it, because an ACTIVE owner is refused |
| IdentityRuns.CloseGood | services/tenant_delete.py:21-126 | closing a tenant keeps it, disabling every member without another ACTIVE seat |
| IdentityPromises.NothingComesBack | services/central_identity_sqlite.py:250-287 | over any further run no disabled user, suspended tenant, inactive seat or revoked session returns, no audit row is lost, and an account that is gone stays gone |
| IdentityPromises.SignInNeverDangles | services/central_identity.py:140-152 | the missing-account and tenant-mismatch failures of sign-in, and the tenant mismatch of recovery, are unreachable |
| IdentityPromises.SignInExactly | services/central_identity.py:140-152 | a linked identity signs in if and only if its user, seat and tenant are live, and then to exactly its own account |
| IdentityPromises.SignInAgain | services/central_identity.py:140-152 | signing in twice yields the same account, newly created or old, and the second changes nothing |
| IdentityPromises.LinkedSignsIn | services/central_identity.py:154-175 | after a successful link by any of its three ways the identity signs in to the linking account |
| IdentityPromises.TransferRetiresSource | services/central_identity_sqlite.py:229-287 | a transfer keeps the set of keys, moves one link, and leaves the source disabled, unseated and without links |
| IdentityPromises.GoneNeverSignsIn | services/central_identity_sqlite.py:273-287 | no later sign-in ever yields such an account |
| IdentityPromises.VerifyExactly | services/canonical_browser_session.py:96-136 | on every run a credential verifies if and only if its session is stored, unrevoked, unexpired and the digests match; then its account is live |
| IdentityPromises.IssuedVerifies | services/canonical_browser_session.py:49-136 | however a run goes on after an issue, the credential verifies as its account if and only if its session is not revoked and not expired |
| IdentityPromises.InactiveSeatNeverVerifies | services/account_departure.py:82-103 | once a seat is not ACTIVE no credential for it ever verifies again |
| IdentityPromises.RevokedNeverVerifies | services/canonical_browser_session.py:138-152 | a revoked session id never verifies again and keeps its revocation time |
| IdentityPromises.ClosuresEndSeats | services/account_delete.py:67-85 | every successful departure, deletion and tenant closing leaves the seats it ends inactive |
| IdentityPromises.RefusalsOnlyAudit | services/account_departure.py:40-80 | a refused transaction leaves every table as it was, but for at most one audit row |
| IdentityExact.DepartsExactly | services/account_departure.py:21-79 | a departure succeeds if and only if the three ids are not blank, authentication is recent, the actor holds an ACTIVE OWNER or ADMIN seat of the tenant, the target's seat is ACTIVE, and the target is not its last ACTIVE owner |
| IdentityExact.DepartChanges | services/account_departure.py:81-114 | it ends that seat and its open sessions, disables a user without another ACTIVE seat, and changes nothing else |
| IdentityExact.DepartRefusalIsTrue | services/account_departure.py:36-79 | each refusal of a departure states what is the case |
| IdentityExact.DeletesExactly | services/account_delete.py:21-65 | a deletion succeeds if and only if the id is not blank, it is recent and confirmed, and the user is enabled and holds no ACTIVE OWNER seat |
| IdentityExact.DeleteChanges | services/account_delete.py:67-99 | it ends every seat, open session and link of the user, and the user, and changes nothing else |
| IdentityExact.DeleteRefusalIsTrue | services/account_delete.py:30-65 | each refusal of a deletion states what is the case |
| IdentityExact.ClosesExactly | services/tenant_delete.py:21-65 | a closing succeeds if and only if the ids are not blank, it is recent and confirmed, the tenant is ACTIVE and the actor is its ACTIVE owner |
| IdentityExact.CloseChanges | services/tenant_delete.py:67-126 | it ends the tenant, its seats, open sessions and entitlements, and its members without another ACTIVE seat, and changes nothing else |
| IdentityExact.CloseRefusalIsTrue | services/tenant_delete.py:33-65 | each refusal of a closing states what is the case |
| IdentityExact.RevokesAllExactly | services/account_session_lifecycle.py:77-169 | revoking all sessions succeeds if and only if the account is live and authentication recent, and then ends and counts exactly its open sessions |
| IdentityExact.LogsOutExactly | services/account_session_lifecycle.py:35-75 | a logout succeeds if and only if the account is live and the session is its own and open, and ends that one session |
| IdentityExact.RevokesOneExactly | services/central_identity_sqlite.py:384-391 | the revoking update by id, which the browser authority also runs on its trimmed id, ends that one open session, whoever owns it, and changes nothing else |
| IdentityExact.PersistsExactly | services/central_identity_sqlite.py:347-375 | a session row is stored if and only if the digest has 64 hexadecimal digits, the id is new and the account is live |
| IdentityExact.IssuesExactly | services/canonical_browser_session.py:49-94 | a session is issued if and only if the lifetime is within bounds, the id is new and the account is live, and then one row of that account lasts for exactly that lifetime |
| IdentityExact.RecoversExactly | services/account_lifecycle.py:72-104 | recovery yields the account of a linked identity if and only if that account is live, and changes only the audit list |
| IdentityExact.EntitlesExactly | services/central_identity_sqlite.py:412-447 | an entitlement is stored if and only if its tenant exists, its state is known and its limit is not negative |
| IdentityLinkExact.NormalizesExactly | services/central_identity.py:49-78 | which identities normalize, read off their fields, and what their normal form is |
| IdentityLinkExact.KeysExactly | services/central_identity.py:80-89 | under which key a normalized identity is stored, and with which email |
| IdentityLinkExact.CreatesExactly | services/central_identity_sqlite.py:86-141 | signing in with an unknown identity adds one user, tenant, primary owning seat and link, and nothing else, if and only if identity, user and tenant are new |
| IdentityLinkExact.LinksExactly | services/central_identity.py:154-175 | a link call succeeds if and only if it comes from a recent live account and the identity is new, already its own, or of a bootstrap account, and what it changes in each case |
| IdentityLinkExact.UnlinksExactly | services/central_identity.py:177-203 | an unlink succeeds if and only if it comes from a recent live account that has that link and another, and removes that one link |
| IdentityLinkExact.LifecycleUnlinksExactly | services/account_lifecycle.py:106-250 | the lifecycle unlink succeeds if and only if the live account shows two different links of its own, and removes the target |
| IdentityTables.DeleteReports | services/account_delete.py:67-99 | the three row counts a deletion returns are the numbers of rows it changed or dropped |
| IdentityTables.CloseReports | services/tenant_delete.py:67-126 | the four row counts a tenant deletion returns are the numbers of rows it changed |
| IdentitySimulation.TransferSimulates | services/central_identity_sqlite.py:184-292 | the SQL transfer succeeds exactly when the in-memory one does, and both then show the same emails if and only if the presented email is the stored one |
| IdentityAgreement.StoresAgree | services/central_identity.py:134-334 | from empty, every call of every run of sign-in, link, unlink and list calls gets the same error, counterpart accounts or the same links from both stores, with the same emails where they agreed before and no stored one is replaced |
| IdentityAgreement.EmailsAgreeExactly | services/central_identity.py:302-308 | along a run both stores show the same emails after every call if and only if no call moves the only link of another account presenting another email than the stored one |
| IdentityAgreement.EmailsPart | services/central_identity_sqlite.py:250-287 | two sign-ins and a link of the second identity to the first account under another email always end with different emails |
| IdentityAgreement.EmailsCanPart | services/central_identity_sqlite.py:250-287 | such a run exists from empty stores |
| IdentityAgreement.ListSimulates | services/central_identity.py:200-204 | a list call fails alike on both stores or gives the same keys with counterpart accounts and the same emails |
| IdentityListing.ListOrderExactly | services/central_identity.py:328-334 | both stores list the links of an account in the same order if and only if, within a provider without namespace, issuers rise with the subjects or stay |
| CircuitBreaker.CircuitMatchesHistory | services/ai_governance.py:399-429 | under a non-decreasing clock the pruned list and the open time answer as the full history since the last reset does |
| CircuitBreaker.HealthMatchesHistory | services/ai_governance.py:414-429 | under such a clock the health report tells whether the history is open, until when, and how many failures are inside the window |
| CircuitBreaker.ClockExactly | services/ai_governance.py:399-412 | for a list of clock readings, circuit and history agree under every policy and whatever happens at these readings if and only if no reading is earlier than one before it |
| CircuitBreaker.ClockExactlyUnder | services/ai_governance.py:399-412 | the same for each single policy under which one failure opens the circuit, whatever its window and cooldown |
| CircuitBreaker.BackwardStepCloses | services/ai_governance.py:405-406 | wherever a clock steps back, two failures there leave the circuit closed while its history is still open |
| UsageConservation.RunsStayBalanced | services/ai_governance.py:282-389 | on every run each day and month bucket equals the sum over admitted requests of actual cost where reconciled, reserved cost otherwise |
| UsageConservation.ReconcileNeverStuck | services/ai_governance.py:369-389 | reconciling genuine evidence succeeds if and only if it is downward and first, and otherwise changes nothing; the guards inside the loop never fire |
| UsageConservation.MonthIsSumOfDays | services/ai_governance.py:300-339 | each month bucket equals the sum of its day buckets |
| UsageBudgets.RunsStayWithinLimits | services/ai_governance.py:342-367 | if requests list each scope once, no counter of any scope ever exceeds its limit |
| UsageBudgets.SafeExactlyWhenListedOnce | services/ai_governance.py:300-331 | admission is safe for a list of scopes if and only if the list has no repetition |
| UsageBudgets.RefusalLeavesSnapshots | services/ai_governance.py:431-445 | a refused admission leaves every usage snapshot unchanged |
| UsageBudgets.CircuitFollowsEvents | services/ai_governance.py:289-294 | a provider's circuit inside any run is the circuit of that provider's own events |
| UsageBudgets.OpenCircuitRefuses | services/ai_governance.py:289-294 | while the history says open, every request that reaches the provider is refused |
| UsageAdmission.AdmitsExactly | services/ai_governance.py:282-367 | a request is admitted if and only if its id is new, model and provider are known and enabled, the circuit lets it through, context window and output limit hold, and for every scope it lists there is a limit that holds both token ceilings, the six counters plus the request, the retry number and the retry cost |
| UsageAdmission.SnapshotsDecide | services/ai_governance.py:282-367 | the same in terms of the usage snapshots that a caller can read beforehand |
| UsageAdmission.RefusalIsTrue | services/ai_governance.py:282-367 | each refusal of a request states what is the case |
| UsageAdmission.WarningsExactly | services/ai_governance.py:312-323 | for scopes listed once each, a warning is given if and only if, once all are charged, some cost stands at its warning fraction or above |
| UsageAdmission.AdmitCharges | services/ai_governance.py:312-340 | an admitted request that lists each scope once is charged once to each of them on that day and month, and its evidence says what it reserved |
| UsageAdmission.SameDayExactly | services/ai_governance.py:299-308 | two times share a daily record if and only if they lie between the same two midnights |
| UsageConcurrency.CompletionUndoesAdmission | services/ai_governance.py:391-397 | after any run, a request that lists each scope once, admitted and completed right away, completes and frees exactly the concurrency it took, leaving its request, cost, GPU and runtime charged |
| UsageConcurrency.RunsNeverNegative | services/ai_governance.py:391-397 | no running-request counter is ever negative, whatever is completed how often |
| UsageCompletion.CompletesExactly | services/ai_governance.py:391-397 | completion succeeds if and only if every listed scope has as many running requests as listings, and then frees exactly those |
| UsageCompletion.CountersFollow | services/ai_governance.py:391-397 | on every run that completes no evidence twice, each running counter is the number of listings by requests admitted that day and not yet completed |
| UsageCompletion.RunningCompletes | services/ai_governance.py:391-397 | on such a run every request admitted and not yet completed, however long ago, can be completed |
| UsageCompletion.CompletingAgain | services/ai_governance.py:391-397 | completing an entry again succeeds if and only if enough others still run in all its scopes, and the counters then fall short by what it lists |
| UsageCompletion.ConcurrencyIsBounded | services/ai_governance.py:342-367 | while no request lists a scope twice or is completed twice, the number of uncompleted requests of a scope is its counter and within its limit |
| UsageCompletion.SecondIsRefused | services/ai_governance.py:391-397 | a run in which one request is completed twice and another, never completed, can no longer be |
| UsageCompletion.LimitIsOverrun | services/ai_governance.py:391-397 | its continuation, in which three requests run under a limit of two |
| UsageCompletion.ReliableExactly | services/ai_governance.py:391-397 | in every run every request admitted and not yet completed can be completed if and only if no request may be completed twice |
| UsageCompletion.LimitsExactly | services/ai_governance.py:342-367 | in every run without repeated scopes the uncompleted requests of each scope stay within its concurrency limit if and only if no request may be completed twice |
| ModelRouting.Route | services/ai_governance.py:122-136 | routing finds a usable model if and only if there is one: the preferred one if it is usable, else the first usable of the fallback order, else the usable one whose name comes first |
| ModelRouting.UsableExactly | services/ai_governance.py:94-119 | a model is usable if and only if it and its provider are enabled, it has the capability, neither is denied, and each is on its list of the allowed or that list is empty |
| Text.BelowExactly | services/ai_governance.py:131-131 | the name order is decided by the first difference, and a proper beginning comes first |
| CommercialRuns.LatestEventWins | services/commercial_access.py:418-493 | for any delivery order, redeliveries and refusals, interleaved with anything else, the subscription ends in the state and at the time of its latest event and keeps its account and plan |
| CommercialRuns.DeliveryOrderIrrelevant | services/commercial_access.py:453-458 | two runs that deliver the same events end with the same subscription |
| CommercialRuns.EventsApplyOnce | services/commercial_access.py:430-448 | an accepted event that comes again, however much later, returns what it returned and changes nothing |
| CommercialRuns.ChangesApplyOnce | services/commercial_access.py:532-542 | the same for entitlement changes, for every digest |
| CommercialRuns.RunsStayVersioned | services/commercial_access.py:543-579 | versions count the changes of an account without gap or repetition, the entitlement is the newest snapshot, and grants carry their binding's account within the policy period |
| CommercialRuns.AccessFollowsNewestChange | services/commercial_access.py:593-609 | access is granted if and only if the newest change is active, unexpired and, where asked, paid |
| CommercialRuns.BindingFollows | services/commercial_access.py:449-493 | along every run a binding follows the delivered events and every recorded id was delivered |
| CommercialExact.AppliesExactly | services/commercial_access.py:418-493 | a new event is accepted if and only if its kind is one of the six, its subscription is bound and it is later than the last one; activated and renewed make it active, suspended and failed suspend it, cancelled and refunded cancel it |
| CommercialExact.RepliesExactly | services/commercial_access.py:433-448 | an event id that comes again is accepted if and only if nothing about it differs |
| CommercialExact.LatestKindDecides | services/commercial_access.py:449-493 | along every run the latest delivered event decides the state by the name of its kind |
| CommercialExact.BindsExactly | services/commercial_access.py:213-272 | a new subscription is bound pending; an old one is returned if and only if it names the same account and plan |
| CommercialExact.GrantsExactly | services/commercial_access.py:287-377 | a new grant is stored if and only if its subscription is bound and its period is at most 370 days and not over, for the binding's account and plan |
| CommercialExact.GrantsAgainExactly | services/commercial_access.py:287-377 | a grant id that comes again never writes and is accepted if and only if its content has the stored digest |
| CommercialExact.EntitlesExactly | services/commercial_access.py:495-579 | a new change stores exactly the terms asked for, one version up, for that account alone; an old id never writes |
| CommercialExact.TermsDecideAccess | services/commercial_access.py:593-609 | access asked for right after a new change is given if and only if its terms give it |
| DigitalGoodsRuns.RunsStaySafe | services/commercial_digital_goods.py:273-352 | with the verifier's events every unrevoked token belongs to a PAID order of the same account and product, and order states fold the payment log |
| DigitalGoodsRuns.RecheckNeverFires | services/commercial_digital_goods.py:401-439 | a download succeeds if and only if its token is unrevoked, its principal's and unexpired; the second look at the order never refuses |
| DigitalGoodsRuns.RevocationSticks | services/commercial_digital_goods.py:304-352 | revoked orders and tokens stay revoked and payment rows stay, over any further run |
| DigitalGoodsRuns.RevokedNeverDownloads | services/commercial_digital_goods.py:347-351 | a token of a revoked order is refused for ever |
| DigitalGoodsRuns.PaymentsApplyOnce | services/commercial_digital_goods.py:293-303 | an accepted payment that comes again returns what it returned and changes nothing |
| DigitalGoodsRuns.DeliveryOrderIrrelevant | services/commercial_digital_goods.py:304-346 | an order ends revoked if any revocation was delivered, else paid if any success was, in any order with any repeats |
| DigitalGoodsRuns.StaysRevokedExactly | services/commercial_digital_goods.py:282-288 | an accepted event leaves a revoked order revoked if and only if it is not payment.failed |
| DigitalGoodsRuns.FailedReopensRevoked | services/commercial_digital_goods.py:315-316 | after payment.failed a success reactivates a revoked order that refused it before |
| DigitalGoodsRuns.TokensStayOkExactly | services/commercial_digital_goods.py:304-352 | an accepted payment keeps every unrevoked token on a PAID order if and only if it is a repetition, is not payment.failed, or its order has no unrevoked token |
| DigitalGoodsRuns.FailedStrandsTokens | services/commercial_digital_goods.py:426-436 | a token that payment.failed strands passes every check of a download until the recheck of its order refuses it |
| DigitalGoodsRuns.AllowedTargets | services/commercial_webhook.py:31-38 | the verifier's alphabet only pays or revokes |
| DigitalExact.PaysExactly | services/commercial_digital_goods.py:273-352 | a new payment is accepted if and only if its kind is one of the five, its order is known and not younger, and it is no success for a REVOKED order |
| DigitalExact.PayChanges | services/commercial_digital_goods.py:304-352 | the order is then PAID if and only if the kind is payment.succeeded, FAILED if and only if payment.failed, REVOKED if and only if refunded, chargeback or cancelled, and only then are its tokens revoked; nothing else changes |
| DigitalExact.PaysAgainExactly | services/commercial_digital_goods.py:293-303 | a payment id that comes again is accepted if and only if nothing about it differs |
| DigitalExact.RefundedNeverDownloads | services/commercial_digital_goods.py:347-351 | after an accepted refund, chargeback or cancellation no token of that order, old or new, downloads again, over any further run |
| DigitalExact.PlacesExactly | services/commercial_digital_goods.py:197-271 | an order is stored pending if and only if its product is active at that price and both ids are new |
| DigitalExact.IssuesExactly | services/commercial_digital_goods.py:354-399 | a token is issued if and only if it is for the account of a PAID order, under a new hash, for at most 900 seconds |
| DigitalExact.DownloadsExactly | services/commercial_digital_goods.py:401-439 | a download succeeds if and only if the token is stored, unrevoked, the caller's and unexpired and its order is PAID |
| DigitalExact.ProductsStay | services/commercial_digital_goods.py:132-195 | a product stays what it was first registered as, over any further run |
| EmailAuth.WindowsAreLimited | services/email_auth.py:94-102 | under any clock no closed interval of one window length holds more challenges of an email than allowed |
| EmailAuth.VerifiesExactly | services/email_auth.py:121-151 | a challenge verifies if and only if id and secret are plausible, it is stored for that email, unused, in time and the digests match |
| EmailAuth.UsedOnce | services/email_auth.py:207-249 | a challenge that verified never verifies again |
| EmailAuth.IssuedVerifies | services/email_auth.py:94-151 | however a run goes on after an issue, the challenge verifies, as the identity keyed by its email, if and only if it is unused and less than its lifetime has passed |
| EmailAuth.EmailIdentity | services/email_auth.py:317-328 | a normalized email is a fixpoint and is the subject of a normalized identity |
| EmailAuth.NormalizesExactly | services/email_auth.py:317-328 | an email normalizes if and only if its folded text has one at sign between a non-empty part and one with a dot, no blank, and at most 254 characters |
| EmailAuth.IssuesExactly | services/email_auth.py:94-119 | a challenge is issued if and only if the email normalizes, fewer than the maximum were issued within the window, and the id is new |
| SecretContext.ContextsEqualExactly | services/cryptography.py:116-118 | two contexts are equal if and only if the versions are and tenant, bar, secret read the same |
| SecretContext.ContextInjective | services/cryptography.py:116-118 | contexts are injective when all tenants, or else all secrets, are free of bars |
| SecretContext.BarsCollide | services/cryptography.py:116-118 | every bar inside a tenant can move to the secret without changing the context |
| SecretRuns.RevealsLatest | services/cryptography.py:160-171 | on every run a secret reveals if and only if its owner asks, the newest version is active and in its period, and what it reveals is the plaintext of the latest put |
| SecretRuns.RunsKeepVersions | services/cryptography.py:120-158 | versions are 1 to n under one tenant, with status, times and erased ciphertexts in step |
| SecretRuns.OpAges | services/cryptography.py:173-196 | one operation touches one secret, adds a version or ages its newest from active to revoked or from revoked to destroyed |
| SecretRuns.PutsExactly | services/cryptography.py:120-158 | a put succeeds if and only if its arguments are complete, its period is within the maximum and the secret is new or the tenant's own, and adds one active version with its audit row |
| SecretRuns.RevokesExactly | services/cryptography.py:173-177 | a revocation succeeds if and only if the tenant's newest version is active, and marks exactly that version revoked at that time |
| SecretRuns.DestroysExactly | services/cryptography.py:179-196 | a destruction succeeds if and only if the tenant's newest version is revoked, and erases exactly its ciphertext and key |
| SecretRuns.RevealsOnlyAudit | services/cryptography.py:160-171 | a reveal changes nothing but the audit list |
| SecretRuns.RevokedIsRefused | services/cryptography.py:160-177 | right after a revocation its owner is refused a reveal at any time |
| SecretRuns.AuditRebuildsStatuses | services/cryptography.py:198-222 | replaying the audit list rebuilds the status of every version |
| SecretRuns.OtherTenantsSeeNothing | services/cryptography.py:201-208 | another tenant can neither reveal nor revoke nor destroy |
| Artifacts.PutRefines | services/artifact_outputs.py:68-145 | for every digest one put is one step of an immutable map, and a conflicting put fails and leaves the map alone |
| Artifacts.PutsExactly | services/artifact_outputs.py:68-145 | a put succeeds if and only if its seven labels say something, there is content, no other content has its digest, and the name is new or was put with that digest; what is stored is its scope, digest and size |
| Artifacts.ReadRefines | services/artifact_outputs.py:147-171 | a read returns what the map holds in its scope; the object checks never fail |
| Artifacts.FirstPutWins | services/artifact_outputs.py:68-171 | after the first successful put every later read in scope returns its bytes, whatever is put afterwards |
| Artifacts.RepeatedPutEchoes | services/artifact_outputs.py:112-145 | a repeated put succeeds under any scope and returns the stored scope if and only if it named it |
| Conversations.EverySavedDocumentLoads | services/desktop_identity_server_core.py:346-368 | every document ever saved passes load's checks, its message ids are unique, and there are at most a hundred documents |
| Conversations.VersionExtendedOnce | services/desktop_identity_server_core.py:423-440 | after an accepted send no other message is ever accepted at that version |
| Conversations.ReplaysChangeNothing | services/desktop_identity_server_core.py:419-422 | an accepted message sent again at any version changes nothing, and with other content is refused |
| Conversations.SendsExactly | services/desktop_identity_server_core.py:399-442 | a message never sent before is accepted if and only if it is complete, within bounds and names the version of a document that loads and is not full; the document gains it and the guidance for exactly its text and locale |
| Conversations.CreatesExactly | services/desktop_identity_server_core.py:390-398 | a conversation is created empty at version zero if and only if there are fewer than a hundred |
| Conversations.DeletesExactly | services/desktop_identity_server_core.py:399-410 | a deletion succeeds if and only if the document loads, and removes that one |
| IdentityDatabase.Database.FindAccount | services/central_identity_sqlite.py:68-84 | any row the join yields is the account, because primaries are unique |
| IdentityDatabase.Database.CreateAccountWithLink | services/central_identity_sqlite.py:86-141 | the inserts in sequence are the creation, or nothing on a conflict |
| IdentityDatabase.Database.AddIdentityLink | services/central_identity_sqlite.py:143-182 | linking inserts one row for an account that is still what the caller read |
| IdentityDatabase.Database.TransferIsolatedLink | services/central_identity_sqlite.py:184-292 | the checks and updates in sequence are the transfer |
| IdentityDatabase.Database.RemoveIdentityLink | services/central_identity_sqlite.py:294-335 | the count and the delete are the removal |
| IdentityDatabase.Database.RevokeMatching | services/account_session_lifecycle.py:160-169 | the revoking update touches exactly the open matching sessions and counts them |
| IdentityDatabase.Database.DepartMember | services/account_departure.py:21-114 | membership, session, user and event updates in sequence are the departure |
| IdentityDatabase.Database.DeleteAccount | services/account_delete.py:21-99 | the updates over four tables in sequence are the deletion, with its three row counts |
| IdentityDatabase.Database.CloseTenantAccount | services/tenant_delete.py:21-126 | the updates and the member loop are the closing, with its four row counts |
| IdentityDatabase.Database.DisableMembers | services/tenant_delete.py:90-109 | the loop disables exactly the members without an ACTIVE seat, in any order, and counts those that were enabled |
| IdentityDatabase.Database.IssueSession | services/canonical_browser_session.py:49-94 | issuing resolves the account, then inserts one row |
| IdentityDatabase.Database.VerifyCredential | services/canonical_browser_session.py:96-136 | verifying reads session, account and membership as stated and changes nothing |
| IdentityReference.InMemoryStore.Create | services/central_identity.py:241-255 | the counter-named account and its link |
| IdentityReference.InMemoryStore.Transfer | services/central_identity.py:271-308 | moving the link and disabling the source in place |
| IdentityReference.InMemoryStore.Remove | services/central_identity.py:310-326 | removing a link of the account that keeps another |
| UsageGovernor.Governor.CheckAll | services/ai_governance.py:299-310 | the checking loop, with the empty records it leaves behind |
| UsageGovernor.Governor.ChargeAll | services/ai_governance.py:312-323 | the charging loop and its warnings |
| UsageGovernor.Governor.Admit | services/ai_governance.py:282-340 | admission over the dictionaries is the specified one, refusals included |
| UsageGovernor.Governor.ReconcileCost | services/ai_governance.py:369-389 | reconciliation over the dictionaries, including how far a failing loop gets |
| UsageGovernor.Governor.CompleteRequest | services/ai_governance.py:391-397 | completion over the dictionaries |
| UsageGovernor.Governor.RecordProviderEvent | services/ai_governance.py:399-429 | failures, successes and inspections update one provider's circuit, and an inspection reports the provider's id, its enabled flag and the health of its circuit |
| CommercialAccess.Store.ApplyProviderEvent | services/commercial_access.py:418-493 | applying an event to the rows is the specified transition |
| CommercialAccess.Store.ApplyEntitlement | services/commercial_access.py:495-579 | applying an entitlement change to the rows is the specified transition |
| CommercialAccess.Store.ResolveTrustedGrant | services/commercial_access.py:390-416 | the row filter succeeds if and only if exactly one grant is current, and distinguishes none from several |
| DigitalGoods.Counter.Place | services/commercial_digital_goods.py:197-271 | placing an order checks product and price and treats both ids as unique |
| DigitalGoods.Counter.ApplyPayment | services/commercial_digital_goods.py:273-352 | applying a payment to the rows is the specified transition |
| DigitalGoods.Counter.Issue | services/commercial_digital_goods.py:354-399 | issuing a download token is the specified transition |
| DigitalGoods.Counter.Authorize | services/commercial_digital_goods.py:401-439 | authorizing a download is the specified decision |
| EmailAuth.ChallengeStore.RecentIssueCount | services/email_auth.py:263-268 | the counting loop counts the recent challenges of the email |
| EmailAuth.ChallengeStore.IssueChallenge | services/email_auth.py:94-119 | issuing counts, then stores one challenge |
| EmailAuth.ChallengeStore.Consume | services/email_auth.py:275-303 | consuming succeeds exactly for a consumable challenge and marks it |
| Secrets.SecretStore.PutSecret | services/cryptography.py:120-158 | putting appends a version and an audit row |
| Secrets.SecretStore.RevealLatest | services/cryptography.py:160-171 | revealing decrypts the newest version and records it |
| Secrets.SecretStore.RevokeLatest | services/cryptography.py:173-177 | revoking replaces the newest record in place |
| Secrets.SecretStore.DestroyLatest | services/cryptography.py:179-196 | destroying replaces the newest revoked record, without its ciphertext and key |
| Artifacts.ArtifactStore.PutArtifact | services/artifact_outputs.py:68-145 | object file and row are written as specified |
| Artifacts.ArtifactStore.ReadArtifact | services/artifact_outputs.py:147-171 | row and object file are read and checked as specified |
| Conversations.Archive.SearchReplay | services/desktop_identity_server_core.py:419-419 | the search finds the first message with the id |
| Conversations.Archive.SendMessage | services/desktop_identity_server_core.py:412-440 | sending extends, replays or refuses as specified |

## Left out

- HTTP handling, OAuth, JWT and token exchange, DPAPI, sockets, file walking, JSON and SQLite text: foreign code; completion of a sign-in is one nondeterministic outcome.
- `services.identity`, migrations, `src.*`, `managed_credit_store`, `execution_coordinator` and `privacy_retention` are not part of this model.
- SignIn: iterating a dictionary is one step, so a `RuntimeError` for a dictionary that changes during iteration is not modelled; session restoration is left out and the refresh-credential store is reduced to whether saving succeeds; the argument checks of `start` and the trimming of a rejection's reason are left out.
- SignInRuns.CallbacksAgree: excludes states whose outcome was evicted, dropped from the error list, rejected, ended by an exception nobody handles, or published before its credential failed to be saved; `SignInDisagree` shows for each of the five a run in which callbacks differ.
- IdentityTables: `issue`, `verify` and `add_link` are atomic here, while the code reads the account in one connection and writes in another.
- IdentityTables: the random primary key of a link row, timestamps of rows and the JSON payloads of audit rows are not modelled; an audit row keeps its action, subject and refusal.
- IdentityRuns: the purge of `privacy_retention` and the second SQLite store of `sqlite_central_identity.py` are left out, but for the `get_account` that session verification uses.
- IdentityAgreement.ListSimulates: compares what is listed and not the order, which differs in general and is settled by `IdentityListing.ListOrderExactly`; the issuer shown with a link outside of a namespace is not compared, because SQL does not keep it.
- UsageSpec: decimals are exact reals, so the rounding of `Decimal` contexts is not modelled; the model and provider registry is fixed during a run, and evidence fields that only copy the request are kept as they are.
- CommercialAccess: the managed-credit ledger calls are left out; blank-text and time-zone checks are taken as the type of the arguments.
- DigitalGoods: registering a product keeps only price, currency and activity; currency normalization and manifest checks are left out.
- `commercial_webhook.py`: signature headers, HMAC and payload parsing are left out; only the two event alphabets are used.
- EmailAuth: counting and storing are one step for sequential issuing; the text order of `isoformat` stamps, which is not chronological within one second, is left out in favour of integer times.
- Secrets: an exception inside the cipher or the key provider is not modelled, nor the admission of algorithms by the profile.
- Artifacts: the temporary file and its rename are one step.
- Conversations: symbolic links, file sizes and the temporary file are left out; the field checks of a request are reduced to the operation at hand.
- `agent_registry.py`, `capability_registry.py`, `commercial_plans.py`, plan builders, renderers and validators: fixed tables or single branches that would only add easy members.
