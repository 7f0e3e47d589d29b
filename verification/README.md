# A verified model of idcat

idcat is a token broker. A caller presents a bearer token; idcat checks it against a validated
configuration, narrows the grant to a scope, and mints a GitHub installation token or serves one from a
cache that concurrent requests share. This project models that path and the text protocols around it, and
proves what they promise.

`dafny verify dfyconfig.toml` checks the whole project.

## How the model is laid out

| part | files |
|---|---|
| Text, lookups, encodings | `Wrappers`, `Text`, `Base64Url` |
| Configuration and its validator | `Configuration`, `Validation` |
| Authorization | `Authzoo`, `Glob`, `Service`, `Authorization`, `Grants` |
| The GitHub client, one call at a time, as a class | `Github` |
| From the HTTP request to the client | `Handlers` |
| Concurrent calls over the shared cache, as a state machine | `Broker` |
| Results about all runs | `Freshness`, `Refinement`, `Solo`, `Runs`, `Serial`, `Cancellation`, `EndToEnd` |
| Text protocols | `Credential`, `CredentialFormat`, `CredentialRepo`, `Nats`, `Jwt` |

**Concurrency.** A call of `create_installation_token` is a sequence of atomic steps: read the clock, look
the token up, build the JWT, look the id up, hear GitHub's answers, insert the id, post, read the clock for
the deadline, insert the token. The cache's mutex is held within a step and never across two, and the clock
is read before the mutex is taken, as in the source. A state holds the clock, both maps, every call with the
point it has reached, and the history of resolutions, posts and deadlines. A run is any sequence of enabled
steps of any number of calls; a call may be dropped at any point, as happens when a client disconnects. An
`Environment` says what GitHub, the clock and the callers may do; the results about provenance and scope
allow anything, and the results about one key restrict the calls for that key only.

**Libraries.** The code of authzoo, wildmatch, `Url::parse` and serde is not part of this model.
Verifying a bearer token, accepting a role's trust settings, accepting a claim requirement and parsing a URL
are arbitrary functions, and every result holds for all of them. Two things are fixed: an authzoo role
matches a token when the base checks hold and every entry of its claims is satisfied, and role names must be
distinct. A glob pattern is a recursive relation in which `*` stands for any run of characters, `/` included,
and `?` for exactly one. GitHub is an arbitrary answerer, except where a result says that its installations
do not change during the run. Signing is an arbitrary function.

**Time.** Instants are nanoseconds as natural numbers. The fifty minutes of the cache are exact, and the results
state them as 3,000,000,000,000 nanoseconds rather than by the constant the client computes with.

## Main results

- *Validator.* `validate` accepts exactly the configurations that satisfy an order-free predicate, and
  otherwise reports the first fault in the order of checking, down to the claims of one policy, which are
  visited in the order of their names.
- *Authorization.* What a token gets is decided exactly, in the terms of the configuration alone: everything if
  a configured role that the app allows matches it, otherwise what the first policy that allows it names. A policy of an accepted configuration asks for its role and its own claims and, with
  self-access, the requested repository or owner. That the overriding `extend` loses nothing follows from the
  validator's duplicate-claim checks, and a concrete role, policy and token show what would go wrong without
  them. Patterns decompose at the slash although `*` may match it.
- *Every interleaving.* A returned token was minted by a post that was built for exactly the caller's app,
  target and scope and addressed to an installation that GitHub named for that app and target. The three
  shapes a post's body can have are each justified by the caller's own authorization; a grant by a policy
  means that the token meets the policy's role as configured and all of the policy's claims.
- *One call.* A call that nothing but time disturbs ends with exactly the cache, token and post of the
  sequential client.
- *Refinement.* When GitHub's installations do not change, every run of the cached, concurrent client looks
  like a run of a client without a cache. That client posts what each request asks for, and refuses only for
  cause: signing failed, the lookup has no answer, or GitHub broke or refused. In place of posting, a
  request that has noted an instant may be handed an earlier answer again, if that answer was given to an
  identical request and stamped less than fifty minutes before the instant. A caller may leave at any time.
- *Freshness.* A hit serves a token whose minter computed its deadline less than fifty minutes before.
  Tokens are never served expired if and only if they live fifty minutes and the mint-to-deadline latency.
- *Spacing.* When the calls for one key do not overlap, two mints for it are fifty minutes apart unless the
  call that made the earlier one was dropped, and every call in between gets the earlier token. All mints
  for a key are spaced in all runs if and only if its calls may neither overlap nor be dropped between mint
  and insertion. Calls for other keys do as they please.
- *Text protocols.* The stream reader and the parser of git credentials agree on every text; printing and
  reading, rendering and parsing repository paths, splitting NATS subjects and JWTs are round trips, with
  the exact conditions.

## What the source does that its documentation does not say

- The repository's README (lines 228-229) says that tokens are cached per app and repository. The code's key
  also holds the scope (`src/github.rs:75-80`), and the result that a cached token is never broader than its
  reader's grant rests on that. The model follows the code.
- The validator accepts NATS `subject-base` values with empty tokens: dots alone, a leading dot, two dots in
  a row. Their subjects have empty tokens too; a subject has none exactly when the trimmed base has none.
- A repository whose name ends in `.git` is read as the name without it, unless a further `.git` follows.
- A call that is dropped after GitHub minted its token and before the insertion loses the token, and the next
  call mints again.

## Model

| member | source | states |
|---|---|---|
| Validation.Validate | src/config.rs:234-590 | Accepts exactly the well-formed configurations; otherwise reports a fault that is there while none that is checked earlier is, across all phases and entries |
| Validation.FirstFaultIsUnique | src/config.rs:234-590 | There is at most one first fault, so what `Validate` reports is determined |
| Validation.NatsBlockMissingWhen | src/config.rs:252-258 | The missing block is what is reported exactly when it is missing, some app has the target, and the checks before this one pass |
| Validation.AcceptedNatsUse | src/config.rs:252-258 | An accepted configuration in which some app has the target has the block |
| Validation.CheckServer | src/config.rs:235-285 | Reports the first fault outside the apps and policies, and none exactly when there is none |
| Validation.CheckApp | src/config.rs:287-336 | Reports the first fault of one app, with duplicates decided by the set of the earlier apps' names |
| Validation.CheckClaims | src/config.rs:380-400 | Visiting the claims in the order of their names, reports the first fault of a single claim, and none exactly when every claim has a name, is accepted by authzoo and is not a claim of the role |
| Validation.CheckPolicyTarget | src/config.rs:339-369 | Reports the first fault in whom a policy is for, what it covers and which role it needs |
| Validation.CheckPolicyClaims | src/config.rs:370-422 | Reports the first fault, down to the claim, that would let a policy's claims, or its self-access claim, meet those of its role |
| Validation.CheckSelfAccess | src/config.rs:401-422 | Reports the first of the two ways in which the self-access claim can meet the policy's or the role's claims |
| Validation.CheckInstallationPolicy | src/config.rs:338-430 | Reports the first fault of an installation policy, permissions last |
| Validation.CheckOwnerPolicy | src/config.rs:453-546 | Reports the first fault of an owner policy, permissions before claims |
| Validation.CheckGrants | src/config.rs:337-588 | Reports the first fault among policies and ungranted apps, given that nothing before them is at fault |
| Validation.WellFormedIffFaultless | src/config.rs:234-590 | The declarative predicate holds exactly when no check has anything to report |
| Validation.DisablingAuthHidesFaults | src/config.rs:278-337 | Every fault shown with authentication disabled is shown with it enabled |
| Configuration.DisablingAuthKeepsAcceptance | src/config.rs:278-337 | What `validate(false)` accepts `validate(true)` accepts; the difference is the need for roles and the grant checks |
| Configuration.RepoPatternShape | src/config.rs:597-611 | A repository pattern is valid exactly when it is `*` or two non-empty halves around its only slash |
| Configuration.InstallationPolicyForm | src/config.rs:338-430 | The shared form of the checks asks of an installation policy exactly what the predicate on the policy's own fields asks |
| Configuration.OwnerPolicyForm | src/config.rs:453-546 | The same for an owner policy |
| Configuration.UsesNatsMeaning | src/config.rs:252-255 | The target counts exactly when some app has it |
| Configuration.RelativeFileMeaning | src/config.rs:303-306 | A secret key is accepted exactly when it does not start with a slash and has no two dots in a row |
| Configuration.WhitespaceCodePoints | src/config.rs:266 | The whitespace that a subject base may not have, by its code points |
| Text.ContainsTextMeaning | src/config.rs:305 | A secret key contains `..` exactly when it is some text before, the dots, and some text after |
| Text.LexLessMeaning | src/config.rs:381 | Claims are visited in the order of their names' first difference |
| Glob.SplitPattern | idcat.toml.example:92-95 | A pattern in two halves matches a text exactly when the text splits into two parts that the halves match |
| Glob.SlashDecomposition | src/config.rs:597-611 | For a slash-free owner and name, `o/n` matches `owner/name` exactly when `o` matches the owner and `n` the name |
| Glob.SlashSplit | src/service.rs:129-132 | For any text, `p/q` matches exactly around one of the text's slashes |
| Glob.LiteralMatches | idcat.toml.example:92-95 | A pattern without wildcards matches only itself |
| Glob.QuestionMarkMatches | src/service.rs:132 | `?` matches every single character and nothing else |
| Glob.LiteralOwnerFences | idcat.toml.example:92-95 | A literal owner in a pattern is the owner under which any matching text is looked up |
| Authorization.GithubAppIsFirst | src/service.rs:83-89 | Finds the first configured app of that name, and fails exactly when there is none |
| Authorization.FindIsFirst | src/service.rs:124-138 | What is found is the first accepted entry by position |
| Authorization.RepositoryGrants | src/service.rs:91-149 | Granted exactly when an allowed role or an installation policy matches; roles first with the broad scope, else the first matching policy's permissions on the one repository |
| Grants.RepositoryDecision | src/service.rs:91-149 | On an accepted configuration: everything exactly when a configured role that the app allows matches the token, else the first policy that allows it with its permissions on that repository, else `NoMatchingGrant` |
| Authorization.OwnerGrants | src/service.rs:155-210 | Granted exactly when an allowed role or an owner policy matches; roles first, else the first matching policy's permissions on all repositories |
| Grants.OwnerDecision | src/service.rs:155-210 | The same for an owner, on all repositories |
| Grants.AllowedRoleIff | src/service.rs:115-123 | The broad scope's condition is that a configured role listed by the app matches the token |
| Grants.InstallationPolicyMatchesIff | src/service.rs:124-138 | For any requested text, a policy applies exactly when it is for the app, a pattern matches, and the token satisfies its role, its claims and, with self-access, carries the repository |
| Grants.OwnerPolicyMatchesIff | src/service.rs:188-199 | The same for an owner policy, with the owner |
| Grants.DecisionsWithoutToken | src/service.rs:97-106 | Without a token nothing is granted with authentication; without authentication everything is granted and no role matches |
| Authorization.AcceptedState | src/service.rs:52-80 | An accepted configuration starts, with exactly its own apps, policies and roles |
| Authorization.AppendingKeepsGrants | src/service.rs:115-148 | Policies added at the end never change an existing grant |
| Authorization.ReorderingKeepsDecisions | src/service.rs:115-148 | Permuting policies never changes whether a request is granted |
| Authorization.DeletingUnmatchedKeepsResults | src/service.rs:179-209 | Deleting policies that do not match a request changes nothing about its result |
| Authorization.DisjointOverride | src/service.rs:300-301 | Overriding by claims the role does not have asks for both sets of claims |
| Authorization.SynthesisedClaim | src/service.rs:238-264 | The self-access claim asks for the requested subject on top of every required claim |
| Authorization.PolicyRoleMeaning | src/service.rs:288-310 | On an accepted configuration the check holds exactly when the token meets the base role, every required claim and, with self-access, the subject, and authzoo accepts the synthesised requirement |
| Authorization.PolicyGrantImpliesRole | src/service.rs:288-310 | A policy grant implies that the plain role matches too |
| Authorization.OverlappingClaimsWeakenRole | src/config.rs:391-421 | Without the duplicate-claim checks a policy can let through a token that its role rejects |
| Authorization.PatternCoversIffMatches | src/service.rs:129-132 | An accepted pattern matches `owner/name` exactly when it is `*` or its halves match owner and name |
| Authorization.InstallationPolicyMeaning | src/service.rs:124-138 | An accepted installation policy applies exactly when it is for the app, covers owner and name side by side, and the token meets it |
| Authorization.OwnerPolicyMeaning | src/service.rs:188-199 | An accepted owner policy applies exactly when it is for the app, a pattern matches the owner, and the token meets it |
| Authzoo.RolesByNameFinds | src/service.rs:297-299 | With distinct names, looking a role up by name finds that role |
| Authzoo.ValidatorAnswers | src/service.rs:281-286 | A validator answers a token with exactly the names of the configured roles that match it |
| Authzoo.RequirementKinds | src/config.rs:676-687 | What a text, a choice of texts and a list item ask of a claim |
| Handlers.BearerTokenForm | src/main.rs:456-470 | A bearer token is exactly the non-empty rest of a header that starts with the scheme; missing and empty ones are told apart |
| Handlers.HandleOutcome | src/main.rs:418-454 | Bearer errors first where authentication is on, then unknown apps, then the authorization of exactly this request; without authentication every known app is granted broadly |
| Handlers.HandledRequest | src/main.rs:384-454 | With authentication, the answer is exactly what the first app of that name's authorization of `owner/repo`, or of the owner, says, for exactly that repository or owner |
| Handlers.HandledTarget | src/main.rs:384-416 | A handled request is for the owner, or the repository, in its path |
| Handlers.HandledRequestsAreMintable | src/main.rs:244-264 | From the handlers, neither of the client's two refusals can arise, and the app is the one named in the request |
| Github.IdKeyInjective | src/github.rs:56-61 | The id-cache key separates apps and targets for all slash-free app names and all targets whatsoever |
| Github.IdKeyNeedsSlashFreeNames | src/config.rs:291-293 | With slashes in app names, two apps can share a key |
| Github.ScopedNameIsLookupName | src/github.rs:94-117 | The repository named in a request body is the one whose installation was looked up |
| Github.TokenRequestForms | src/github.rs:94-117 | A body names one repository exactly where the scope is limited to it, and permissions exactly where the scope names some; a limited scope for an owner is refused |
| Github.ResolveByCases | src/github.rs:280-377 | An owner is asked about as an organization, and as a user exactly after that 404; a repository under the owner before its first slash |
| Github.GithubClient.CachedInstallationToken | src/github.rs:422-434 | Serves an entry until its refresh time, exclusively |
| Github.GithubClient.CacheInstallationToken | src/github.rs:436-449 | Replaces exactly this key's entry, to be refreshed 3,000 seconds after the clock reading |
| Github.GithubClient.CachedInstallationId | src/github.rs:379-420 | Answers from the cache or by the lookup with its fallback, and stores only successful lookups |
| Github.GithubClient.CreateInstallationToken | src/github.rs:157-258 | Cache afterwards, token and post are those of the sequential specification |
| Solo.UndisturbedCallsAgree | src/github.rs:157-258 | In every run in which only time passes besides one call's own steps, the call ends with exactly the cache, token and post of the sequential client, and touches no other call |
| Runs.UndisturbedCall | src/github.rs:157-258 | From any state there is a run in which a new call has the outcome of the sequential client |
| Broker.StepKeepsInv | src/github.rs:157-449 | Every step of any call keeps what is known of both maps, all calls in flight and all posts |
| Broker.RunExtends | src/github.rs:255-449 | No run ever removes a cache entry or takes back history |
| Broker.CachedIdIsResolved | src/github.rs:385-398 | A cached id was resolved by GitHub for exactly the app and target that finds it |
| Broker.SameKeySameRequest | src/github.rs:164-168 | A token-cache key determines app, target and scope |
| Broker.SameNameSameApp | src/service.rs:83-89 | With accepted names, the name determines the app |
| Broker.ReturnedTokenProvenance | src/github.rs:157-258 | In every interleaving a returned token comes from a post built for exactly the caller's app, target and scope, at an installation resolved for exactly that app and target |
| Broker.RefusalsUnreachable | src/github.rs:99-112 | In no run does a call fail because its repository has no slash or its scope has no repository |
| Broker.UserAskedAfterOrganization | src/github.rs:320-347 | In every run, a call that asks about a user was told before that GitHub knows no such organization |
| Refinement.CachedIdsAreTheDirectorys | src/github.rs:379-420 | With unchanging installations every cached id is the one at the organization's path, else after its 404 the one at the user's, or the one at the repository's path |
| Refinement.RacingInsertIsNoOp | src/github.rs:408-412 | An id inserted over one that a racing call inserted changes nothing |
| Refinement.PostIsTheUncachedPost | src/github.rs:177-205 | Each post is the one an uncached client sends for the same request |
| Refinement.FailedLookupsHaveNoInstallation | src/github.rs:280-377 | Where GitHub does not break, a call only fails its lookup when the directory has no installation for its app and target |
| Refinement.HitIsReusable | src/github.rs:422-434 | What a call finds in the cache was given to an identical request and stamped less than fifty minutes before its clock reading |
| Refinement.CachedClientRefinesPlain | src/github.rs:157-449 | Each step in any interleaving is a move of a client without a cache, which posts, refuses only for cause, or may hand over again an identical request's answer that was stamped less than fifty minutes before the instant the request noted |
| Refinement.RunRefinesPlain | src/github.rs:157-449 | Every run looks like a run of that client without a cache, answers that are handed over again included |
| Freshness.HitsAreFresh | src/github.rs:422-449 | In every run, a hit at a sampled instant serves a token whose minter computed its deadline less than fifty minutes before it |
| Freshness.LongLivedTokensAreUnexpired | src/github.rs:22 | With latency at most D, tokens that live fifty minutes and D are never served expired |
| Runs.LifetimeBoundIsExact | src/github.rs:422-449 | Tokens are never served expired if and only if they live at least fifty minutes and the latency |
| Serial.MintsAreSpaced | src/github.rs:164-176 | When the calls for one key do not overlap, two mints for it are at least fifty minutes apart, unless the call that made the earlier one was dropped |
| Serial.RecentMintIsServed | src/github.rs:422-434 | When the calls for one key do not overlap, one whose clock reading falls within fifty minutes of a mint by a call that was not dropped is served exactly that mint's token |
| Serial.HitsServeLatestMint | src/github.rs:255-257 | When the calls for one key do not overlap, a hit serves the key's latest mint, but for those of dropped calls |
| Runs.RacingCallsMintTwice | src/github.rs:169-176 | Without any call being dropped, overlapping calls can mint twice for one key at one instant |
| Cancellation.DroppedMintIsRepeated | src/github.rs:255-257 | Calls for a key that do not overlap can mint twice at one instant when one is dropped before it stores its token |
| Cancellation.SpacedExactlyWhen | src/github.rs:164-258 | All mints for a key are fifty minutes apart in all runs if and only if its calls may neither overlap nor be dropped while they hold a mint |
| EndToEnd.PreparedIsJustified | src/main.rs:384-454 | For an accepted configuration, the body prepared for a request is empty because a configured role that the app allows matches the token, or names the requested repository with the permissions of a policy that allows it, or names none with those of an owner policy that allows it |
| EndToEnd.HandledExactlyWhen | src/main.rs:418-454 | With authentication a request is passed on exactly when it is for a configured app and carries a bearer token that an allowed role or a policy covers |
| EndToEnd.EveryPostIsJustified | src/service.rs:91-210 | In every interleaving, every post is so justified by its caller's own bearer token, signed for the requested app, and addressed to an installation that GitHub named for the owner or repository of that request |
| EndToEnd.ReturnedTokensAreJustified | src/github.rs:649-688 | In every interleaving, the post that minted a caller's token is one that the caller's own request justifies, also when another call made it |
| EndToEnd.RequestedName | src/main.rs:249 | For an owner without a slash, the text before and after the first slash is the requested owner and repository |
| EndToEnd.WithoutAuthEveryPostIsBroad | src/service.rs:97-104 | Without authentication every post asks for everything |
| EndToEnd.FencedGrantsStayWithOwner | src/service.rs:129-132 | A policy with a literal owner grants only repositories that are looked up under that owner, whatever the requested text and the other policies |
| EndToEnd.PoliciesNamePermissions | src/config.rs:423-430 | No accepted policy is without permissions |
| Credential.ParseCredential | git-credential-helper/src/credential.rs:40-64 | Reads the meaning of a text, errors included |
| Credential.ReadCredential | git-credential-helper/src/credential.rs:17-38 | Reads the same meaning from the whole stream: its blank-line stop and the parser's agree |
| Credential.CredentialMap.MergeUrl | git-credential-helper/src/credential.rs:66-89 | Adds the URL's protocol, host and path under whatever is given explicitly |
| Credential.UrlOnlyAdds | git-credential-helper/src/credential.rs:66-89 | Explicit attributes are never changed, and only protocol, host and path are added |
| Credential.LinesAppend | git-credential-helper/src/credential.rs:43 | The lines of whole lines followed by more text are the lines of both |
| Credential.LastLine | git-credential-helper/src/credential.rs:43 | A last line without a newline is a line as it stands |
| Credential.CollectStops | git-credential-helper/src/credential.rs:43-46 | Nothing from the first blank line on matters |
| Credential.PrintRoundTrip | git-credential-helper/src/credential.rs:40-64 | Printing any sequence of printable attributes and reading it back gives the last-wins map, whatever follows a blank line |
| Credential.LastWinsMeaning | git-credential-helper/src/credential.rs:56 | The map holds exactly the given keys, each with its last value |
| CredentialFormat.CollectMeaning | git-credential-helper/src/credential.rs:43-57 | A text is read exactly when every line before the first blank one is an attribute; otherwise the first bad line is reported |
| CredentialFormat.SurvivesIffPrintable | git-credential-helper/src/credential.rs:40-64 | An attribute other than `url` survives printing and reading exactly when it is printable |
| CredentialFormat.TrailingReturnIsLost | git-credential-helper/src/credential.rs:43 | A carriage return at the end of a value is lost |
| CredentialRepo.RepoRoundTrip | git-credential-helper/src/credential.rs:104-122 | A rendered path, with any extra slashes, optional `.git` and any tail, parses back exactly when the name does not end in `.git` or a further one is written |
| CredentialRepo.RepoFromPathIff | git-credential-helper/src/credential.rs:104-122 | Exactly which paths are about a repository: its owner and name between slashes, with or without `.git`, and whatever follows; all others are about none |
| Text.EndsWithMeaning | git-credential-helper/src/credential.rs:112 | A name ends in `.git` exactly when it is some text and `.git` |
| CredentialRepo.RepoPartsAreNames | git-credential-helper/src/credential.rs:104-122 | Every result has non-empty, slash-free parts |
| CredentialRepo.TrimmedPathSameRepo | git-credential-helper/src/credential.rs:83-88 | The path a URL supplies names the same repository as the URL's own |
| CredentialRepo.UrlNamesGithubIff | git-credential-helper/src/credential.rs:91-98 | What a URL supplies is a request for GitHub exactly when scheme and host are GitHub's and no port is reported |
| CredentialRepo.GithubHostForms | git-credential-helper/src/credential.rs:95-97 | The host is GitHub's exactly when each character is the small or the capital letter |
| CredentialRepo.UrlRequest | git-credential-helper/src/credential.rs:66-102 | A request stated as a URL alone is one for GitHub exactly when the URL parses and names GitHub, and is about the repository of the URL's own path |
| CredentialRepo.SameButForCase | git-credential-helper/src/credential.rs:97 | Case is ignored for the twenty-six letters only |
| CredentialRepo.UrlRepo | git-credential-helper/src/credential.rs:83-102 | The path a URL supplies gives the repository that the URL's own path gives, and none where that gives none |
| Nats.SubjectForGithubWebhook | src/nats.rs:72-94 | The subject is base and event, followed by owner and name exactly when both are found and not empty; splitting it gives the trimmed base's tokens and then these |
| Nats.SubjectForm | src/nats.rs:72-83 | The subject written out: base, event, and owner and name if both are found |
| Nats.WebhookTokensAreTokens | src/nats.rs:72-109 | One or three tokens follow the base, each non-empty over letters, digits, `_` and `-` |
| Nats.SubjectTokenMeaning | src/nats.rs:96-109 | Any text becomes a safe token, and a safe token stays as it is |
| Nats.SubjectTokenForm | src/nats.rs:96-109 | Letters, digits, `_` and `-` are kept, everything else becomes `_`, and the empty text `unknown` |
| Nats.ConnectedSubject | src/nats.rs:27-30 | Trimming the base on connecting does not change the subjects |
| Nats.SubjectValidIffBaseValid | src/nats.rs:72-83 | A subject has no empty token exactly when the trimmed base has none |
| Nats.EmptyTokensAreAccepted | src/config.rs:262-268 | The validator accepts three kinds of base whose subjects have an empty token |
| Base64Url.DecodeEncode | src/jwt.rs:62-65 | Decoding undoes encoding |
| Base64Url.EncodeDecode | src/jwt.rs:62-65 | Every text that decodes is the encoding of what it decodes to |
| Jwt.JwtReadsBack | src/jwt.rs:33-60 | Splitting a JWT at its dots gives exactly three parts that decode to the header, the claims for this app and instant, and the signature of the first two |
| Jwt.JwtOutcome | src/jwt.rs:33-60 | There is a JWT exactly when the expiry fits in 64 bits and the signer signs header and claims |
| Jwt.ClaimsTextForm | src/jwt.rs:62-65 | The claims part as it is written |
| Jwt.ClaimsWindow | src/jwt.rs:38-46 | `iat` is sixty seconds before now or 0, `exp - iat` is 540 and `iat <= now < exp`, with the app's id as issuer, for exactly the instants that do not overflow |
| Jwt.ClaimsTextReadsBack | src/jwt.rs:62-65 | The serialised claims read back as the claims |

## Left out

- Authzoo.NewValidator: authzoo is not part of this model; the reasons for which it refuses a role are an arbitrary function of the role's name and trust settings and of each claim requirement, next to distinct names. Its list of matched roles is a set.
- Jwt.ClaimsWindow: where `exp` does not fit in 64 bits the model has an error; the source panics or wraps, depending on how it is built.
- How long an answer takes to reach the caller: freshness speaks of the instant at which the call read the clock.
- Signers that cannot be built: such a request ends before the client is called, as if it had not begun. One that fails to sign is the failing `Sign` step.
- Streams that fail or are not UTF-8: git credentials are read from a text.
- The two spellings of a policy's patterns (`repository` or `repositories`, `owner` or `owners`), of which exactly one must be given: a four-way match without an invariant.
- Messages, and warnings about unknown permissions and an unused `[nats]` block: they do not affect any result.
- The bytes of requests and answers: token requests are records of optional fields; HTTP, TLS and headers are not modelled.
- The proxy endpoint: it uses the repository token flow and then forwards.
- RSA, KMS, HMAC, webhook validation, secret and token files, the NATS connection, the command line.
