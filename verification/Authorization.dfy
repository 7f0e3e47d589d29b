// What authorization means for a configuration that `validate` accepted.
module Authorization {
  import opened Wrappers
  import opened Text
  import opened Authzoo
  import opened Configuration
  import opened Glob
  import opened Service

  // ----- First match -----

  lemma {:induction false} FindIsFirst<T>(items: seq<T>, accepts: T -> bool)
    ensures Find(items, accepts).Some? ==> exists i ::
      && 0 <= i < |items| && items[i] == Find(items, accepts).value && accepts(items[i])
      && forall j :: 0 <= j < i ==> !accepts(items[j])
  {
    if items == [] {
    } else if accepts(items[0]) {
      assert items[0] == Find(items, accepts).value;
    } else if Find(items[1..], accepts).Some? {
      FindIsFirst(items[1..], accepts);
      var i :| && 0 <= i < |items| - 1 && items[1..][i] == Find(items[1..], accepts).value
               && accepts(items[1..][i]) && forall j :: 0 <= j < i ==> !accepts(items[1..][j]);
      assert items[i + 1] == items[1..][i];
      assert forall j :: 1 <= j < i + 1 ==> items[j] == items[1..][j - 1];
    }
  }

  /** A request is for the first app of that name, and fails only where there is none. */
  lemma GithubAppIsFirst(s: AppState, name: string)
    ensures GithubApp(s, name).Err? <==> forall app :: app in s.githubApps ==> app.name != name
    ensures GithubApp(s, name).Ok? ==> exists i ::
      && 0 <= i < |s.githubApps| && s.githubApps[i] == GithubApp(s, name).value && s.githubApps[i].name == name
      && forall j :: 0 <= j < i ==> s.githubApps[j].name != name
  {
    FindIsFirst(s.githubApps, (app: GithubAppConfig) => app.name == name);
  }

  lemma {:induction false} FindAppend<T>(items: seq<T>, more: seq<T>, accepts: T -> bool)
    ensures Find(items + more, accepts) ==
      if Find(items, accepts).Some? then Find(items, accepts) else Find(more, accepts)
  {
    if items == [] {
      assert items + more == more;
    } else {
      assert (items + more)[1..] == items[1..] + more;
      FindAppend(items[1..], more, accepts);
    }
  }

  function Filter<T>(items: seq<T>, keeps: T -> bool): (r: seq<T>) {
    if items == [] then []
    else (if keeps(items[0]) then [items[0]] else []) + Filter(items[1..], keeps)
  }

  lemma {:induction false} FindFilter<T>(items: seq<T>, keeps: T -> bool, accepts: T -> bool)
    requires forall item :: item in items && accepts(item) ==> keeps(item)
    ensures Find(Filter(items, keeps), accepts) == Find(items, accepts)
  {
    if items == [] {
    } else {
      FindFilter(items[1..], keeps, accepts);
      FindAppend(if keeps(items[0]) then [items[0]] else [], Filter(items[1..], keeps), accepts);
    }
  }

  lemma FindPermute<T>(items: seq<T>, permuted: seq<T>, accepts: T -> bool)
    requires multiset(items) == multiset(permuted)
    ensures Find(items, accepts).Some? <==> Find(permuted, accepts).Some?
  {
    forall item ensures item in items <==> item in permuted {
      assert item in items <==> item in multiset(items);
      assert item in permuted <==> item in multiset(permuted);
    }
  }

  // ----- Authorization as first match -----

  /** The first matching installation policy, by position. */
  ghost predicate FirstInstallationPolicy(s: AppState, app: GithubAppConfig, repo: string, token: string, i: nat) {
    && i < |s.installationPolicies|
    && InstallationPolicyMatches(s.validator, app, repo, token, s.installationPolicies[i])
    && forall j :: 0 <= j < i ==> !InstallationPolicyMatches(s.validator, app, repo, token, s.installationPolicies[j])
  }

  ghost predicate FirstOwnerPolicy(s: AppState, app: GithubAppConfig, owner: string, token: string, i: nat) {
    && i < |s.ownerPolicies|
    && OwnerPolicyMatches(s.validator, app, owner, token, s.ownerPolicies[i])
    && forall j :: 0 <= j < i ==> !OwnerPolicyMatches(s.validator, app, owner, token, s.ownerPolicies[j])
  }

  /** A repository request is granted exactly when an allowed role or an installation policy matches;
      roles come first and give the broad scope, and otherwise the first matching policy decides. */
  lemma RepositoryGrants(s: AppState, app: GithubAppConfig, repo: string, token: string)
    requires s.validator.AuthEnabled()
    ensures var r := AuthorizeGithubApp(s, app, repo, Some(token));
      && (r.Ok? <==> (AllowedRoleMatches(s.validator, app, token) || exists p ::
            p in s.installationPolicies && InstallationPolicyMatches(s.validator, app, repo, token, p)))
      && (AllowedRoleMatches(s.validator, app, token) ==> r == Ok(BROAD))
      && (r.Ok? && !AllowedRoleMatches(s.validator, app, token) ==> exists i: nat ::
            && FirstInstallationPolicy(s, app, repo, token, i)
            && r.value == TokenScope(OnlyRequested, s.installationPolicies[i].permissions))
  {
    FindIsFirst(s.installationPolicies, p => InstallationPolicyMatches(s.validator, app, repo, token, p));
    var r := AuthorizeGithubApp(s, app, repo, Some(token));
    if r.Ok? && !AllowedRoleMatches(s.validator, app, token) {
      var i: nat :| FirstInstallationPolicy(s, app, repo, token, i)
        && r.value == TokenScope(OnlyRequested, s.installationPolicies[i].permissions);
    }
  }

  lemma OwnerGrants(s: AppState, app: GithubAppConfig, owner: string, token: string)
    requires s.validator.AuthEnabled()
    ensures var r := AuthorizeOwner(s, app, owner, Some(token));
      && (r.Ok? <==> (AllowedRoleMatches(s.validator, app, token) || exists p ::
            p in s.ownerPolicies && OwnerPolicyMatches(s.validator, app, owner, token, p)))
      && (AllowedRoleMatches(s.validator, app, token) ==> r == Ok(BROAD))
      && (r.Ok? && !AllowedRoleMatches(s.validator, app, token) ==> exists i: nat ::
            && FirstOwnerPolicy(s, app, owner, token, i)
            && r.value == TokenScope(All, s.ownerPolicies[i].permissions))
  {
    FindIsFirst(s.ownerPolicies, p => OwnerPolicyMatches(s.validator, app, owner, token, p));
    var r := AuthorizeOwner(s, app, owner, Some(token));
    if r.Ok? && !AllowedRoleMatches(s.validator, app, token) {
      var i: nat :| FirstOwnerPolicy(s, app, owner, token, i)
        && r.value == TokenScope(All, s.ownerPolicies[i].permissions);
    }
  }

  /** Adding policies at the end never changes a grant already made. */
  lemma AppendingKeepsGrants(
    s: AppState, installation: seq<InstallationPolicyConfig>, owner: seq<OwnerPolicyConfig>,
    app: GithubAppConfig, subject: string, bearer: Option<string>)
    ensures var s' := s.(installationPolicies := s.installationPolicies + installation,
                         ownerPolicies := s.ownerPolicies + owner);
      && (AuthorizeGithubApp(s, app, subject, bearer).Ok? ==>
            AuthorizeGithubApp(s', app, subject, bearer) == AuthorizeGithubApp(s, app, subject, bearer))
      && (AuthorizeOwner(s, app, subject, bearer).Ok? ==>
            AuthorizeOwner(s', app, subject, bearer) == AuthorizeOwner(s, app, subject, bearer))
  {
    if bearer.Some? {
      if AuthorizeGithubApp(s, app, subject, bearer).Ok? {
        AppendedInstallation(s, installation, s.ownerPolicies + owner, app, subject, bearer.value);
      }
      if AuthorizeOwner(s, app, subject, bearer).Ok? {
        AppendedOwner(s, s.installationPolicies + installation, owner, app, subject, bearer.value);
      }
    }
  }

  lemma AppendedInstallation(
    s: AppState, installation: seq<InstallationPolicyConfig>, owner: seq<OwnerPolicyConfig>,
    app: GithubAppConfig, repo: string, token: string)
    requires AuthorizeGithubApp(s, app, repo, Some(token)).Ok?
    ensures var s' := s.(installationPolicies := s.installationPolicies + installation, ownerPolicies := owner);
      AuthorizeGithubApp(s', app, repo, Some(token)) == AuthorizeGithubApp(s, app, repo, Some(token))
  {
    FindAppend(s.installationPolicies, installation,
      p => InstallationPolicyMatches(s.validator, app, repo, token, p));
  }

  lemma AppendedOwner(
    s: AppState, installation: seq<InstallationPolicyConfig>, owner: seq<OwnerPolicyConfig>,
    app: GithubAppConfig, subject: string, token: string)
    requires AuthorizeOwner(s, app, subject, Some(token)).Ok?
    ensures var s' := s.(installationPolicies := installation, ownerPolicies := s.ownerPolicies + owner);
      AuthorizeOwner(s', app, subject, Some(token)) == AuthorizeOwner(s, app, subject, Some(token))
  {
    FindAppend(s.ownerPolicies, owner, p => OwnerPolicyMatches(s.validator, app, subject, token, p));
  }

  /** Reordering policies can change which one decides, never whether the request is granted. */
  lemma ReorderingKeepsDecisions(
    s: AppState, installation: seq<InstallationPolicyConfig>, owner: seq<OwnerPolicyConfig>,
    app: GithubAppConfig, subject: string, bearer: Option<string>)
    requires multiset(installation) == multiset(s.installationPolicies)
    requires multiset(owner) == multiset(s.ownerPolicies)
    ensures var s' := s.(installationPolicies := installation, ownerPolicies := owner);
      && (AuthorizeGithubApp(s', app, subject, bearer).Ok? <==> AuthorizeGithubApp(s, app, subject, bearer).Ok?)
      && (AuthorizeOwner(s', app, subject, bearer).Ok? <==> AuthorizeOwner(s, app, subject, bearer).Ok?)
  {
    if bearer.Some? {
      FindPermute(s.installationPolicies, installation,
        p => InstallationPolicyMatches(s.validator, app, subject, bearer.value, p));
      FindPermute(s.ownerPolicies, owner, p => OwnerPolicyMatches(s.validator, app, subject, bearer.value, p));
    }
  }

  /** Deleting policies that do not match the request changes nothing about it. */
  lemma DeletingUnmatchedKeepsResults(
    s: AppState, keepsInstallation: InstallationPolicyConfig -> bool, keepsOwner: OwnerPolicyConfig -> bool,
    app: GithubAppConfig, subject: string, token: string)
    requires forall p | p in s.installationPolicies ::
      InstallationPolicyMatches(s.validator, app, subject, token, p) ==> keepsInstallation(p)
    requires forall p | p in s.ownerPolicies ::
      OwnerPolicyMatches(s.validator, app, subject, token, p) ==> keepsOwner(p)
    ensures var s' := s.(installationPolicies := Filter(s.installationPolicies, keepsInstallation),
                         ownerPolicies := Filter(s.ownerPolicies, keepsOwner));
      && AuthorizeGithubApp(s', app, subject, Some(token)) == AuthorizeGithubApp(s, app, subject, Some(token))
      && AuthorizeOwner(s', app, subject, Some(token)) == AuthorizeOwner(s, app, subject, Some(token))
  {
    FindFilter(s.installationPolicies, keepsInstallation,
      p => InstallationPolicyMatches(s.validator, app, subject, token, p));
    FindFilter(s.ownerPolicies, keepsOwner, p => OwnerPolicyMatches(s.validator, app, subject, token, p));
  }

  // ----- What a policy asks of a token, once the configuration has been accepted -----

  /** The claims `claims_for_request` and `claims_for_owner_request` add to the policy's role. */
  function PolicyClaims(p: Policy, subject: string): map<string, ClaimRequirement> {
    if p.allowSelfAccess then p.requiredClaims[p.selfClaim := Equals(subject)] else p.requiredClaims
  }

  /** The token satisfies the plain role, and the policy's claims, and, where self-access is set,
      carries the requested subject in the self-access claim. */
  ghost predicate TokenMeetsPolicy(lib: Library, role: RoleConfig, p: Policy, subject: string, token: string) {
    && RoleMatches(lib, role, token)
    && SatisfiesAll(lib.verify(role.trust, token).value, p.requiredClaims)
    && (p.allowSelfAccess ==>
          var claims := lib.verify(role.trust, token).value;
          p.selfClaim in claims && claims[p.selfClaim] == ClaimValue.Text(subject))
  }

  /** An accepted configuration always starts, with its own apps, policies and roles. */
  lemma AcceptedState(build: Build, c: Config, disableAuth: bool)
    requires WellFormed(build, c, disableAuth)
    ensures RolesAccepted(build.authzoo, c.roles)
    ensures BuildAppState(build.authzoo, c, disableAuth).Some?
    ensures var s := BuildAppState(build.authzoo, c, disableAuth).value;
      && s.githubApps == c.githubApps
      && s.installationPolicies == c.installationPolicies && s.ownerPolicies == c.ownerPolicies
      && s.validator.lib == build.authzoo
      && s.validator.inner == if disableAuth then None else Some(RolesByName(c.roles))
  {
    RolesAcceptedMeaning(build.authzoo, c.roles);
  }

  /** Overriding a role's claims by claims it does not have asks for both sets of claims. */
  lemma DisjointOverride(claims: Claims, a: map<string, ClaimRequirement>, b: map<string, ClaimRequirement>)
    requires a.Keys !! b.Keys
    ensures SatisfiesAll(claims, a + b) <==> SatisfiesAll(claims, a) && SatisfiesAll(claims, b)
  {
    if SatisfiesAll(claims, a + b) {
      forall name | name in a ensures Satisfies(claims, name, a[name]) { assert (a + b)[name] == a[name]; }
      forall name | name in b ensures Satisfies(claims, name, b[name]) { assert (a + b)[name] == b[name]; }
    }
  }

  lemma SynthesisedClaim(claims: Claims, p: Policy, subject: string)
    requires p.allowSelfAccess ==> p.selfClaim !in p.requiredClaims
    ensures SatisfiesAll(claims, PolicyClaims(p, subject)) <==>
      && SatisfiesAll(claims, p.requiredClaims)
      && (p.allowSelfAccess ==> p.selfClaim in claims && claims[p.selfClaim] == ClaimValue.Text(subject))
  {
    if p.allowSelfAccess {
      var own := map[p.selfClaim := Equals(subject)];
      assert PolicyClaims(p, subject) == p.requiredClaims + own;
      DisjointOverride(claims, p.requiredClaims, own);
      assert SatisfiesAll(claims, own) <==> Satisfies(claims, p.selfClaim, own[p.selfClaim]);
    }
  }

  /** `validate_role_with_claims` on an accepted policy asks for the role AND the added claims: the
      overriding `extend` loses nothing, because the validator kept the two sets of claims apart. */
  lemma PolicyRoleMeaning(build: Build, c: Config, role: RoleConfig, p: Policy, validPattern: string -> bool,
                          subject: string, token: string)
    requires WellFormed(build, c, false)
    requires PolicyOk(build, c, p, validPattern) && role in c.roles && role.name == p.role
    ensures BuildAppState(build.authzoo, c, false).Some?
    ensures BuildAppState(build.authzoo, c, false).value.validator.ValidateRoleWithClaims(
              p.role, PolicyClaims(p, subject), token)
      <==> TokenMeetsPolicy(build.authzoo, role, p, subject, token)
           && (p.allowSelfAccess ==> build.authzoo.requirementAccepted(p.selfClaim, Equals(subject)))
  {
    AcceptedState(build, c, false);
    var lib := build.authzoo;
    var v := BuildAppState(lib, c, false).value.validator;
    RolesByNameFinds(lib, c.roles, role);
    assert ClaimsDisjoint(p, role);
    var added := PolicyClaims(p, subject);
    var extended := role.(claims := role.claims + added);
    SingleRole(lib, extended, token);
    ExtendedAccepted(build, c, role, p, subject);
    if lib.verify(role.trust, token).Some? {
      var claims := lib.verify(role.trust, token).value;
      DisjointOverride(claims, role.claims, added);
      SynthesisedClaim(claims, p, subject);
    }
  }

  lemma SingleRole(lib: Library, role: RoleConfig, token: string)
    ensures NewValidator(lib, [role]).Some? <==> RoleAccepted(lib, role)
    ensures NewValidator(lib, [role]).Some? ==>
      (role.name in MatchingRoles(lib, NewValidator(lib, [role]).value, token) <==> RoleMatches(lib, role, token))
  {
    assert [role][0] == role;
    if RoleAccepted(lib, role) { RolesByNameFinds(lib, [role], role); }
  }

  lemma ExtendedAccepted(build: Build, c: Config, role: RoleConfig, p: Policy, subject: string)
    requires RolesAccepted(build.authzoo, c.roles) && role in c.roles && ClaimsDisjoint(p, role)
    requires forall claim :: claim in p.requiredClaims ==>
      build.authzoo.requirementAccepted(claim, p.requiredClaims[claim])
    ensures RoleAccepted(build.authzoo, role.(claims := role.claims + PolicyClaims(p, subject)))
      <==> (p.allowSelfAccess ==> build.authzoo.requirementAccepted(p.selfClaim, Equals(subject)))
  {
    var i :| 0 <= i < |c.roles| && c.roles[i] == role;
    assert RoleAccepted(build.authzoo, c.roles[i]);
    var extended := role.claims + PolicyClaims(p, subject);
    if p.allowSelfAccess {
      assert p.selfClaim in extended && extended[p.selfClaim] == Equals(subject);
    }
  }

  /** A policy grant implies that the token also matches the policy's plain role. */
  lemma PolicyGrantImpliesRole(build: Build, c: Config, p: Policy, validPattern: string -> bool,
                               subject: string, token: string)
    requires WellFormed(build, c, false) && PolicyOk(build, c, p, validPattern)
    requires BuildAppState(build.authzoo, c, false).Some?
    requires BuildAppState(build.authzoo, c, false).value.validator.ValidateRoleWithClaims(
               p.role, PolicyClaims(p, subject), token)
    ensures p.role in BuildAppState(build.authzoo, c, false).value.validator.Validate(token)
  {
    var role :| role in c.roles && role.name == p.role;
    PolicyRoleMeaning(build, c, role, p, validPattern, subject, token);
    AcceptedState(build, c, false);
    RolesByNameFinds(build.authzoo, c.roles, role);
  }

  /** A policy's claims let a token through that its plain role rejects. */
  ghost predicate WeakensRole(
    v: TokenValidator, role: string, required: map<string, ClaimRequirement>, token: string)
  {
    v.ValidateRoleWithClaims(role, required, token) && role !in v.Validate(token)
  }

  /** Without the validator's check the override would let a policy weaken its role: here the role
      asks for one repository, the policy for another, and a token of the other repository passes. */
  lemma OverlappingClaimsWeakenRole(trust: RoleTrust)
    ensures exists v, required, token :: WeakensRole(v, "ci", required, token)
  {
    var claims := map["repository" := ClaimValue.Text("other")];
    var lib := Library((_, _) => Some(claims), (_, _) => true, (_, _) => true);
    var role := RoleConfig("ci", trust, map["repository" := Equals("own")]);
    var required := map["repository" := Equals("other")];
    var v := TokenValidator(lib, Some(map["ci" := role]));
    assert role.claims + required == required;
    var overridden := role.(claims := role.claims + required);
    SingleRole(lib, overridden, "");
    assert Satisfies(claims, "repository", required["repository"]);
    assert RoleMatches(lib, overridden, "");
    assert !Satisfies(claims, "repository", role.claims["repository"]);
    assert !RoleMatches(lib, role, "");
    assert WeakensRole(v, "ci", required, "");
  }

  /** What a pattern list covers, for a slash-free owner and name: `*`, or an entry whose two halves
      match the two sides. */
  ghost predicate Covers(patterns: seq<string>, owner: string, name: string) {
    exists pattern :: pattern in patterns && PatternCovers(pattern, owner, name)
  }

  ghost predicate PatternCovers(pattern: string, owner: string, name: string) {
    pattern == "*" || exists o, n :: OwnerAndName(pattern, o, n) && Matches(o, owner) && Matches(n, name)
  }

  lemma PatternCoversIffMatches(pattern: string, owner: string, name: string)
    requires IsValidRepoPattern(pattern) && '/' !in owner && '/' !in name
    ensures Matches(pattern, owner + "/" + name) <==> PatternCovers(pattern, owner, name)
  {
    RepoPatternShape(pattern);
    if pattern == "*" {
      StarMatches(owner + "/" + name);
    } else {
      var o, n :| OwnerAndName(pattern, o, n);
      SlashDecomposition(o, n, owner, name);
      forall o', n' | OwnerAndName(pattern, o', n') ensures o' == o && n' == n {
        SplitInjective(o, n, o', n', '/');
      }
    }
  }

  /** An installation policy of an accepted configuration applies to `owner/name` exactly when it is
      for the app, covers owner and name side by side, and the token meets it. */
  lemma InstallationPolicyMeaning(
    build: Build, c: Config, s: AppState, app: GithubAppConfig, owner: string, name: string, token: string,
    p: InstallationPolicyConfig, role: RoleConfig)
    requires WellFormed(build, c, false) && BuildAppState(build.authzoo, c, false) == Some(s)
    requires p in c.installationPolicies && role in c.roles && role.name == p.role
    requires '/' !in owner && '/' !in name
    ensures InstallationPolicyMatches(s.validator, app, owner + "/" + name, token, p) <==>
      && p.githubApp == app.name
      && Covers(p.repositories, owner, name)
      && TokenMeetsPolicy(build.authzoo, role, InstallationPolicy(p), owner + "/" + name, token)
      && (p.allowSelfAccess ==>
            build.authzoo.requirementAccepted("repository", Equals(owner + "/" + name)))
  {
    InstallationPolicyForm(build, c, p);
    PolicyRoleMeaning(build, c, role, InstallationPolicy(p), IsValidRepoPattern, owner + "/" + name, token);
    forall i | 0 <= i < |p.repositories|
      ensures Matches(p.repositories[i], owner + "/" + name) <==> PatternCovers(p.repositories[i], owner, name)
    {
      assert p.repositories[i] in InstallationPolicy(p).patterns;
      PatternCoversIffMatches(p.repositories[i], owner, name);
    }
  }

  /** An owner policy of an accepted configuration applies exactly when it is for the app, one of its
      patterns matches the owner, and the token meets it. */
  lemma OwnerPolicyMeaning(
    build: Build, c: Config, s: AppState, app: GithubAppConfig, owner: string, token: string,
    p: OwnerPolicyConfig, role: RoleConfig)
    requires WellFormed(build, c, false) && BuildAppState(build.authzoo, c, false) == Some(s)
    requires p in c.ownerPolicies && role in c.roles && role.name == p.role
    ensures OwnerPolicyMatches(s.validator, app, owner, token, p) <==>
      && p.githubApp == app.name
      && (exists pattern :: pattern in p.owners && Matches(pattern, owner))
      && TokenMeetsPolicy(build.authzoo, role, OwnerPolicy(p), owner, token)
      && (p.allowSelfAccess ==> build.authzoo.requirementAccepted("repository_owner", Equals(owner)))
  {
    OwnerPolicyForm(build, c, p);
    PolicyRoleMeaning(build, c, role, OwnerPolicy(p), IsValidOwnerPattern, owner, token);
    assert forall i :: 0 <= i < |p.owners| ==> p.owners[i] in p.owners;
    if pattern :| pattern in p.owners && Matches(pattern, owner) {
      var i :| 0 <= i < |p.owners| && p.owners[i] == pattern;
      assert AnyMatches(p.owners, owner);
    }
    assert ClaimsForOwnerRequest(p, owner) == PolicyClaims(OwnerPolicy(p), owner);
  }
}
