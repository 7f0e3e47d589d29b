// What an accepted configuration grants to a token, in the configuration's own terms.
module Grants {
  import opened Wrappers
  import opened Authzoo
  import opened Configuration
  import opened Glob
  import opened Service
  import opened Authorization

  /** A configuration the service starts with. */
  ghost predicate StartsWith(build: Build, c: Config, disableAuth: bool, server: AppState) {
    WellFormed(build, c, disableAuth) && BuildAppState(build.authzoo, c, disableAuth) == Some(server)
  }

  /** The token satisfies the role as configured, and these claims. */
  ghost predicate TokenMeets(lib: Library, role: RoleConfig, required: map<string, ClaimRequirement>, token: string) {
    RoleMatches(lib, role, token) && SatisfiesAll(lib.verify(role.trust, token).value, required)
  }

  /** The token carries the subject in this claim, and authzoo lets a role ask for it. */
  ghost predicate Carries(lib: Library, role: RoleConfig, token: string, claim: string, subject: string) {
    && lib.requirementAccepted(claim, Equals(subject))
    && lib.verify(role.trust, token).Some?
    && var claims := lib.verify(role.trust, token).value;
       claim in claims && claims[claim] == ClaimValue.Text(subject)
  }

  /** The policy lets the token have this repository. */
  ghost predicate InstallationPolicyAllows(
    build: Build, c: Config, app: GithubAppConfig, repo: string, token: string, p: InstallationPolicyConfig)
  {
    && p in c.installationPolicies && p.githubApp == app.name
    && (exists pattern :: pattern in p.repositories && Matches(pattern, repo))
    && exists role ::
         && role in c.roles && role.name == p.role
         && TokenMeets(build.authzoo, role, p.requiredClaims, token)
         && (p.allowSelfAccess ==> Carries(build.authzoo, role, token, "repository", repo))
  }

  ghost predicate OwnerPolicyAllows(
    build: Build, c: Config, app: GithubAppConfig, owner: string, token: string, p: OwnerPolicyConfig)
  {
    && p in c.ownerPolicies && p.githubApp == app.name
    && (exists pattern :: pattern in p.owners && Matches(pattern, owner))
    && exists role ::
         && role in c.roles && role.name == p.role
         && TokenMeets(build.authzoo, role, p.requiredClaims, token)
         && (p.allowSelfAccess ==> Carries(build.authzoo, role, token, "repository_owner", owner))
  }

  lemma AnyMatchesMeaning(patterns: seq<string>, s: string)
    ensures AnyMatches(patterns, s) <==> exists pattern :: pattern in patterns && Matches(pattern, s)
  {
    if pattern :| pattern in patterns && Matches(pattern, s) {
      var i :| 0 <= i < |patterns| && patterns[i] == pattern;
    }
  }

  lemma SameRole(build: Build, c: Config, a: RoleConfig, b: RoleConfig)
    requires WellFormed(build, c, false) && a in c.roles && b in c.roles && a.name == b.name
    ensures a == b
  {
    AcceptedState(build, c, false);
    RolesByNameFinds(build.authzoo, c.roles, a);
    RolesByNameFinds(build.authzoo, c.roles, b);
  }

  lemma InstallationPolicyMatchesIff(
    build: Build, c: Config, server: AppState, app: GithubAppConfig, repo: string, token: string,
    p: InstallationPolicyConfig)
    requires StartsWith(build, c, false, server) && p in c.installationPolicies
    ensures InstallationPolicyMatches(server.validator, app, repo, token, p)
       <==> InstallationPolicyAllows(build, c, app, repo, token, p)
  {
    assert InstallationPolicyOk(build, c, p);
    InstallationPolicyForm(build, c, p);
    var role :| role in c.roles && role.name == p.role;
    PolicyRoleMeaning(build, c, role, InstallationPolicy(p), IsValidRepoPattern, repo, token);
    assert ClaimsForRequest(p, repo) == PolicyClaims(InstallationPolicy(p), repo);
    AnyMatchesMeaning(p.repositories, repo);
    forall other | other in c.roles && other.name == p.role ensures other == role { SameRole(build, c, other, role); }
  }

  lemma OwnerPolicyMatchesIff(
    build: Build, c: Config, server: AppState, app: GithubAppConfig, owner: string, token: string,
    p: OwnerPolicyConfig)
    requires StartsWith(build, c, false, server) && p in c.ownerPolicies
    ensures OwnerPolicyMatches(server.validator, app, owner, token, p)
       <==> OwnerPolicyAllows(build, c, app, owner, token, p)
  {
    assert OwnerPolicyOk(build, c, p);
    OwnerPolicyForm(build, c, p);
    var role :| role in c.roles && role.name == p.role;
    PolicyRoleMeaning(build, c, role, OwnerPolicy(p), IsValidOwnerPattern, owner, token);
    assert ClaimsForOwnerRequest(p, owner) == PolicyClaims(OwnerPolicy(p), owner);
    AnyMatchesMeaning(p.owners, owner);
    forall other | other in c.roles && other.name == p.role ensures other == role { SameRole(build, c, other, role); }
  }

  /** Allowed roles: a configured role that the app lists matches the token. */
  lemma AllowedRoleIff(build: Build, c: Config, server: AppState, app: GithubAppConfig, token: string)
    requires StartsWith(build, c, false, server)
    ensures AllowedRoleMatches(server.validator, app, token) <==>
      exists role :: role in c.roles && role.name in app.allowedRoles && RoleMatches(build.authzoo, role, token)
  {
    AcceptedState(build, c, false);
    forall name {
      ValidatorAnswers(build.authzoo, c.roles, token, name);
    }
    if role :| role in c.roles && role.name in app.allowedRoles && RoleMatches(build.authzoo, role, token) {
      assert role.name in server.validator.Validate(token);
    }
  }

  // ----- The decisions -----

  ghost predicate FirstToAllow(
    build: Build, c: Config, app: GithubAppConfig, repo: string, token: string, i: nat)
  {
    && i < |c.installationPolicies|
    && InstallationPolicyAllows(build, c, app, repo, token, c.installationPolicies[i])
    && forall j :: 0 <= j < i ==> !InstallationPolicyAllows(build, c, app, repo, token, c.installationPolicies[j])
  }

  ghost predicate FirstOwnerPolicyToAllow(
    build: Build, c: Config, app: GithubAppConfig, owner: string, token: string, i: nat)
  {
    && i < |c.ownerPolicies|
    && OwnerPolicyAllows(build, c, app, owner, token, c.ownerPolicies[i])
    && forall j :: 0 <= j < i ==> !OwnerPolicyAllows(build, c, app, owner, token, c.ownerPolicies[j])
  }

  lemma SomeInstallationPolicy(
    build: Build, c: Config, server: AppState, app: GithubAppConfig, repo: string, token: string)
    requires StartsWith(build, c, false, server)
    ensures (exists p ::
               p in c.installationPolicies && InstallationPolicyMatches(server.validator, app, repo, token, p))
       <==> exists p :: InstallationPolicyAllows(build, c, app, repo, token, p)
  {
    forall p | p in c.installationPolicies
      ensures InstallationPolicyMatches(server.validator, app, repo, token, p)
         <==> InstallationPolicyAllows(build, c, app, repo, token, p)
    {
      InstallationPolicyMatchesIff(build, c, server, app, repo, token, p);
    }
  }

  lemma SomeOwnerPolicy(
    build: Build, c: Config, server: AppState, app: GithubAppConfig, owner: string, token: string)
    requires StartsWith(build, c, false, server)
    ensures (exists p :: p in c.ownerPolicies && OwnerPolicyMatches(server.validator, app, owner, token, p))
       <==> exists p :: OwnerPolicyAllows(build, c, app, owner, token, p)
  {
    forall p | p in c.ownerPolicies
      ensures OwnerPolicyMatches(server.validator, app, owner, token, p)
         <==> OwnerPolicyAllows(build, c, app, owner, token, p)
    {
      OwnerPolicyMatchesIff(build, c, server, app, owner, token, p);
    }
  }

  lemma FirstMatchAllows(
    build: Build, c: Config, server: AppState, app: GithubAppConfig, repo: string, token: string, i: nat)
    requires StartsWith(build, c, false, server) && FirstInstallationPolicy(server, app, repo, token, i)
    ensures FirstToAllow(build, c, app, repo, token, i)
  {
    AcceptedState(build, c, false);
    forall j: nat | j <= i
      ensures InstallationPolicyMatches(server.validator, app, repo, token, c.installationPolicies[j])
         <==> InstallationPolicyAllows(build, c, app, repo, token, c.installationPolicies[j])
    {
      InstallationPolicyMatchesIff(build, c, server, app, repo, token, c.installationPolicies[j]);
    }
  }

  lemma FirstOwnerMatchAllows(
    build: Build, c: Config, server: AppState, app: GithubAppConfig, owner: string, token: string, i: nat)
    requires StartsWith(build, c, false, server) && FirstOwnerPolicy(server, app, owner, token, i)
    ensures FirstOwnerPolicyToAllow(build, c, app, owner, token, i)
  {
    AcceptedState(build, c, false);
    forall j: nat | j <= i
      ensures OwnerPolicyMatches(server.validator, app, owner, token, c.ownerPolicies[j])
         <==> OwnerPolicyAllows(build, c, app, owner, token, c.ownerPolicies[j])
    {
      OwnerPolicyMatchesIff(build, c, server, app, owner, token, c.ownerPolicies[j]);
    }
  }

  /** What a token gets for a repository: everything exactly when an allowed role matches; otherwise what
      the first policy that allows it names, on that repository only; otherwise nothing. */
  lemma RepositoryDecision(
    build: Build, c: Config, server: AppState, app: GithubAppConfig, repo: string, token: string)
    requires StartsWith(build, c, false, server)
    ensures var r := AuthorizeGithubApp(server, app, repo, Some(token));
      var allowed := exists role ::
        role in c.roles && role.name in app.allowedRoles && RoleMatches(build.authzoo, role, token);
      && (r == Ok(TokenScope(All, map[])) <==> allowed)
      && (!allowed && r.Ok? ==> exists i: nat ::
            && FirstToAllow(build, c, app, repo, token, i)
            && r.value == TokenScope(OnlyRequested, c.installationPolicies[i].permissions))
      && (r.Err? ==> r.error == NoMatchingGrant)
      && (r.Ok? <==> allowed || exists p :: InstallationPolicyAllows(build, c, app, repo, token, p))
  {
    AcceptedState(build, c, false);
    AllowedRoleIff(build, c, server, app, token);
    RepositoryGrants(server, app, repo, token);
    SomeInstallationPolicy(build, c, server, app, repo, token);
    var r := AuthorizeGithubApp(server, app, repo, Some(token));
    if r.Ok? && !AllowedRoleMatches(server.validator, app, token) {
      var i: nat :| FirstInstallationPolicy(server, app, repo, token, i)
        && r.value == TokenScope(OnlyRequested, server.installationPolicies[i].permissions);
      FirstMatchAllows(build, c, server, app, repo, token, i);
    }
  }

  /** What a token gets for an owner: everything exactly when an allowed role matches; otherwise what the
      first policy that allows it names, on all repositories; otherwise nothing. */
  lemma OwnerDecision(
    build: Build, c: Config, server: AppState, app: GithubAppConfig, owner: string, token: string)
    requires StartsWith(build, c, false, server)
    ensures var r := AuthorizeOwner(server, app, owner, Some(token));
      var allowed := exists role ::
        role in c.roles && role.name in app.allowedRoles && RoleMatches(build.authzoo, role, token);
      && (r == Ok(TokenScope(All, map[])) <==> allowed)
      && (!allowed && r.Ok? ==> exists i: nat ::
            && FirstOwnerPolicyToAllow(build, c, app, owner, token, i)
            && r.value == TokenScope(All, c.ownerPolicies[i].permissions))
      && (r.Err? ==> r.error == NoMatchingGrant)
      && (r.Ok? <==> allowed || exists p :: OwnerPolicyAllows(build, c, app, owner, token, p))
  {
    AcceptedState(build, c, false);
    AllowedRoleIff(build, c, server, app, token);
    OwnerGrants(server, app, owner, token);
    SomeOwnerPolicy(build, c, server, app, owner, token);
    var r := AuthorizeOwner(server, app, owner, Some(token));
    if r.Ok? && !AllowedRoleMatches(server.validator, app, token) {
      var i: nat :| FirstOwnerPolicy(server, app, owner, token, i)
        && r.value == TokenScope(All, server.ownerPolicies[i].permissions);
      FirstOwnerMatchAllows(build, c, server, app, owner, token, i);
      assert OwnerPolicyOk(build, c, c.ownerPolicies[i]) by { assert c.ownerPolicies[i] in c.ownerPolicies; }
    }
  }

  /** Without a bearer token nothing is granted where authentication is on, and everything where it is
      off, whatever the token. */
  lemma DecisionsWithoutToken(
    build: Build, c: Config, server: AppState, app: GithubAppConfig, subject: string, bearer: Option<string>)
    ensures StartsWith(build, c, false, server) ==>
      && AuthorizeGithubApp(server, app, subject, None) == Err(MissingHeader)
      && AuthorizeOwner(server, app, subject, None) == Err(MissingHeader)
    ensures StartsWith(build, c, true, server) ==>
      && AuthorizeGithubApp(server, app, subject, bearer) == Ok(TokenScope(All, map[]))
      && AuthorizeOwner(server, app, subject, bearer) == Ok(TokenScope(All, map[]))
      && (bearer.Some? ==> server.validator.Validate(bearer.value) == {})
  {
  }
}
