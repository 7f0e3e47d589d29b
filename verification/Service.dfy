// Authorization: from a configured state and a bearer token to the scope of the token to mint.
module Service {
  import opened Wrappers
  import opened Authzoo
  import opened Configuration
  import opened Glob

  datatype RepoScope = OnlyRequested | All

  datatype TokenScope = TokenScope(repositories: RepoScope, permissions: Permissions)

  const BROAD := TokenScope(All, map[])

  datatype AppError = UnknownApp | MissingHeader | MalformedHeader | NotBearer | EmptyBearer | NoMatchingGrant

  /** `None` when authentication is disabled; otherwise the accepted roles by name. */
  datatype TokenValidator = TokenValidator(lib: Library, inner: Option<map<string, RoleConfig>>)
  {
    predicate AuthEnabled() {
      inner.Some?
    }

    function Validate(token: string): set<string> {
      if inner.None? then {} else MatchingRoles(lib, inner.value, token)
    }

    /** Whether the token satisfies the role once the role's claims are overridden by `required`. */
    predicate ValidateRoleWithClaims(roleName: string, required: map<string, ClaimRequirement>, token: string) {
      inner.Some? && roleName in inner.value &&
      var role := inner.value[roleName];
      var extended := role.(claims := role.claims + required);
      match NewValidator(lib, [extended])
      case None => false
      case Some(roles) => roleName in MatchingRoles(lib, roles, token)
    }
  }

  datatype AppState = AppState(
    githubApps: seq<GithubAppConfig>, installationPolicies: seq<InstallationPolicyConfig>,
    ownerPolicies: seq<OwnerPolicyConfig>, validator: TokenValidator)

  /** `build_app_state`, as far as authorization is concerned; fails where authzoo refuses the roles. */
  function BuildAppState(lib: Library, c: Config, disableAuth: bool): Option<AppState> {
    if disableAuth then
      Some(AppState(c.githubApps, c.installationPolicies, c.ownerPolicies, TokenValidator(lib, None)))
    else
      match NewValidator(lib, c.roles)
      case None => None
      case Some(roles) =>
        Some(AppState(c.githubApps, c.installationPolicies, c.ownerPolicies, TokenValidator(lib, Some(roles))))
  }

  /** `Iterator::find`. */
  function Find<T>(items: seq<T>, accepts: T -> bool): (r: Option<T>)
    ensures r.Some? ==> r.value in items && accepts(r.value)
    ensures r.None? <==> forall item :: item in items ==> !accepts(item)
  {
    if items == [] then None
    else if accepts(items[0]) then Some(items[0])
    else Find(items[1..], accepts)
  }

  function GithubApp(s: AppState, name: string): (r: Result<GithubAppConfig, AppError>)
    ensures r.Ok? ==> r.value in s.githubApps && r.value.name == name
    ensures r.Err? ==> forall app :: app in s.githubApps ==> app.name != name
  {
    match Find(s.githubApps, (app: GithubAppConfig) => app.name == name)
    case Some(app) => Ok(app)
    case None => Err(UnknownApp)
  }

  function ClaimsForRequest(p: InstallationPolicyConfig, repo: string): map<string, ClaimRequirement> {
    if p.allowSelfAccess then p.requiredClaims[SELF_ACCESS_REPOSITORY_CLAIM := Equals(repo)] else p.requiredClaims
  }

  function ClaimsForOwnerRequest(p: OwnerPolicyConfig, owner: string): map<string, ClaimRequirement> {
    if p.allowSelfAccess then p.requiredClaims[SELF_ACCESS_OWNER_CLAIM := Equals(owner)] else p.requiredClaims
  }

  predicate AnyMatches(patterns: seq<string>, s: string) {
    exists i | 0 <= i < |patterns| :: Matches(patterns[i], s)
  }

  predicate InstallationPolicyMatches(
    v: TokenValidator, app: GithubAppConfig, repo: string, token: string, p: InstallationPolicyConfig)
  {
    && p.githubApp == app.name
    && AnyMatches(p.repositories, repo)
    && v.ValidateRoleWithClaims(p.role, ClaimsForRequest(p, repo), token)
  }

  predicate OwnerPolicyMatches(
    v: TokenValidator, app: GithubAppConfig, owner: string, token: string, p: OwnerPolicyConfig)
  {
    && p.githubApp == app.name
    && AnyMatches(p.owners, owner)
    && v.ValidateRoleWithClaims(p.role, ClaimsForOwnerRequest(p, owner), token)
  }

  predicate AllowedRoleMatches(v: TokenValidator, app: GithubAppConfig, token: string) {
    exists role | role in v.Validate(token) :: role in app.allowedRoles
  }

  function AuthorizeGithubApp(
    s: AppState, app: GithubAppConfig, repo: string, bearer: Option<string>): Result<TokenScope, AppError>
  {
    if !s.validator.AuthEnabled() then Ok(BROAD)
    else if bearer.None? then Err(MissingHeader)
    else if AllowedRoleMatches(s.validator, app, bearer.value) then Ok(BROAD)
    else
      match Find(s.installationPolicies, p => InstallationPolicyMatches(s.validator, app, repo, bearer.value, p))
      case Some(p) => Ok(TokenScope(OnlyRequested, p.permissions))
      case None => Err(NoMatchingGrant)
  }

  function AuthorizeOwner(
    s: AppState, app: GithubAppConfig, owner: string, bearer: Option<string>): Result<TokenScope, AppError>
  {
    if !s.validator.AuthEnabled() then Ok(BROAD)
    else if bearer.None? then Err(MissingHeader)
    else if AllowedRoleMatches(s.validator, app, bearer.value) then Ok(BROAD)
    else
      match Find(s.ownerPolicies, p => OwnerPolicyMatches(s.validator, app, owner, bearer.value, p))
      case Some(p) => Ok(TokenScope(All, p.permissions))
      case None => Err(NoMatchingGrant)
  }
}
