// From a configuration that `validate` accepted to what GitHub is asked for and what callers get, in
// every interleaving of their requests. The results are stated in the terms of the configuration and of
// the request alone.
module EndToEnd {
  import opened Wrappers
  import opened Text
  import opened Authzoo
  import opened Configuration
  import opened Glob
  import opened Service
  import opened Authorization
  import opened Grants
  import opened Github
  import opened Handlers
  import opened Broker

  /** A configured role that the app allows matches the token, and the body asks for everything. */
  ghost predicate BroadGrant(build: Build, c: Config, app: GithubAppConfig, token: string, body: TokenRequest) {
    && (exists role ::
          role in c.roles && role.name in app.allowedRoles && RoleMatches(build.authzoo, role, token))
    && body == TokenRequest(None, None)
  }

  /** This installation policy lets the token have the requested repository, and the body asks for that
      repository alone and for the policy's permissions, of which there are some. */
  ghost predicate GrantedBy(
    build: Build, c: Config, app: GithubAppConfig, request: HttpRequest, token: string, body: TokenRequest,
    p: InstallationPolicyConfig)
    requires request.RepositoryTokenRequest?
  {
    && InstallationPolicyAllows(build, c, app, request.owner + "/" + request.repo, token, p)
    && p.permissions != map[] && body.permissions == Some(p.permissions)
    && exists owner, name :: IsSplit(request.owner + "/" + request.repo, owner, name)
         && body.repositories == Some([name])
  }

  /** The text before and after the first slash. */
  ghost predicate IsSplit(text: string, owner: string, name: string) {
    '/' !in owner && text == owner + "/" + name
  }

  ghost predicate RepositoryGrant(
    build: Build, c: Config, app: GithubAppConfig, request: HttpRequest, token: string, body: TokenRequest)
  {
    request.RepositoryTokenRequest? && exists p :: GrantedBy(build, c, app, request, token, body, p)
  }

  /** An owner policy lets the token have the requested owner, and the body asks for all repositories and
      for the policy's permissions, of which there are some. */
  ghost predicate OwnerGrant(
    build: Build, c: Config, app: GithubAppConfig, request: HttpRequest, token: string, body: TokenRequest)
  {
    request.OwnerTokenRequest? && exists p ::
      && OwnerPolicyAllows(build, c, app, request.owner, token, p)
      && p.permissions != map[] && body == TokenRequest(None, Some(p.permissions))
  }

  /** The request carries a bearer token, for which there is one of the three reasons to send the body. */
  ghost predicate Justified(
    build: Build, c: Config, app: GithubAppConfig, request: HttpRequest, body: TokenRequest)
  {
    exists token ::
      && token != "" && request.authorization == Some(Visible("Bearer " + token))
      && (|| BroadGrant(build, c, app, token, body)
          || RepositoryGrant(build, c, app, request, token, body)
          || OwnerGrant(build, c, app, request, token, body))
  }

  /** GitHub answered with this installation when asked as the app about the owner, as an organization or
      as a user, or about the repository that the request names. */
  ghost predicate LocatedFor(s: State, app: GithubAppConfig, request: HttpRequest, id: nat) {
    match request
    case OwnerTokenRequest(_, owner, _) =>
      || Resolution(app, Account(owner), OrganizationLookup(owner), id) in s.resolutions
      || Resolution(app, Account(owner), UserLookup(owner), id) in s.resolutions
    case RepositoryTokenRequest(_, owner, repo, _) =>
      exists o, n :: IsSplit(owner + "/" + repo, o, n)
        && Resolution(app, Repository(owner + "/" + repo), RepositoryLookup(o, n), id) in s.resolutions
  }

  lemma AcceptedNames(build: Build, c: Config, disableAuth: bool, server: AppState)
    requires StartsWith(build, c, disableAuth, server)
    ensures NamesOk(server)
  {
    AcceptedState(build, c, disableAuth);
    forall app | app in server.githubApps ensures '/' !in app.name {
      assert AppOk(c, app);
    }
  }

  /** For an owner without a slash, the text before and after the first slash is the owner and the
      repository of the request. */
  lemma RequestedName(request: HttpRequest, owner: string, name: string)
    requires request.RepositoryTokenRequest? && '/' !in request.owner
    ensures IsSplit(request.owner + "/" + request.repo, owner, name) <==> owner == request.owner && name == request.repo
  {
    if IsSplit(request.owner + "/" + request.repo, owner, name) {
      SplitInjective(owner, name, request.owner, request.repo, '/');
    }
  }

  /** `validate` lets no policy through that names no permission. */
  lemma PoliciesNamePermissions(build: Build, c: Config)
    requires WellFormed(build, c, false)
    ensures forall p :: p in c.installationPolicies ==> p.permissions != map[]
    ensures forall p :: p in c.ownerPolicies ==> p.permissions != map[]
  {
    assert forall p :: p in c.installationPolicies ==> InstallationPolicyOk(build, c, p);
    assert forall p :: p in c.ownerPolicies ==> OwnerPolicyOk(build, c, p);
  }

  lemma RepositoryScopeIsJustified(
    build: Build, c: Config, server: AppState, app: GithubAppConfig, request: HttpRequest, token: string)
    requires StartsWith(build, c, false, server) && request.RepositoryTokenRequest?
    requires AuthorizeGithubApp(server, app, request.owner + "/" + request.repo, Some(token)).Ok?
    ensures var repo := request.owner + "/" + request.repo;
      var body := BuildTokenRequest(AuthorizeGithubApp(server, app, repo, Some(token)).value, Repository(repo));
      && body.Some?
      && (BroadGrant(build, c, app, token, body.value)
          || RepositoryGrant(build, c, app, request, token, body.value))
  {
    var repo := request.owner + "/" + request.repo;
    RepositoryDecision(build, c, server, app, repo, token);
    var scope := AuthorizeGithubApp(server, app, repo, Some(token)).value;
    if scope != TokenScope(All, map[]) {
      var i: nat :| FirstToAllow(build, c, app, repo, token, i)
        && scope == TokenScope(OnlyRequested, c.installationPolicies[i].permissions);
      PoliciesNamePermissions(build, c);
      NamedRepository(repo, request.owner, request.repo);
      var body := BuildTokenRequest(scope, Repository(repo)).value;
      assert GrantedBy(build, c, app, request, token, body, c.installationPolicies[i]);
    }
  }

  /** What is cut off at the first slash of a text with a slash. */
  lemma NamedRepository(repo: string, owner: string, name: string)
    requires repo == owner + "/" + name
    ensures SplitOnce(repo, '/').Some?
    ensures var (o, n) := SplitOnce(repo, '/').value; IsSplit(repo, o, n)
  {
    assert repo[|owner|] == '/';
  }

  lemma OwnerScopeIsJustified(
    build: Build, c: Config, server: AppState, app: GithubAppConfig, request: HttpRequest, token: string)
    requires StartsWith(build, c, false, server) && request.OwnerTokenRequest?
    requires AuthorizeOwner(server, app, request.owner, Some(token)).Ok?
    ensures var scope := AuthorizeOwner(server, app, request.owner, Some(token)).value;
      var body := BuildTokenRequest(scope, Account(request.owner));
      && body.Some?
      && (BroadGrant(build, c, app, token, body.value) || OwnerGrant(build, c, app, request, token, body.value))
  {
    OwnerDecision(build, c, server, app, request.owner, token);
    PoliciesNamePermissions(build, c);
  }

  /** What the handlers prepare is justified, body by body. */
  lemma PreparedIsJustified(build: Build, c: Config, server: AppState, request: HttpRequest)
    requires StartsWith(build, c, false, server) && Handle(server, request).Ok?
    ensures var p := Handle(server, request).value;
      && BuildTokenRequest(p.scope, p.target).Some?
      && Justified(build, c, p.app, request, BuildTokenRequest(p.scope, p.target).value)
  {
    var p := Handle(server, request).value;
    var token := ExtractBearerToken(request.authorization).value;
    BearerTokenForm(request.authorization, token);
    HandledRequest(server, request, token);
    if request.RepositoryTokenRequest? {
      RepositoryScopeIsJustified(build, c, server, p.app, request, token);
    } else {
      OwnerScopeIsJustified(build, c, server, p.app, request, token);
    }
  }

  /** Exactly which requests the service passes on, where authentication is on: those for a configured
      app with a bearer token that an allowed role or a policy covers. */
  lemma HandledExactlyWhen(build: Build, c: Config, server: AppState, request: HttpRequest)
    requires StartsWith(build, c, false, server)
    ensures Handle(server, request).Ok? <==> exists app, token ::
      && app in c.githubApps && app.name == request.githubApp
      && token != "" && request.authorization == Some(Visible("Bearer " + token))
      && Covered(build, c, app, request, token)
  {
    AcceptedState(build, c, false);
    if Handle(server, request).Ok? {
      var token := ExtractBearerToken(request.authorization).value;
      BearerTokenForm(request.authorization, token);
      HandledRequest(server, request, token);
      CoveredIffAuthorized(build, c, server, Handle(server, request).value.app, request, token);
    }
    if app, token :|
      && app in c.githubApps && app.name == request.githubApp
      && token != "" && request.authorization == Some(Visible("Bearer " + token))
      && Covered(build, c, app, request, token)
    {
      AcceptedNames(build, c, false, server);
      HandledRequest(server, request, token);
      SameNameSameApp(server, app, GithubApp(server, request.githubApp).value);
      CoveredIffAuthorized(build, c, server, app, request, token);
    }
  }

  /** An allowed role or a policy covers the request. */
  ghost predicate Covered(build: Build, c: Config, app: GithubAppConfig, request: HttpRequest, token: string) {
    || (exists role :: role in c.roles && role.name in app.allowedRoles && RoleMatches(build.authzoo, role, token))
    || (match request
        case RepositoryTokenRequest(_, owner, repo, _) =>
          exists p :: InstallationPolicyAllows(build, c, app, owner + "/" + repo, token, p)
        case OwnerTokenRequest(_, owner, _) => exists p :: OwnerPolicyAllows(build, c, app, owner, token, p))
  }

  lemma CoveredIffAuthorized(
    build: Build, c: Config, server: AppState, app: GithubAppConfig, request: HttpRequest, token: string)
    requires StartsWith(build, c, false, server)
    ensures Covered(build, c, app, request, token) <==>
      match request
      case RepositoryTokenRequest(_, owner, repo, _) =>
        AuthorizeGithubApp(server, app, owner + "/" + repo, Some(token)).Ok?
      case OwnerTokenRequest(_, owner, _) => AuthorizeOwner(server, app, owner, Some(token)).Ok?
  {
    match request
    case RepositoryTokenRequest(_, owner, repo, _) =>
      RepositoryDecision(build, c, server, app, owner + "/" + repo, token);
    case OwnerTokenRequest(_, owner, _) => OwnerDecision(build, c, server, app, owner, token);
  }

  /** An installation resolved for the target of a handled request is located for the request. */
  lemma ResolvedIsLocated(server: AppState, s: State, request: HttpRequest, id: nat)
    requires Handle(server, request).Ok?
    requires var p := Handle(server, request).value; Resolved(s, p.app, p.target, id)
    ensures LocatedFor(s, Handle(server, request).value.app, request, id)
  {
    var p := Handle(server, request).value;
    HandledTarget(server, request);
    var lookup :| Resolution(p.app, p.target, lookup, id) in s.resolutions && LookupFor(p.target, lookup);
    if request.RepositoryTokenRequest? {
      var repo := request.owner + "/" + request.repo;
      NamedRepository(repo, request.owner, request.repo);
      var (o, n) := SplitOnce(repo, '/').value;
      assert lookup == RepositoryLookup(o, n);
    } else {
      assert lookup == OrganizationLookup(request.owner) || lookup == UserLookup(request.owner);
    }
  }

  /** Whatever GitHub answers and however calls interleave, every request for a token that is sent to
      GitHub is signed for the requested app, justified by the caller's own authorization, and addressed
      to an installation that GitHub named for the owner or repository of that caller's request. */
  lemma EveryPostIsJustified(
    build: Build, c: Config, server: AppState, env: Environment, s: State, e: nat)
    requires StartsWith(build, c, false, server) && Reachable(server, env, s) && e < |s.posts|
    ensures s.posts[e].caller in s.calls
    ensures var call := s.calls[s.posts[e].caller];
      && Justified(build, c, call.prepared.app, call.request, s.posts[e].post.body)
      && LocatedFor(s, call.prepared.app, call.request, s.posts[e].post.installationId)
      && s.posts[e].post.appId == call.prepared.app.appId
      && call.prepared.app in c.githubApps && call.prepared.app.name == call.request.githubApp
  {
    AcceptedNames(build, c, false, server);
    AcceptedState(build, c, false);
    ReachableInv(server, env, s);
    assert SentOk(s, s.posts[e]);
    var call := s.calls[s.posts[e].caller];
    assert CallOk(server, s, s.posts[e].caller, call);
    PreparedIsJustified(build, c, server, call.request);
    HandledRequestsAreMintable(server, call.request);
    ResolvedIsLocated(server, s, call.request, s.posts[e].post.installationId);
  }

  /** Whoever minted it, a token that a caller gets was minted with a body that the caller's own
      authorization justifies, for the app it asked for, and at an installation that GitHub named for
      that app and the owner or repository of the caller's own request. A cached token is never broader
      than the grant of the caller who receives it. */
  lemma ReturnedTokensAreJustified(
    build: Build, c: Config, server: AppState, env: Environment, s: State, id: CallId)
    requires StartsWith(build, c, false, server) && Reachable(server, env, s)
    requires id in s.calls && s.calls[id].progress.Returned?
    ensures exists e: nat ::
      && e < |s.posts| && s.posts[e].token == Some(s.calls[id].progress.token)
      && ServesCall(build, c, s, s.calls[id], s.posts[e].post)
  {
    AcceptedNames(build, c, false, server);
    AcceptedState(build, c, false);
    ReturnedTokenProvenance(server, env, s, id);
    ReachableInv(server, env, s);
    var call := s.calls[id];
    assert CallOk(server, s, id, call);
    PreparedIsJustified(build, c, server, call.request);
    HandledRequestsAreMintable(server, call.request);
    var e: nat :| e < |s.posts| && s.posts[e].token == Some(call.progress.token)
      && MadeFor(s, call.prepared, s.posts[e]);
    ResolvedIsLocated(server, s, call.request, s.posts[e].post.installationId);
    assert ServesCall(build, c, s, call, s.posts[e].post);
  }

  /** The post is one that this call's own request justifies. */
  ghost predicate ServesCall(build: Build, c: Config, s: State, call: Call, post: Post) {
    var app := call.prepared.app;
    && app in c.githubApps && app.name == call.request.githubApp && post.appId == app.appId
    && Justified(build, c, app, call.request, post.body)
    && LocatedFor(s, app, call.request, post.installationId)
  }

  /** Without authentication every request for a token asks GitHub for everything. */
  lemma WithoutAuthEveryPostIsBroad(
    build: Build, c: Config, server: AppState, env: Environment, s: State, e: nat)
    requires StartsWith(build, c, true, server) && Reachable(server, env, s) && e < |s.posts|
    ensures s.posts[e].post.body == TokenRequest(None, None)
  {
    AcceptedNames(build, c, true, server);
    ReachableInv(server, env, s);
    assert SentOk(s, s.posts[e]);
    var call := s.calls[s.posts[e].caller];
    assert CallOk(server, s, s.posts[e].caller, call);
    HandleOutcome(server, call.request);
  }

  /** The policy names this owner literally in every pattern. */
  ghost predicate FencedBy(p: InstallationPolicyConfig, owner: string) {
    && '*' !in owner && '?' !in owner && '/' !in owner
    && forall pattern | pattern in p.repositories :: exists name :: pattern == owner + "/" + name
  }

  /** A policy with a literal owner grants only repositories that GitHub is asked about under that owner,
      whatever the requested text, and whatever the app's other policies name. */
  lemma FencedGrantsStayWithOwner(
    build: Build, c: Config, app: GithubAppConfig, request: HttpRequest, token: string, body: TokenRequest,
    p: InstallationPolicyConfig, owner: string)
    requires request.RepositoryTokenRequest? && GrantedBy(build, c, app, request, token, body, p)
    requires FencedBy(p, owner)
    ensures exists name ::
      && body.repositories == Some([name])
      && FirstLookup(Repository(request.owner + "/" + request.repo)) == Some(RepositoryLookup(owner, name))
  {
    var repo := request.owner + "/" + request.repo;
    var pattern :| pattern in p.repositories && Matches(pattern, repo);
    var rest :| pattern == owner + "/" + rest;
    LiteralOwnerFences(owner, rest, repo);
    var o, n :| IsSplit(repo, o, n) && body.repositories == Some([n]);
    SplitOnceUnique(o, n, '/');
  }
}
