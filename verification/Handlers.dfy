// The request handlers up to the point where the GitHub client takes over.
module Handlers {
  import opened Wrappers
  import opened Configuration
  import opened Service
  import opened Github

  /** A header value is visible ASCII text, or bytes that are not. */
  datatype HeaderValue = Visible(text: string) | Opaque

  function ExtractBearerToken(authorization: Option<HeaderValue>): Result<string, AppError> {
    match authorization
    case None => Err(MissingHeader)
    case Some(Opaque) => Err(MalformedHeader)
    case Some(Visible(value)) =>
      if !("Bearer " <= value) then Err(NotBearer)
      else if value == "Bearer " then Err(EmptyBearer)
      else Ok(value[|"Bearer "|..])
  }

  /** The two endpoints that mint tokens, with the path parameters as decoded by the router. */
  datatype HttpRequest =
    | RepositoryTokenRequest(githubApp: string, owner: string, repo: string, authorization: Option<HeaderValue>)
    | OwnerTokenRequest(githubApp: string, owner: string, authorization: Option<HeaderValue>)

  /** A request the handlers pass on to the GitHub client. */
  datatype Prepared = Prepared(app: GithubAppConfig, target: InstallationTarget, scope: TokenScope)

  function RequestedRepo(request: HttpRequest): string
    requires request.RepositoryTokenRequest?
  {
    request.owner + "/" + request.repo
  }

  function Target(request: HttpRequest): InstallationTarget {
    if request.RepositoryTokenRequest? then Repository(RequestedRepo(request)) else Account(request.owner)
  }

  function Authorize(
    s: AppState, request: HttpRequest, app: GithubAppConfig, bearer: Option<string>): Result<TokenScope, AppError>
  {
    if request.RepositoryTokenRequest? then AuthorizeGithubApp(s, app, RequestedRepo(request), bearer)
    else AuthorizeOwner(s, app, request.owner, bearer)
  }

  /** `create_installation_token` of the service, up to the call of the client. */
  function Handle(s: AppState, request: HttpRequest): Result<Prepared, AppError> {
    match ExtractBearerToken(request.authorization)
    case Err(error) => if s.validator.AuthEnabled() then Err(error) else HandleAs(s, request, None)
    case Ok(token) => HandleAs(s, request, Some(token))
  }

  function HandleAs(s: AppState, request: HttpRequest, bearer: Option<string>): Result<Prepared, AppError> {
    match GithubApp(s, request.githubApp)
    case Err(error) => Err(error)
    case Ok(app) =>
      match Authorize(s, request, app, bearer)
      case Err(error) => Err(error)
      case Ok(scope) => Ok(Prepared(app, Target(request), scope))
  }

  /** A bearer token is what follows the scheme in a header of that form, and nothing else is one. */
  lemma BearerTokenForm(authorization: Option<HeaderValue>, token: string)
    ensures ExtractBearerToken(authorization) == Ok(token) <==>
      token != "" && authorization == Some(Visible("Bearer " + token))
    ensures ExtractBearerToken(authorization) == Err(MissingHeader) <==> authorization.None?
    ensures ExtractBearerToken(authorization) == Err(MalformedHeader) <==> authorization == Some(Opaque)
    ensures ExtractBearerToken(authorization) == Err(EmptyBearer) <==> authorization == Some(Visible("Bearer "))
    ensures ExtractBearerToken(authorization) == Err(NotBearer) <==>
      exists text :: authorization == Some(Visible(text)) && forall rest :: text != "Bearer " + rest
  {
    if authorization.Some? && authorization.value.Visible? && "Bearer " <= authorization.value.text {
      var text := authorization.value.text;
      assert text == "Bearer " + text[|"Bearer "|..];
    }
    forall rest ensures "Bearer " <= "Bearer " + rest {
    }
    if authorization == Some(Visible("Bearer " + token)) {
      assert ("Bearer " + token)[|"Bearer "|..] == token;
    }
  }

  /** What the handlers decide: the bearer token first, where authentication asks for one, then the
      app, then the authorization. */
  lemma HandleOutcome(s: AppState, request: HttpRequest)
    ensures var bearer := ExtractBearerToken(request.authorization);
      var known := exists app :: app in s.githubApps && app.name == request.githubApp;
      var r := Handle(s, request);
      && (s.validator.AuthEnabled() && bearer.Err? ==> r == Err(bearer.error))
      && (!s.validator.AuthEnabled() || bearer.Ok? ==> (r == Err(UnknownApp) <==> !known))
      && (!s.validator.AuthEnabled() && known ==> r.Ok? && r.value.scope == BROAD)
      && (r.Ok? ==>
            && r.value.app in s.githubApps && r.value.app.name == request.githubApp
            && r.value.target == Target(request)
            && (s.validator.AuthEnabled() ==>
                  bearer.Ok? && Authorize(s, request, r.value.app, Some(bearer.value)) == Ok(r.value.scope)))
  {
  }

  /** The answer to a request of a caller with this bearer token, where authentication is on: for the
      first app of that name, exactly what the app's authorization of `owner/repo`, or of the owner, says,
      and for exactly that target. */
  lemma HandledRequest(s: AppState, request: HttpRequest, token: string)
    requires s.validator.AuthEnabled() && token != ""
    requires request.authorization == Some(Visible("Bearer " + token))
    ensures GithubApp(s, request.githubApp).Err? ==> Handle(s, request) == Err(UnknownApp)
    ensures GithubApp(s, request.githubApp).Ok? ==>
      var app := GithubApp(s, request.githubApp).value;
      match request
      case RepositoryTokenRequest(_, owner, repo, _) =>
        Handle(s, request) == (match AuthorizeGithubApp(s, app, owner + "/" + repo, Some(token))
          case Ok(scope) => Ok(Prepared(app, Repository(owner + "/" + repo), scope))
          case Err(error) => Err(error))
      case OwnerTokenRequest(_, owner, _) =>
        Handle(s, request) == (match AuthorizeOwner(s, app, owner, Some(token))
          case Ok(scope) => Ok(Prepared(app, Account(owner), scope))
          case Err(error) => Err(error))
  {
    BearerTokenForm(request.authorization, token);
  }

  /** Whatever the authentication, a handled request is for the owner, or the repository, in its path. */
  lemma HandledTarget(s: AppState, request: HttpRequest)
    requires Handle(s, request).Ok?
    ensures Handle(s, request).value.target ==
      match request
      case RepositoryTokenRequest(_, owner, repo, _) => Repository(owner + "/" + repo)
      case OwnerTokenRequest(_, owner, _) => Account(owner)
  {
  }

  /** From the handlers, neither of the client's two refusals can arise: every repository target is in
      `owner/name` form, and a repository scope only ever comes with a repository. */
  lemma HandledRequestsAreMintable(s: AppState, request: HttpRequest)
    requires Handle(s, request).Ok?
    ensures var p := Handle(s, request).value;
      && FirstLookup(p.target).Some?
      && BuildTokenRequest(p.scope, p.target).Some?
      && p.app in s.githubApps && p.app.name == request.githubApp
  {
    if request.RepositoryTokenRequest? {
      assert RequestedRepo(request)[|request.owner|] == '/';
      assert '/' in RequestedRepo(request);
    }
  }
}
