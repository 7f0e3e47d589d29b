// The GitHub client: what it asks GitHub for, and the cache it asks first.
module Github {
  import opened Wrappers
  import opened Text
  import opened Configuration
  import opened Service

  /** Instants are nanoseconds since an arbitrary origin. */
  type Instant = nat

  const NANOS_PER_SECOND: nat := 1_000_000_000

  /** `INSTALLATION_TOKEN_CACHE_TTL`: fifty minutes. */
  const CACHE_TTL: nat := 50 * 60 * NANOS_PER_SECOND

  datatype InstallationTarget = Repository(repo: string) | Account(owner: string)

  function TargetKey(target: InstallationTarget): string {
    match target
    case Repository(repo) => "repo:" + repo
    case Account(owner) => "owner:" + owner
  }

  /** The key of the installation-id cache. */
  function IdKey(appName: string, target: InstallationTarget): string {
    appName + "/" + TargetKey(target)
  }

  /** The key separates apps and targets, for app names that `validate` accepts and any target. */
  lemma IdKeyInjective(a: string, target: InstallationTarget, a': string, target': InstallationTarget)
    requires '/' !in a && '/' !in a'
    requires IdKey(a, target) == IdKey(a', target')
    ensures a == a' && target == target'
  {
    SplitInjective(a, TargetKey(target), a', TargetKey(target'), '/');
    var key := TargetKey(target);
    assert key[0] == if target.Repository? then 'r' else 'o';
    assert key[0] == if target'.Repository? then 'r' else 'o';
    var n := if target.Repository? then 5 else 6;
    assert key[n..] == if target.Repository? then target.repo else target.owner;
    assert key[n..] == if target'.Repository? then target'.repo else target'.owner;
  }

  /** With slashes in app names the key would not separate them. */
  lemma IdKeyNeedsSlashFreeNames(app: string, repo: string, rest: string)
    ensures var other := app + "/repo:" + repo;
      && other != app
      && IdKey(other, Repository(rest)) == IdKey(app, Repository(repo + "/repo:" + rest))
  {
    var other := app + "/repo:" + repo;
    assert |other| > |app|;
    RepositoryIdKey(other, rest);
    RepositoryIdKey(app, repo + "/repo:" + rest);
    Regroup(app, "/repo:", repo, rest);
  }

  lemma Regroup(a: string, u: string, b: string, c: string)
    ensures (a + u + b) + u + c == a + u + (b + u + c)
  {
  }

  lemma RepositoryIdKey(app: string, repo: string)
    ensures IdKey(app, Repository(repo)) == app + "/repo:" + repo
  {
    assert "/repo:" == "/" + "repo:";
  }

  // ----- Requests -----

  /** The JSON body of a token request; absent fields are not serialised. */
  datatype TokenRequest = TokenRequest(repositories: Option<seq<string>>, permissions: Option<Permissions>)

  /** `build_create_installation_token_request`; `None` is its refusal of a repository scope without a
      repository. */
  function BuildTokenRequest(scope: TokenScope, target: InstallationTarget): Option<TokenRequest> {
    var permissions := if scope.permissions == map[] then None else Some(scope.permissions);
    match (scope.repositories, target)
    case (All, _) => Some(TokenRequest(None, permissions))
    case (OnlyRequested, Repository(repo)) =>
      var name := match SplitOnce(repo, '/') case Some((_, name)) => name case None => repo;
      Some(TokenRequest(Some([name]), permissions))
    case (OnlyRequested, Account(_)) => None
  }

  /** What a token request asks for: one repository exactly where the scope is limited to it, and
      permissions exactly where the scope names some. A limited scope for an owner is refused, since it
      could only be widened. */
  lemma TokenRequestForms(permissions: Permissions, owner: string, name: string)
    ensures BuildTokenRequest(TokenScope(OnlyRequested, permissions), Account(owner)).None?
    ensures forall target :: BuildTokenRequest(TokenScope(All, map[]), target) == Some(TokenRequest(None, None))
    ensures permissions != map[] ==> forall target ::
      BuildTokenRequest(TokenScope(All, permissions), target) == Some(TokenRequest(None, Some(permissions)))
    ensures '/' !in owner ==>
      BuildTokenRequest(TokenScope(OnlyRequested, permissions), Repository(owner + "/" + name)) ==
        Some(TokenRequest(Some([name]), if permissions == map[] then None else Some(permissions)))
    ensures '/' !in name ==>
      BuildTokenRequest(TokenScope(OnlyRequested, permissions), Repository(name)) ==
        Some(TokenRequest(Some([name]), if permissions == map[] then None else Some(permissions)))
  {
    if '/' !in owner { SplitOnceUnique(owner, name, '/'); }
  }

  /** A request to mint, as GitHub sees it: the app that signs it, the installation it addresses and
      the body. */
  datatype Post = Post(appId: nat, installationId: nat, body: TokenRequest)

  datatype InstallationToken = InstallationToken(
    token: string, expiresAt: string, permissions: Permissions, repositorySelection: Option<string>)

  // ----- Installation lookup -----

  /** GitHub's answer to an installation lookup: an id, `404 Not Found`, or anything else. */
  datatype Reply = Found(id: nat) | NotFound | Broken

  /** Where a lookup is sent. */
  datatype Lookup = RepositoryLookup(owner: string, name: string) | OrganizationLookup(owner: string)
                  | UserLookup(owner: string)

  /** GitHub's installations as a function: what each app is answered on each lookup path. */
  type Directory = (nat, Lookup) -> Reply

  /** The first lookup for a target; `None` where a repository is not in `owner/name` form. */
  function FirstLookup(target: InstallationTarget): Option<Lookup> {
    match target
    case Repository(repo) =>
      (match SplitOnce(repo, '/')
       case Some((owner, name)) => Some(RepositoryLookup(owner, name))
       case None => None)
    case Account(owner) => Some(OrganizationLookup(owner))
  }

  function IdOf(reply: Reply): Option<nat> {
    if reply.Found? then Some(reply.id) else None
  }

  /** `installation_id`: the uncached lookup, an organization first and a user after its 404. */
  function Resolve(directory: Directory, appId: nat, target: InstallationTarget): Option<nat> {
    match FirstLookup(target)
    case None => None
    case Some(lookup) =>
      var reply := directory(appId, lookup);
      if lookup.OrganizationLookup? && reply.NotFound? then IdOf(directory(appId, UserLookup(lookup.owner)))
      else IdOf(reply)
  }

  /** Whose installation a target is: an owner's as an organization, and as a user exactly after GitHub
      knows no such organization; a repository's under the owner before its first slash. */
  lemma ResolveByCases(directory: Directory, appId: nat, owner: string, name: string)
    ensures Resolve(directory, appId, Account(owner)) ==
      match directory(appId, OrganizationLookup(owner))
      case Found(id) => Some(id)
      case Broken => None
      case NotFound =>
        match directory(appId, UserLookup(owner))
        case Found(id) => Some(id)
        case _ => None
    ensures '/' !in owner ==>
      Resolve(directory, appId, Repository(owner + "/" + name)) ==
        match directory(appId, RepositoryLookup(owner, name))
        case Found(id) => Some(id)
        case _ => None
    ensures '/' !in owner ==> Resolve(directory, appId, Repository(owner)) == None
  {
    if '/' !in owner { SplitOnceUnique(owner, name, '/'); }
  }

  /** The repository named in a token request is the one its installation was looked up by. */
  lemma ScopedNameIsLookupName(scope: TokenScope, repo: string)
    requires '/' in repo && scope.repositories.OnlyRequested?
    ensures FirstLookup(Repository(repo)).Some? && FirstLookup(Repository(repo)).value.RepositoryLookup?
    ensures BuildTokenRequest(scope, Repository(repo)).value.repositories
         == Some([FirstLookup(Repository(repo)).value.name])
  {
  }

  // ----- The cache -----

  datatype TokenKey = TokenKey(githubApp: string, target: InstallationTarget, scope: TokenScope)

  datatype CachedToken = CachedToken(token: InstallationToken, refreshAfter: Instant)

  datatype Cache = Cache(ids: map<string, nat>, tokens: map<TokenKey, CachedToken>)
  {
    /** A token is served until its refresh time, exclusively. */
    function FindToken(key: TokenKey, now: Instant): Option<InstallationToken> {
      if key in tokens && tokens[key].refreshAfter > now then Some(tokens[key].token) else None
    }

    function PutToken(key: TokenKey, token: InstallationToken, refreshAfter: Instant): Cache {
      this.(tokens := tokens[key := CachedToken(token, refreshAfter)])
    }

    function FindId(appName: string, target: InstallationTarget): Option<nat> {
      var key := IdKey(appName, target);
      if key in ids then Some(ids[key]) else None
    }

    function PutId(appName: string, target: InstallationTarget, id: nat): Cache {
      this.(ids := ids[IdKey(appName, target) := id])
    }
  }

  /** What a call meets outside the process while nothing else runs: GitHub's directory, GitHub's
      answer to a mint, whether signing works, and the clock at its two readings. */
  datatype Surroundings = Surroundings(
    directory: Directory, mint: Post -> Option<InstallationToken>, signs: bool, readAt: Instant, writtenAt: Instant)

  datatype Outcome = Outcome(cache: Cache, token: Option<InstallationToken>, post: Option<Post>)

  /** One undisturbed call of `create_installation_token`. */
  function CallAlone(
    cache: Cache, around: Surroundings, app: GithubAppConfig, target: InstallationTarget, scope: TokenScope): Outcome
  {
    var hit := cache.FindToken(TokenKey(app.name, target, scope), around.readAt);
    if hit.Some? then Outcome(cache, hit, None)
    else if !around.signs then Outcome(cache, None, None)
    else LookUpAlone(cache, around, app, target, scope)
  }

  /** The part of the call that follows the signing of the JWT. */
  function LookUpAlone(
    cache: Cache, around: Surroundings, app: GithubAppConfig, target: InstallationTarget, scope: TokenScope): Outcome
  {
    match cache.FindId(app.name, target)
    case Some(id) => MintAlone(cache, around, app, target, scope, id)
    case None =>
      match Resolve(around.directory, app.appId, target)
      case None => Outcome(cache, None, None)
      case Some(id) => MintAlone(cache.PutId(app.name, target, id), around, app, target, scope, id)
  }

  /** The part of the call that follows the lookup of the installation. */
  function MintAlone(
    cache: Cache, around: Surroundings, app: GithubAppConfig, target: InstallationTarget, scope: TokenScope, id: nat)
    : Outcome
  {
    match BuildTokenRequest(scope, target)
    case None => Outcome(cache, None, None)
    case Some(body) =>
      var post := Post(app.appId, id, body);
      match around.mint(post)
      case None => Outcome(cache, None, Some(post))
      case Some(token) =>
        var key := TokenKey(app.name, target, scope);
        Outcome(cache.PutToken(key, token, around.writtenAt + CACHE_TTL), Some(token), Some(post))
  }

  /** The client's cache as the object that its methods update in place. */
  class GithubClient {
    var installationIds: map<string, nat>
    var installationTokens: map<TokenKey, CachedToken>

    ghost function Contents(): Cache
      reads this
    {
      Cache(installationIds, installationTokens)
    }

    constructor ()
      ensures Contents() == Cache(map[], map[])
    {
      installationIds := map[];
      installationTokens := map[];
    }

    method CachedInstallationToken(key: TokenKey, now: Instant) returns (r: Option<InstallationToken>)
      ensures r == Contents().FindToken(key, now)
    {
      if key in installationTokens && installationTokens[key].refreshAfter > now {
        return Some(installationTokens[key].token);
      }
      return None;
    }

    method CacheInstallationToken(key: TokenKey, token: InstallationToken, now: Instant)
      modifies this
      ensures Contents() == old(Contents()).PutToken(key, token, now + 3_000_000_000_000)
    {
      var refreshAfter := now + CACHE_TTL;
      installationTokens := installationTokens[key := CachedToken(token, refreshAfter)];
    }

    method CachedInstallationId(directory: Directory, app: GithubAppConfig, target: InstallationTarget)
      returns (r: Option<nat>)
      modifies this
      ensures old(Contents()).FindId(app.name, target).Some? ==>
        r == old(Contents()).FindId(app.name, target) && Contents() == old(Contents())
      ensures old(Contents()).FindId(app.name, target).None? ==>
        && r == Resolve(directory, app.appId, target)
        && Contents() == if r.Some? then old(Contents()).PutId(app.name, target, r.value) else old(Contents())
    {
      var cacheKey := IdKey(app.name, target);
      if cacheKey in installationIds {
        return Some(installationIds[cacheKey]);
      }
      r := Resolve(directory, app.appId, target);
      if r.Some? {
        installationIds := installationIds[cacheKey := r.value];
      }
    }

    method CreateInstallationToken(
      around: Surroundings, app: GithubAppConfig, target: InstallationTarget, scope: TokenScope)
      returns (token: Option<InstallationToken>, post: Option<Post>)
      modifies this
      ensures Outcome(Contents(), token, post) == CallAlone(old(Contents()), around, app, target, scope)
    {
      var key := TokenKey(app.name, target, scope);
      token := CachedInstallationToken(key, around.readAt);
      post := None;
      if token.Some? { return; }
      if !around.signs { return; }
      var id := CachedInstallationId(around.directory, app, target);
      if id.None? { return; }
      ghost var looked := Contents();
      assert CallAlone(old(Contents()), around, app, target, scope)
        == MintAlone(looked, around, app, target, scope, id.value);
      var request := BuildTokenRequest(scope, target);
      if request.None? { return; }
      post := Some(Post(app.appId, id.value, request.value));
      token := around.mint(post.value);
      if token.Some? {
        CacheInstallationToken(key, token.value, around.writtenAt);
      }
    }
  }
}
