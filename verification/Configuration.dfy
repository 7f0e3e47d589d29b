// The configuration the service loads, and what it means for one to be acceptable.
module Configuration {
  import opened Wrappers
  import opened Text
  import opened Authzoo

  const SELF_ACCESS_REPOSITORY_CLAIM := "repository"
  const SELF_ACCESS_OWNER_CLAIM := "repository_owner"

  datatype TlsConfig = TlsConfig(certificateFile: string, privateKeyFile: string)

  datatype KeySource = Local | Kms

  datatype WebhookTarget = Nats

  datatype NatsConfig = NatsConfig(endpoint: string, subjectBase: string, tokenPath: Option<string>)

  datatype GithubAppConfig = GithubAppConfig(
    name: string, appId: nat, secretKey: string, webhookTarget: Option<WebhookTarget>,
    webhookValidationSecretFile: Option<string>, allowedRoles: seq<string>)

  type Permissions = map<string, string>

  datatype InstallationPolicyConfig = InstallationPolicyConfig(
    githubApp: string, repositories: seq<string>, role: string,
    requiredClaims: map<string, ClaimRequirement>, allowSelfAccess: bool, permissions: Permissions)

  datatype OwnerPolicyConfig = OwnerPolicyConfig(
    githubApp: string, owners: seq<string>, role: string,
    requiredClaims: map<string, ClaimRequirement>, allowSelfAccess: bool, permissions: Permissions)

  datatype Config = Config(
    bindAddress: string, tls: Option<TlsConfig>, keySource: KeySource, privateKeyDirectory: string,
    nats: Option<NatsConfig>, roles: seq<RoleConfig>, githubApps: seq<GithubAppConfig>,
    installationPolicies: seq<InstallationPolicyConfig>, ownerPolicies: seq<OwnerPolicyConfig>)

  /** What the build fixes: the authzoo library, and whether the `kms` feature is compiled in. */
  datatype Build = Build(authzoo: Library, kmsFeature: bool)

  /** The characters with the Unicode White_Space property. */
  predicate IsWhitespace(c: char) {
    || '\t' <= c <= '\r' || c == ' ' || c == '\U{0085}' || c == '\U{00A0}' || c == '\U{1680}'
    || '\U{2000}' <= c <= '\U{200A}' || c == '\U{2028}' || c == '\U{2029}' || c == '\U{202F}'
    || c == '\U{205F}' || c == '\U{3000}'
  }

  /** The same characters by their code points: twenty-five in all. */
  lemma WhitespaceCodePoints(c: char)
    ensures IsWhitespace(c) <==> c as int in {
      9, 10, 11, 12, 13, 32, 133, 160, 5760, 8192, 8193, 8194, 8195, 8196, 8197, 8198, 8199, 8200, 8201, 8202,
      8232, 8233, 8239, 8287, 12288}
  {
  }

  predicate HasWhitespace(s: string) {
    exists i | 0 <= i < |s| :: IsWhitespace(s[i])
  }

  /** `Path::is_absolute` on Unix. */
  predicate IsAbsolute(path: string) {
    path != "" && path[0] == '/'
  }

  predicate IsValidOwnerPattern(pattern: string) {
    pattern != "" && '/' !in pattern
  }

  predicate IsValidRepoPattern(pattern: string) {
    if pattern == "" then false
    else if pattern == "*" then true
    else
      match SplitOnce(pattern, '/')
      case None => false
      case Some((owner, name)) => '/' !in name && owner != "" && name != ""
  }

  /** A repository pattern is `*`, or two non-empty halves around its only slash. */
  lemma RepoPatternShape(pattern: string)
    ensures IsValidRepoPattern(pattern) <==>
      pattern == "*" || exists owner, name :: OwnerAndName(pattern, owner, name)
  {
    if owner, name :| OwnerAndName(pattern, owner, name) {
      SplitOnceUnique(owner, name, '/');
    }
    if IsValidRepoPattern(pattern) && pattern != "*" {
      var (owner, name) := SplitOnce(pattern, '/').value;
      assert OwnerAndName(pattern, owner, name);
    }
  }

  ghost predicate OwnerAndName(text: string, owner: string, name: string) {
    text == owner + "/" + name && owner != "" && name != "" && '/' !in owner && '/' !in name
  }

  /** `any_nats_webhook_target`. */
  predicate UsesNats(c: Config) {
    exists i | 0 <= i < |c.githubApps| :: c.githubApps[i].webhookTarget == Some(Nats)
  }

  // ----- Acceptable configurations, stated without an order of checking -----

  ghost predicate NatsOk(nats: NatsConfig) {
    && nats.endpoint != "" && nats.subjectBase != "" && nats.tokenPath != Some("")
    && forall ch :: ch in nats.subjectBase ==> !IsWhitespace(ch)
  }

  /** authzoo accepts every role, and no two have the same name. */
  ghost predicate RolesOk(lib: Library, roles: seq<RoleConfig>) {
    && (forall role :: role in roles ==> lib.trustAccepted(role.name, role.trust))
    && (forall role, claim :: role in roles && claim in role.claims ==>
          lib.requirementAccepted(claim, role.claims[claim]))
    && (forall i, j :: 0 <= i < |roles| && 0 <= j < |roles| && roles[i].name == roles[j].name ==> i == j)
  }

  ghost predicate ServerOk(build: Build, c: Config, disableAuth: bool) {
    && c.bindAddress != ""
    && (c.tls.Some? ==> c.tls.value.certificateFile != "" && c.tls.value.privateKeyFile != "")
    && (if c.keySource.Local? then c.privateKeyDirectory != "" else build.kmsFeature)
    && (forall app :: app in c.githubApps && app.webhookTarget == Some(Nats) ==> c.nats.Some?)
    && (c.nats.Some? ==> NatsOk(c.nats.value))
    && RolesOk(build.authzoo, c.roles)
    && (disableAuth || c.roles != [])
    && c.githubApps != []
  }

  /** A path that stays below the directory it is resolved in. */
  ghost predicate IsRelativeFile(path: string) {
    !("/" <= path) && forall before, after :: path != before + ".." + after
  }

  ghost predicate AppOk(c: Config, app: GithubAppConfig) {
    && app.name != "" && '/' !in app.name && app.appId != 0 && app.secretKey != ""
    && (c.keySource.Local? ==> IsRelativeFile(app.secretKey))
    && app.webhookValidationSecretFile != Some("")
  }

  ghost predicate NamesDistinct(apps: seq<GithubAppConfig>) {
    forall i, j :: 0 <= i < j < |apps| ==> apps[i].name != apps[j].name
  }

  ghost predicate RoleKnown(c: Config, role: string) {
    role != "" && exists r :: r in c.roles && r.name == role
  }

  ghost predicate InstallationPolicyOk(build: Build, c: Config, p: InstallationPolicyConfig) {
    && p.githubApp != "" && (exists app :: app in c.githubApps && app.name == p.githubApp)
    && p.repositories != []
    && (forall pattern :: pattern in p.repositories ==>
          pattern == "*" || exists owner, name :: OwnerAndName(pattern, owner, name))
    && RoleKnown(c, p.role)
    && (p.requiredClaims != map[] || p.allowSelfAccess)
    && (forall claim :: claim in p.requiredClaims ==>
          claim != "" && build.authzoo.requirementAccepted(claim, p.requiredClaims[claim]))
    && (forall role :: role in c.roles && role.name == p.role ==>
          && p.requiredClaims.Keys !! role.claims.Keys
          && (p.allowSelfAccess ==> "repository" !in p.requiredClaims && "repository" !in role.claims))
    && p.permissions != map[]
  }

  ghost predicate OwnerPolicyOk(build: Build, c: Config, p: OwnerPolicyConfig) {
    && p.githubApp != "" && (exists app :: app in c.githubApps && app.name == p.githubApp)
    && p.owners != [] && (forall pattern :: pattern in p.owners ==> pattern != "" && '/' !in pattern)
    && RoleKnown(c, p.role)
    && (p.requiredClaims != map[] || p.allowSelfAccess)
    && (forall claim :: claim in p.requiredClaims ==>
          claim != "" && build.authzoo.requirementAccepted(claim, p.requiredClaims[claim]))
    && (forall role :: role in c.roles && role.name == p.role ==>
          && p.requiredClaims.Keys !! role.claims.Keys
          && (p.allowSelfAccess ==> "repository_owner" !in p.requiredClaims && "repository_owner" !in role.claims))
    && p.permissions != map[]
  }

  ghost predicate HasGrant(c: Config, app: GithubAppConfig) {
    || app.allowedRoles != []
    || (exists p :: p in c.installationPolicies && p.githubApp == app.name)
    || (exists p :: p in c.ownerPolicies && p.githubApp == app.name)
  }

  /** What is required only of a service that authenticates its callers. */
  ghost predicate GrantsOk(build: Build, c: Config) {
    && (forall app, role :: app in c.githubApps && role in app.allowedRoles ==> RoleKnown(c, role))
    && (forall p :: p in c.installationPolicies ==> InstallationPolicyOk(build, c, p))
    && (forall p :: p in c.ownerPolicies ==> OwnerPolicyOk(build, c, p))
    && (forall app :: app in c.githubApps ==> HasGrant(c, app))
  }

  ghost predicate WellFormed(build: Build, c: Config, disableAuth: bool) {
    && ServerOk(build, c, disableAuth)
    && (forall app :: app in c.githubApps ==> AppOk(c, app))
    && NamesDistinct(c.githubApps)
    && (disableAuth || GrantsOk(build, c))
  }

  /** A configuration accepted with authentication is accepted without it; what disabling it gives up
      is exactly the need for roles and the checks of who is granted what. */
  lemma DisablingAuthKeepsAcceptance(build: Build, c: Config)
    ensures WellFormed(build, c, false) ==> WellFormed(build, c, true)
    ensures WellFormed(build, c, false) <==> WellFormed(build, c, true) && c.roles != [] && GrantsOk(build, c)
  {
  }

  // ----- What the checks compute, and the two kinds of policy in one form -----

  lemma UsesNatsMeaning(c: Config)
    ensures UsesNats(c) <==> exists app :: app in c.githubApps && app.webhookTarget == Some(Nats)
  {
    if app :| app in c.githubApps && app.webhookTarget == Some(Nats) {
      var i :| 0 <= i < |c.githubApps| && c.githubApps[i] == app;
    }
  }

  lemma RolesAcceptedMeaning(lib: Library, roles: seq<RoleConfig>)
    ensures RolesAccepted(lib, roles) <==> RolesOk(lib, roles)
  {
    if RolesAccepted(lib, roles) {
      forall role | role in roles
        ensures lib.trustAccepted(role.name, role.trust)
        ensures forall claim :: claim in role.claims ==> lib.requirementAccepted(claim, role.claims[claim])
      {
        var i :| 0 <= i < |roles| && roles[i] == role;
        assert RoleAccepted(lib, roles[i]);
      }
    }
    if RolesOk(lib, roles) {
      forall i | 0 <= i < |roles| ensures RoleAccepted(lib, roles[i]) { assert roles[i] in roles; }
    }
  }

  lemma RelativeFileMeaning(path: string)
    ensures IsRelativeFile(path) <==> !IsAbsolute(path) && !ContainsText(path, "..")
  {
    ContainsTextMeaning(path, "..");
  }

  /** The parts the two kinds of policy share, with the claim that self-access constrains. */
  datatype Policy = Policy(
    githubApp: string, patterns: seq<string>, role: string, requiredClaims: map<string, ClaimRequirement>,
    allowSelfAccess: bool, selfClaim: string, permissions: Permissions)

  function InstallationPolicy(p: InstallationPolicyConfig): Policy {
    Policy(p.githubApp, p.repositories, p.role, p.requiredClaims, p.allowSelfAccess,
           SELF_ACCESS_REPOSITORY_CLAIM, p.permissions)
  }

  function OwnerPolicy(p: OwnerPolicyConfig): Policy {
    Policy(p.githubApp, p.owners, p.role, p.requiredClaims, p.allowSelfAccess,
           SELF_ACCESS_OWNER_CLAIM, p.permissions)
  }

  /** The claims a policy adds to its role do not meet the claims the role already has, so adding
      them is a disjoint union. */
  ghost predicate ClaimsDisjoint(p: Policy, role: RoleConfig) {
    && p.requiredClaims.Keys !! role.claims.Keys
    && (p.allowSelfAccess ==> p.selfClaim !in p.requiredClaims && p.selfClaim !in role.claims)
  }

  ghost predicate PolicyOk(build: Build, c: Config, p: Policy, validPattern: string -> bool) {
    && p.githubApp != ""
    && (exists app :: app in c.githubApps && app.name == p.githubApp)
    && p.patterns != [] && (forall pattern :: pattern in p.patterns ==> validPattern(pattern))
    && RoleKnown(c, p.role)
    && (p.requiredClaims != map[] || p.allowSelfAccess)
    && (forall claim :: claim in p.requiredClaims ==>
          claim != "" && build.authzoo.requirementAccepted(claim, p.requiredClaims[claim]))
    && (forall role :: role in c.roles && role.name == p.role ==> ClaimsDisjoint(p, role))
    && p.permissions != map[]
  }

  /** An accepted installation policy, in the form both kinds share. */
  lemma InstallationPolicyForm(build: Build, c: Config, p: InstallationPolicyConfig)
    ensures InstallationPolicyOk(build, c, p) <==> PolicyOk(build, c, InstallationPolicy(p), IsValidRepoPattern)
  {
    forall pattern {
      RepoPatternShape(pattern);
    }
  }

  lemma OwnerPolicyForm(build: Build, c: Config, p: OwnerPolicyConfig)
    ensures OwnerPolicyOk(build, c, p) <==> PolicyOk(build, c, OwnerPolicy(p), IsValidOwnerPattern)
  {
  }
}
