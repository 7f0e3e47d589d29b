// `Config::validate`: the ordered, early-exit check of a configuration, proved to accept exactly
// the well-formed configurations and to report exactly the first fault in the order of checking.
module Validation {
  import opened Wrappers
  import opened Text
  import opened Authzoo
  import opened Configuration

  datatype ServerFault =
    | BindAddressEmpty | TlsCertificateEmpty | TlsKeyEmpty | KeyDirectoryEmpty | KmsNotBuilt | NatsBlockMissing
    | NatsEndpointEmpty | SubjectBaseEmpty | SubjectBaseWhitespace | NatsTokenPathEmpty | RolesRejected
    | NoRoles | NoApps

  datatype AppFault =
    | NameEmpty | NameHasSlash | AppIdZero | SecretKeyMissing | SecretKeyNotRelative | WebhookSecretEmpty
    | NameDuplicate | AllowedRoleEmpty | AllowedRoleUnknown

  datatype PolicyFault =
    | AppEmpty | AppUnknown | NoPatterns | PatternInvalid | RoleEmpty | RoleUnknown | NoClaims
    | ClaimNameEmpty | ClaimRejected(claim: string) | ClaimInRole(claim: string)
    | SelfClaimRequired | SelfClaimInRole | NoPermissions

  /** What `validate` can report: a fault and the entry that shows it. */
  datatype ConfigError =
    | ServerError(server: ServerFault)
    | AppError(index: nat, app: AppFault)
    | InstallationError(index: nat, policy: PolicyFault)
    | OwnerError(index: nat, policy: PolicyFault)
    | NoGrantError(index: nat)

  // ----- The order of checking -----

  function ServerRank(fault: ServerFault): nat {
    match fault
    case BindAddressEmpty => 0 case TlsCertificateEmpty => 1 case TlsKeyEmpty => 2
    case KeyDirectoryEmpty => 3 case KmsNotBuilt => 4 case NatsBlockMissing => 5
    case NatsEndpointEmpty => 6 case SubjectBaseEmpty => 7 case SubjectBaseWhitespace => 8
    case NatsTokenPathEmpty => 9 case RolesRejected => 10 case NoRoles => 11 case NoApps => 12
  }

  function AppRank(fault: AppFault): nat {
    match fault
    case NameEmpty => 0 case NameHasSlash => 1 case AppIdZero => 2 case SecretKeyMissing => 3
    case SecretKeyNotRelative => 4 case WebhookSecretEmpty => 5 case NameDuplicate => 6
    case AllowedRoleEmpty => 7 case AllowedRoleUnknown => 8
  }

  /** The three checks of single claims share a position, within which `ClaimPrecedes` decides.
      Permissions are checked last for an installation policy, and before the claims for an owner
      policy. */
  function PolicyRank(fault: PolicyFault, permissionsRank: nat): nat {
    match fault
    case AppEmpty => 0 case AppUnknown => 1 case NoPatterns => 2 case PatternInvalid => 3
    case RoleEmpty => 4 case RoleUnknown => 5 case NoClaims => 7
    case ClaimNameEmpty => 8 case ClaimRejected(_) => 8 case ClaimInRole(_) => 8
    case SelfClaimRequired => 9 case SelfClaimInRole => 10
    case NoPermissions => permissionsRank
  }

  /** The claim a fault is about, and its place among the checks of that claim. */
  function ClaimOf(fault: PolicyFault): (string, nat) {
    match fault
    case ClaimRejected(claim) => (claim, 1)
    case ClaimInRole(claim) => (claim, 2)
    case _ => ("", 0)
  }

  /** Claims are checked in the order of their names, and each of them completely. */
  predicate ClaimPrecedes(a: PolicyFault, b: PolicyFault) {
    var ((claim, place), (claim', place')) := (ClaimOf(a), ClaimOf(b));
    LexLess(claim, claim') || (claim == claim' && place < place')
  }

  predicate PolicyPrecedes(a: PolicyFault, b: PolicyFault, permissionsRank: nat) {
    || PolicyRank(a, permissionsRank) < PolicyRank(b, permissionsRank)
    || (PolicyRank(a, permissionsRank) == PolicyRank(b, permissionsRank) && ClaimPrecedes(a, b))
  }

  const INSTALLATION_PERMISSIONS_RANK := 11
  const OWNER_PERMISSIONS_RANK := 6

  function Phase(e: ConfigError): nat {
    match e
    case ServerError(_) => 0 case AppError(_, _) => 1 case InstallationError(_, _) => 2
    case OwnerError(_, _) => 3 case NoGrantError(_) => 4
  }

  function Entry(e: ConfigError): nat {
    if e.ServerError? then 0 else e.index
  }

  /** Of two faults of the same entry, the one that is checked first. */
  predicate PrecedesWithin(a: ConfigError, b: ConfigError) {
    match (a, b)
    case (ServerError(fault), ServerError(fault')) => ServerRank(fault) < ServerRank(fault')
    case (AppError(_, fault), AppError(_, fault')) => AppRank(fault) < AppRank(fault')
    case (InstallationError(_, fault), InstallationError(_, fault')) =>
      PolicyPrecedes(fault, fault', INSTALLATION_PERMISSIONS_RANK)
    case (OwnerError(_, fault), OwnerError(_, fault')) => PolicyPrecedes(fault, fault', OWNER_PERMISSIONS_RANK)
    case _ => false
  }

  predicate Precedes(a: ConfigError, b: ConfigError) {
    || Phase(a) < Phase(b)
    || (Phase(a) == Phase(b) && Entry(a) < Entry(b))
    || (Phase(a) == Phase(b) && Entry(a) == Entry(b) && PrecedesWithin(a, b))
  }

  // ----- What each fault means -----

  ghost predicate RoleNamed(c: Config, role: string) {
    exists r :: r in c.roles && r.name == role
  }

  ghost predicate RoleHasClaim(c: Config, name: string, claim: string) {
    exists role :: role in c.roles && role.name == name && claim in role.claims
  }

  ghost predicate AppNamed(c: Config, name: string) {
    exists app :: app in c.githubApps && app.name == name
  }

  ghost predicate HasServerFault(build: Build, c: Config, disableAuth: bool, fault: ServerFault) {
    match fault
    case BindAddressEmpty => c.bindAddress == ""
    case TlsCertificateEmpty => c.tls.Some? && c.tls.value.certificateFile == ""
    case TlsKeyEmpty => c.tls.Some? && c.tls.value.privateKeyFile == ""
    case KeyDirectoryEmpty => c.keySource.Local? && c.privateKeyDirectory == ""
    case KmsNotBuilt => c.keySource.Kms? && !build.kmsFeature
    case NatsBlockMissing => c.nats.None? && exists app :: app in c.githubApps && app.webhookTarget == Some(Nats)
    case NatsEndpointEmpty => c.nats.Some? && c.nats.value.endpoint == ""
    case SubjectBaseEmpty => c.nats.Some? && c.nats.value.subjectBase == ""
    case SubjectBaseWhitespace => c.nats.Some? && exists ch :: ch in c.nats.value.subjectBase && IsWhitespace(ch)
    case NatsTokenPathEmpty => c.nats.Some? && c.nats.value.tokenPath == Some("")
    case RolesRejected => !RolesOk(build.authzoo, c.roles)
    case NoRoles => !disableAuth && c.roles == []
    case NoApps => c.githubApps == []
  }

  ghost predicate HasAppFault(c: Config, disableAuth: bool, i: nat, fault: AppFault)
    requires i < |c.githubApps|
  {
    var app := c.githubApps[i];
    match fault
    case NameEmpty => app.name == ""
    case NameHasSlash => '/' in app.name
    case AppIdZero => app.appId == 0
    case SecretKeyMissing => app.secretKey == ""
    case SecretKeyNotRelative => c.keySource.Local? && !IsRelativeFile(app.secretKey)
    case WebhookSecretEmpty => app.webhookValidationSecretFile == Some("")
    case NameDuplicate => exists j :: 0 <= j < i && c.githubApps[j].name == app.name
    case AllowedRoleEmpty => !disableAuth && "" in app.allowedRoles
    case AllowedRoleUnknown => !disableAuth && exists role :: role in app.allowedRoles && !RoleNamed(c, role)
  }

  ghost predicate HasPolicyFault(
    build: Build, c: Config, p: Policy, validPattern: string -> bool, fault: PolicyFault)
  {
    match fault
    case AppEmpty => p.githubApp == ""
    case AppUnknown => !AppNamed(c, p.githubApp)
    case NoPatterns => p.patterns == []
    case PatternInvalid => exists pattern :: pattern in p.patterns && !validPattern(pattern)
    case RoleEmpty => p.role == ""
    case RoleUnknown => !RoleNamed(c, p.role)
    case NoClaims => p.requiredClaims == map[] && !p.allowSelfAccess
    case ClaimNameEmpty => "" in p.requiredClaims
    case ClaimRejected(claim) =>
      claim in p.requiredClaims && !build.authzoo.requirementAccepted(claim, p.requiredClaims[claim])
    case ClaimInRole(claim) => claim in p.requiredClaims && RoleHasClaim(c, p.role, claim)
    case SelfClaimRequired => p.allowSelfAccess && p.selfClaim in p.requiredClaims
    case SelfClaimInRole => p.allowSelfAccess && RoleHasClaim(c, p.role, p.selfClaim)
    case NoPermissions => p.permissions == map[]
  }

  ghost predicate Exhibits(build: Build, c: Config, disableAuth: bool, e: ConfigError) {
    match e
    case ServerError(fault) => HasServerFault(build, c, disableAuth, fault)
    case AppError(i, fault) => i < |c.githubApps| && HasAppFault(c, disableAuth, i, fault)
    case InstallationError(i, fault) => !disableAuth && i < |c.installationPolicies| &&
      HasPolicyFault(build, c, InstallationPolicy(c.installationPolicies[i]), IsValidRepoPattern, fault)
    case OwnerError(i, fault) => !disableAuth && i < |c.ownerPolicies| &&
      HasPolicyFault(build, c, OwnerPolicy(c.ownerPolicies[i]), IsValidOwnerPattern, fault)
    case NoGrantError(i) => !disableAuth && i < |c.githubApps| && !HasGrant(c, c.githubApps[i])
  }

  /** The fault is there, and none that is checked before it is. */
  ghost predicate IsFirstFault(build: Build, c: Config, disableAuth: bool, error: ConfigError) {
    && Exhibits(build, c, disableAuth, error)
    && forall e :: Precedes(e, error) ==> !Exhibits(build, c, disableAuth, e)
  }

  // ----- No fault anywhere is the same as being well-formed -----

  lemma ServerFaultlessIffOk(build: Build, c: Config, disableAuth: bool)
    ensures (forall fault :: !HasServerFault(build, c, disableAuth, fault)) <==> ServerOk(build, c, disableAuth)
  {
    if forall fault :: !HasServerFault(build, c, disableAuth, fault) {
      assert !HasServerFault(build, c, disableAuth, BindAddressEmpty);
      assert !HasServerFault(build, c, disableAuth, TlsCertificateEmpty);
      assert !HasServerFault(build, c, disableAuth, TlsKeyEmpty);
      assert !HasServerFault(build, c, disableAuth, KeyDirectoryEmpty);
      assert !HasServerFault(build, c, disableAuth, KmsNotBuilt);
      assert !HasServerFault(build, c, disableAuth, NatsBlockMissing);
      assert !HasServerFault(build, c, disableAuth, NatsEndpointEmpty);
      assert !HasServerFault(build, c, disableAuth, SubjectBaseEmpty);
      assert !HasServerFault(build, c, disableAuth, SubjectBaseWhitespace);
      assert !HasServerFault(build, c, disableAuth, NatsTokenPathEmpty);
      assert !HasServerFault(build, c, disableAuth, RolesRejected);
      assert !HasServerFault(build, c, disableAuth, NoRoles);
      assert !HasServerFault(build, c, disableAuth, NoApps);
    }
  }

  /** What a faultless entry of `[[github-app]]` is, in its place after the earlier entries. */
  ghost predicate AppEntryOk(c: Config, disableAuth: bool, i: nat)
    requires i < |c.githubApps|
  {
    var app := c.githubApps[i];
    && AppOk(c, app)
    && (forall j :: 0 <= j < i ==> c.githubApps[j].name != app.name)
    && (!disableAuth ==> forall role :: role in app.allowedRoles ==> RoleKnown(c, role))
  }

  lemma AppFaultlessIffOk(c: Config, disableAuth: bool, i: nat)
    requires i < |c.githubApps|
    ensures (forall fault :: !HasAppFault(c, disableAuth, i, fault)) <==> AppEntryOk(c, disableAuth, i)
  {
    if forall fault :: !HasAppFault(c, disableAuth, i, fault) {
      assert !HasAppFault(c, disableAuth, i, NameEmpty);
      assert !HasAppFault(c, disableAuth, i, NameHasSlash);
      assert !HasAppFault(c, disableAuth, i, AppIdZero);
      assert !HasAppFault(c, disableAuth, i, SecretKeyMissing);
      assert !HasAppFault(c, disableAuth, i, SecretKeyNotRelative);
      assert !HasAppFault(c, disableAuth, i, WebhookSecretEmpty);
      assert !HasAppFault(c, disableAuth, i, NameDuplicate);
      assert !HasAppFault(c, disableAuth, i, AllowedRoleEmpty);
      assert !HasAppFault(c, disableAuth, i, AllowedRoleUnknown);
    }
  }

  lemma FaultlessPolicyIsOk(build: Build, c: Config, p: Policy, validPattern: string -> bool)
    requires forall fault :: !HasPolicyFault(build, c, p, validPattern, fault)
    ensures PolicyOk(build, c, p, validPattern)
  {
    assert !HasPolicyFault(build, c, p, validPattern, AppEmpty);
    assert !HasPolicyFault(build, c, p, validPattern, AppUnknown);
    assert !HasPolicyFault(build, c, p, validPattern, NoPatterns);
    assert !HasPolicyFault(build, c, p, validPattern, PatternInvalid);
    assert !HasPolicyFault(build, c, p, validPattern, RoleEmpty);
    assert !HasPolicyFault(build, c, p, validPattern, RoleUnknown);
    assert !HasPolicyFault(build, c, p, validPattern, NoClaims);
    assert !HasPolicyFault(build, c, p, validPattern, ClaimNameEmpty);
    forall claim | claim in p.requiredClaims
      ensures build.authzoo.requirementAccepted(claim, p.requiredClaims[claim]) && !RoleHasClaim(c, p.role, claim)
    {
      assert !HasPolicyFault(build, c, p, validPattern, ClaimRejected(claim));
      assert !HasPolicyFault(build, c, p, validPattern, ClaimInRole(claim));
    }
    assert !HasPolicyFault(build, c, p, validPattern, SelfClaimRequired);
    assert !HasPolicyFault(build, c, p, validPattern, SelfClaimInRole);
    assert !HasPolicyFault(build, c, p, validPattern, NoPermissions);
  }

  lemma OkPolicyIsFaultless(build: Build, c: Config, p: Policy, validPattern: string -> bool, fault: PolicyFault)
    requires PolicyOk(build, c, p, validPattern)
    ensures !HasPolicyFault(build, c, p, validPattern, fault)
  {
  }

  lemma PolicyFaultlessIffOk(build: Build, c: Config, p: Policy, validPattern: string -> bool)
    ensures (forall fault :: !HasPolicyFault(build, c, p, validPattern, fault))
       <==> PolicyOk(build, c, p, validPattern)
  {
    if forall fault :: !HasPolicyFault(build, c, p, validPattern, fault) {
      FaultlessPolicyIsOk(build, c, p, validPattern);
    }
    if PolicyOk(build, c, p, validPattern) {
      forall fault ensures !HasPolicyFault(build, c, p, validPattern, fault) {
        OkPolicyIsFaultless(build, c, p, validPattern, fault);
      }
    }
  }

  /** A configuration is well-formed exactly when `validate` has nothing to report about it. */
  lemma WellFormedIffFaultless(build: Build, c: Config, disableAuth: bool)
    ensures (forall e :: !Exhibits(build, c, disableAuth, e)) <==> WellFormed(build, c, disableAuth)
  {
    if forall e :: !Exhibits(build, c, disableAuth, e) {
      FaultlessIsWellFormed(build, c, disableAuth);
    }
    if WellFormed(build, c, disableAuth) {
      forall e ensures !Exhibits(build, c, disableAuth, e) {
        match e
        case ServerError(_) => ServerFaultlessIffOk(build, c, disableAuth);
        case AppError(i, _) =>
          if i < |c.githubApps| {
            assert c.githubApps[i] in c.githubApps;
            AppFaultlessIffOk(c, disableAuth, i);
          }
        case InstallationError(i, _) =>
          if i < |c.installationPolicies| {
            assert c.installationPolicies[i] in c.installationPolicies;
            InstallationPolicyForm(build, c, c.installationPolicies[i]);
            PolicyFaultlessIffOk(build, c, InstallationPolicy(c.installationPolicies[i]), IsValidRepoPattern);
          }
        case OwnerError(i, _) =>
          if i < |c.ownerPolicies| {
            assert c.ownerPolicies[i] in c.ownerPolicies;
            OwnerPolicyForm(build, c, c.ownerPolicies[i]);
            PolicyFaultlessIffOk(build, c, OwnerPolicy(c.ownerPolicies[i]), IsValidOwnerPattern);
          }
        case NoGrantError(i) => if i < |c.githubApps| { assert c.githubApps[i] in c.githubApps; }
      }
    }
  }

  lemma FaultlessIsWellFormed(build: Build, c: Config, disableAuth: bool)
    requires forall e :: !Exhibits(build, c, disableAuth, e)
    ensures WellFormed(build, c, disableAuth)
  {
    forall fault ensures !HasServerFault(build, c, disableAuth, fault) {
      assert !Exhibits(build, c, disableAuth, ServerError(fault));
    }
    ServerFaultlessIffOk(build, c, disableAuth);
    forall i: nat | i < |c.githubApps| ensures AppEntryOk(c, disableAuth, i) {
      forall fault ensures !HasAppFault(c, disableAuth, i, fault) {
        assert !Exhibits(build, c, disableAuth, AppError(i, fault));
      }
      AppFaultlessIffOk(c, disableAuth, i);
    }
    AppEntriesOk(c, disableAuth);
    if !disableAuth {
      FaultlessGrants(build, c);
    }
  }

  lemma AppEntriesOk(c: Config, disableAuth: bool)
    requires forall i: nat :: i < |c.githubApps| ==> AppEntryOk(c, disableAuth, i)
    ensures forall app :: app in c.githubApps ==> AppOk(c, app)
    ensures NamesDistinct(c.githubApps)
    ensures !disableAuth ==>
      forall app, role :: app in c.githubApps && role in app.allowedRoles ==> RoleKnown(c, role)
  {
    forall app | app in c.githubApps
      ensures AppOk(c, app) && (!disableAuth ==> forall role :: role in app.allowedRoles ==> RoleKnown(c, role))
    {
      var i: nat :| i < |c.githubApps| && c.githubApps[i] == app;
      assert AppEntryOk(c, disableAuth, i);
    }
    forall i, j | 0 <= i < j < |c.githubApps| ensures c.githubApps[i].name != c.githubApps[j].name {
      assert AppEntryOk(c, disableAuth, j);
    }
  }

  lemma FaultlessGrants(build: Build, c: Config)
    requires forall e :: !Exhibits(build, c, false, e)
    ensures forall p :: p in c.installationPolicies ==> InstallationPolicyOk(build, c, p)
    ensures forall p :: p in c.ownerPolicies ==> OwnerPolicyOk(build, c, p)
    ensures forall app :: app in c.githubApps ==> HasGrant(c, app)
  {
    forall p | p in c.installationPolicies ensures InstallationPolicyOk(build, c, p) {
      var i: nat :| i < |c.installationPolicies| && c.installationPolicies[i] == p;
      forall fault ensures !HasPolicyFault(build, c, InstallationPolicy(p), IsValidRepoPattern, fault) {
        assert !Exhibits(build, c, false, InstallationError(i, fault));
      }
      PolicyFaultlessIffOk(build, c, InstallationPolicy(p), IsValidRepoPattern);
      InstallationPolicyForm(build, c, p);
    }
    forall p | p in c.ownerPolicies ensures OwnerPolicyOk(build, c, p) {
      var i: nat :| i < |c.ownerPolicies| && c.ownerPolicies[i] == p;
      forall fault ensures !HasPolicyFault(build, c, OwnerPolicy(p), IsValidOwnerPattern, fault) {
        assert !Exhibits(build, c, false, OwnerError(i, fault));
      }
      PolicyFaultlessIffOk(build, c, OwnerPolicy(p), IsValidOwnerPattern);
      OwnerPolicyForm(build, c, p);
    }
    forall app | app in c.githubApps ensures HasGrant(c, app) {
      var i: nat :| i < |c.githubApps| && c.githubApps[i] == app;
      assert !Exhibits(build, c, false, NoGrantError(i));
    }
  }

  /** Every fault that shows with authentication disabled shows with authentication enabled. */
  lemma DisablingAuthHidesFaults(build: Build, c: Config, e: ConfigError)
    requires Exhibits(build, c, true, e)
    ensures Exhibits(build, c, false, e)
  {
  }

  // ----- The first fault -----

  /** There is at most one first fault: what `validate` reports is determined. */
  lemma FirstFaultIsUnique(build: Build, c: Config, disableAuth: bool, e: ConfigError, e': ConfigError)
    requires IsFirstFault(build, c, disableAuth, e) && IsFirstFault(build, c, disableAuth, e')
    ensures e == e'
  {
    PrecedesTotal(e, e');
  }

  lemma PolicyPrecedesTotal(a: PolicyFault, b: PolicyFault, permissionsRank: nat)
    requires permissionsRank == 6 || permissionsRank == 11
    ensures a == b || PolicyPrecedes(a, b, permissionsRank) || PolicyPrecedes(b, a, permissionsRank)
  {
    LexTotal(ClaimOf(a).0, ClaimOf(b).0);
  }

  lemma PrecedesTotal(a: ConfigError, b: ConfigError)
    ensures a == b || Precedes(a, b) || Precedes(b, a)
  {
    match (a, b)
    case (InstallationError(_, fault), InstallationError(_, fault')) => PolicyPrecedesTotal(fault, fault', 11);
    case (OwnerError(_, fault), OwnerError(_, fault')) => PolicyPrecedesTotal(fault, fault', 6);
    case _ =>
  }

  /** A missing `[nats]` block is what is reported exactly when it is missing, some app needs it, and the
      checks before this one pass. */
  lemma NatsBlockMissingWhen(build: Build, c: Config, disableAuth: bool)
    ensures IsFirstFault(build, c, disableAuth, ServerError(NatsBlockMissing)) <==>
      && c.nats.None? && (exists app :: app in c.githubApps && app.webhookTarget == Some(Nats))
      && c.bindAddress != ""
      && (c.tls.Some? ==> c.tls.value.certificateFile != "" && c.tls.value.privateKeyFile != "")
      && (if c.keySource.Local? then c.privateKeyDirectory != "" else build.kmsFeature)
  {
    var error := ServerError(NatsBlockMissing);
    if IsFirstFault(build, c, disableAuth, error) {
      forall fault | ServerRank(fault) < 5 ensures !HasServerFault(build, c, disableAuth, fault) {
        assert Precedes(ServerError(fault), error);
      }
      assert !HasServerFault(build, c, disableAuth, BindAddressEmpty);
      assert !HasServerFault(build, c, disableAuth, TlsCertificateEmpty);
      assert !HasServerFault(build, c, disableAuth, TlsKeyEmpty);
      assert !HasServerFault(build, c, disableAuth, KeyDirectoryEmpty);
      assert !HasServerFault(build, c, disableAuth, KmsNotBuilt);
    }
  }

  /** With an app that needs it, an accepted configuration has a `[nats]` block. */
  lemma AcceptedNatsUse(build: Build, c: Config, disableAuth: bool, app: GithubAppConfig)
    requires WellFormed(build, c, disableAuth) && app in c.githubApps && app.webhookTarget == Some(Nats)
    ensures c.nats.Some?
  {
  }

  // ----- The check itself -----

  ghost predicate IsFirstServerFault(build: Build, c: Config, disableAuth: bool, r: Option<ServerFault>) {
    match r
    case None => forall fault :: !HasServerFault(build, c, disableAuth, fault)
    case Some(found) =>
      && HasServerFault(build, c, disableAuth, found)
      && forall fault :: ServerRank(fault) < ServerRank(found) ==> !HasServerFault(build, c, disableAuth, fault)
  }

  ghost predicate IsFirstAppFault(c: Config, disableAuth: bool, i: nat, r: Option<AppFault>)
    requires i < |c.githubApps|
  {
    match r
    case None => forall fault :: !HasAppFault(c, disableAuth, i, fault)
    case Some(found) =>
      && HasAppFault(c, disableAuth, i, found)
      && forall fault :: AppRank(fault) < AppRank(found) ==> !HasAppFault(c, disableAuth, i, fault)
  }

  ghost predicate IsFirstPolicyFault(
    build: Build, c: Config, p: Policy, validPattern: string -> bool, permissionsRank: nat, r: Option<PolicyFault>)
  {
    match r
    case None => forall fault :: !HasPolicyFault(build, c, p, validPattern, fault)
    case Some(found) =>
      && HasPolicyFault(build, c, p, validPattern, found)
      && forall fault :: PolicyPrecedes(fault, found, permissionsRank)
           ==> !HasPolicyFault(build, c, p, validPattern, fault)
  }

  method CheckServer(build: Build, c: Config, disableAuth: bool) returns (r: Option<ServerFault>)
    ensures IsFirstServerFault(build, c, disableAuth, r)
  {
    if c.bindAddress == "" { return Some(BindAddressEmpty); }
    if c.tls.Some? {
      if c.tls.value.certificateFile == "" { return Some(TlsCertificateEmpty); }
      if c.tls.value.privateKeyFile == "" { return Some(TlsKeyEmpty); }
    }
    if c.keySource == Local && c.privateKeyDirectory == "" { return Some(KeyDirectoryEmpty); }
    if c.keySource == Kms && !build.kmsFeature { return Some(KmsNotBuilt); }
    UsesNatsMeaning(c);
    if UsesNats(c) && c.nats.None? { return Some(NatsBlockMissing); }
    if c.nats.Some? {
      var nats := c.nats.value;
      if nats.endpoint == "" { return Some(NatsEndpointEmpty); }
      if nats.subjectBase == "" { return Some(SubjectBaseEmpty); }
      if HasWhitespace(nats.subjectBase) { return Some(SubjectBaseWhitespace); }
      if nats.tokenPath == Some("") { return Some(NatsTokenPathEmpty); }
    }
    RolesAcceptedMeaning(build.authzoo, c.roles);
    var roleValidator := NewValidator(build.authzoo, c.roles);
    if roleValidator.None? { return Some(RolesRejected); }
    if !disableAuth && c.roles == [] { return Some(NoRoles); }
    if c.githubApps == [] { return Some(NoApps); }
    return None;
  }

  /** The configured roles, looked up by name. */
  lemma RoleLookup(build: Build, c: Config, name: string)
    requires RolesAccepted(build.authzoo, c.roles)
    ensures name in RolesByName(c.roles) <==> RoleNamed(c, name)
    ensures name in RolesByName(c.roles) ==>
      forall claim :: RoleHasClaim(c, name, claim) <==> claim in RolesByName(c.roles)[name].claims
  {
    if name in RolesByName(c.roles) { RolesByNameSound(c.roles, name); }
    forall role | role in c.roles && role.name == name
      ensures name in RolesByName(c.roles) && RolesByName(c.roles)[name] == role
    {
      RolesByNameFinds(build.authzoo, c.roles, role);
    }
  }

  method CheckApp(build: Build, c: Config, disableAuth: bool, i: nat, names: set<string>)
    returns (r: Option<AppFault>)
    requires i < |c.githubApps| && RolesAccepted(build.authzoo, c.roles)
    requires names == set j | 0 <= j < i :: c.githubApps[j].name
    ensures IsFirstAppFault(c, disableAuth, i, r)
  {
    var app := c.githubApps[i];
    if app.name == "" { return Some(NameEmpty); }
    if '/' in app.name { return Some(NameHasSlash); }
    if app.appId == 0 { return Some(AppIdZero); }
    if app.secretKey == "" { return Some(SecretKeyMissing); }
    RelativeFileMeaning(app.secretKey);
    if c.keySource == Local && (IsAbsolute(app.secretKey) || ContainsText(app.secretKey, "..")) {
      return Some(SecretKeyNotRelative);
    }
    if app.webhookValidationSecretFile == Some("") { return Some(WebhookSecretEmpty); }
    if app.name in names { return Some(NameDuplicate); }
    if !disableAuth {
      for k := 0 to |app.allowedRoles|
        invariant forall j :: 0 <= j < k ==> app.allowedRoles[j] != ""
      {
        if app.allowedRoles[k] == "" { return Some(AllowedRoleEmpty); }
      }
      var roles := RolesByName(c.roles);
      for k := 0 to |app.allowedRoles|
        invariant forall j :: 0 <= j < k ==> RoleNamed(c, app.allowedRoles[j])
      {
        RoleLookup(build, c, app.allowedRoles[k]);
        if app.allowedRoles[k] !in roles { return Some(AllowedRoleUnknown); }
      }
    }
    return None;
  }

  predicate HasClaimFault(
    build: Build, required: map<string, ClaimRequirement>, roleClaims: map<string, ClaimRequirement>,
    fault: PolicyFault)
  {
    match fault
    case ClaimNameEmpty => "" in required
    case ClaimRejected(claim) => claim in required && !build.authzoo.requirementAccepted(claim, required[claim])
    case ClaimInRole(claim) => claim in required && claim in roleClaims
    case _ => false
  }

  /** The claims a policy adds, checked one by one against the role's own claims, in the order of their
      names. */
  method CheckClaims(
    build: Build, required: map<string, ClaimRequirement>, roleClaims: map<string, ClaimRequirement>)
    returns (r: Option<PolicyFault>)
    ensures r.None? ==> forall fault :: !HasClaimFault(build, required, roleClaims, fault)
    ensures r.Some? ==>
      && HasClaimFault(build, required, roleClaims, r.value)
      && forall fault :: ClaimPrecedes(fault, r.value) ==> !HasClaimFault(build, required, roleClaims, fault)
  {
    var todo := required.Keys;
    while todo != {}
      invariant todo <= required.Keys
      invariant forall claim, later :: claim in required.Keys - todo && later in todo ==> LexLess(claim, later)
      invariant forall claim :: claim in required.Keys - todo ==>
        claim != "" && build.authzoo.requirementAccepted(claim, required[claim]) && claim !in roleClaims
    {
      LeastExists(todo);
      var claim :| IsLeast(claim, todo);
      forall other | other in required && LexLess(other, claim) ensures other !in todo { LexTotal(other, claim); }
      if claim == "" { return Some(ClaimNameEmpty); }
      if !build.authzoo.requirementAccepted(claim, required[claim]) { return Some(ClaimRejected(claim)); }
      if claim in roleClaims { return Some(ClaimInRole(claim)); }
      todo := todo - {claim};
    }
    return None;
  }

  /** The checks every policy starts with: whom it is for, what it covers and which role it needs. */
  method CheckPolicyTarget(
    build: Build, c: Config, names: set<string>, p: Policy, validPattern: string -> bool, ghost rank: nat)
    returns (r: Option<PolicyFault>)
    requires RolesAccepted(build.authzoo, c.roles) && 5 < rank
    requires forall name :: name in names <==> AppNamed(c, name)
    ensures r.Some? ==> IsFirstPolicyFault(build, c, p, validPattern, rank, r)
    ensures r.None? ==> PassesUpTo(build, c, p, validPattern, rank, 6)
  {
    RoleLookup(build, c, p.role);
    if p.githubApp == "" { return Some(AppEmpty); }
    if p.githubApp !in names { return Some(AppUnknown); }
    if p.patterns == [] { return Some(NoPatterns); }
    for k := 0 to |p.patterns|
      invariant forall j :: 0 <= j < k ==> validPattern(p.patterns[j])
    {
      if !validPattern(p.patterns[k]) { return Some(PatternInvalid); }
    }
    if p.role == "" { return Some(RoleEmpty); }
    if p.role !in RolesByName(c.roles) { return Some(RoleUnknown); }
    return None;
  }

  ghost predicate PassesUpTo(
    build: Build, c: Config, p: Policy, validPattern: string -> bool, permissionsRank: nat, bound: nat)
  {
    forall fault :: PolicyRank(fault, permissionsRank) < bound && fault != NoPermissions
      ==> !HasPolicyFault(build, c, p, validPattern, fault)
  }

  /** The faults of single claims are those against the role that the policy names. */
  lemma ClaimFaults(build: Build, c: Config, p: Policy, validPattern: string -> bool)
    requires RolesAccepted(build.authzoo, c.roles) && p.role in RolesByName(c.roles)
    ensures forall fault: PolicyFault | fault.ClaimNameEmpty? || fault.ClaimRejected? || fault.ClaimInRole? ::
      HasPolicyFault(build, c, p, validPattern, fault) ==
      HasClaimFault(build, p.requiredClaims, RolesByName(c.roles)[p.role].claims, fault)
  {
    RoleLookup(build, c, p.role);
  }

  /** A fault that is not about a single claim is the first one, once all earlier checks have passed. */
  lemma FirstAfterPassing(
    build: Build, c: Config, p: Policy, validPattern: string -> bool, rank: nat, found: PolicyFault)
    requires PassesUpTo(build, c, p, validPattern, rank, PolicyRank(found, rank))
    requires HasPolicyFault(build, c, p, validPattern, found) && ClaimOf(found) == ("", 0)
    requires rank < PolicyRank(found, rank) ==> p.permissions != map[]
    ensures IsFirstPolicyFault(build, c, p, validPattern, rank, Some(found))
  {
  }

  /** So is the first fault of a single claim. */
  lemma FirstClaimFault(
    build: Build, c: Config, p: Policy, validPattern: string -> bool, rank: nat, found: PolicyFault)
    requires RolesAccepted(build.authzoo, c.roles) && p.role in RolesByName(c.roles)
    requires PassesUpTo(build, c, p, validPattern, rank, 8) && rank != 8 && (rank < 8 ==> p.permissions != map[])
    requires var roleClaims := RolesByName(c.roles)[p.role].claims;
      && HasClaimFault(build, p.requiredClaims, roleClaims, found)
      && forall fault :: ClaimPrecedes(fault, found) ==> !HasClaimFault(build, p.requiredClaims, roleClaims, fault)
    ensures IsFirstPolicyFault(build, c, p, validPattern, rank, Some(found))
  {
    ClaimFaults(build, c, p, validPattern);
  }

  /** The claim that self-access adds is in neither of the two sets. */
  method CheckSelfAccess(
    build: Build, c: Config, p: Policy, roleClaims: map<string, ClaimRequirement>,
    ghost validPattern: string -> bool, ghost rank: nat)
    returns (r: Option<PolicyFault>)
    requires RolesAccepted(build.authzoo, c.roles)
    requires p.role in RolesByName(c.roles) && roleClaims == RolesByName(c.roles)[p.role].claims
    requires PassesUpTo(build, c, p, validPattern, rank, 9)
    requires rank < 9 ==> p.permissions != map[]
    requires rank == 6 || rank == 11
    ensures r.Some? ==> IsFirstPolicyFault(build, c, p, validPattern, rank, r)
    ensures r.None? ==> PassesUpTo(build, c, p, validPattern, rank, 11)
  {
    RoleLookup(build, c, p.role);
    if p.allowSelfAccess {
      if p.selfClaim in p.requiredClaims {
        FirstAfterPassing(build, c, p, validPattern, rank, SelfClaimRequired);
        return Some(SelfClaimRequired);
      }
      if p.selfClaim in roleClaims {
        FirstAfterPassing(build, c, p, validPattern, rank, SelfClaimInRole);
        return Some(SelfClaimInRole);
      }
    }
    return None;
  }

  /** The checks that keep the claims a policy adds apart from those of its role. */
  method CheckPolicyClaims(
    build: Build, c: Config, p: Policy, ghost validPattern: string -> bool, ghost rank: nat)
    returns (r: Option<PolicyFault>)
    requires RolesAccepted(build.authzoo, c.roles)
    requires p.role in RolesByName(c.roles)
    requires PassesUpTo(build, c, p, validPattern, rank, 7)
    requires rank < 7 ==> p.permissions != map[]
    requires rank == 6 || rank == 11
    ensures r.Some? ==> IsFirstPolicyFault(build, c, p, validPattern, rank, r)
    ensures r.None? ==> PassesUpTo(build, c, p, validPattern, rank, 11)
  {
    if p.requiredClaims == map[] && !p.allowSelfAccess {
      FirstAfterPassing(build, c, p, validPattern, rank, NoClaims);
      return Some(NoClaims);
    }
    var roleClaims := RolesByName(c.roles)[p.role].claims;
    r := CheckClaims(build, p.requiredClaims, roleClaims);
    if r.Some? {
      FirstClaimFault(build, c, p, validPattern, rank, r.value);
      return;
    }
    assert PassesUpTo(build, c, p, validPattern, rank, 9) by { ClaimFaults(build, c, p, validPattern); }
    r := CheckSelfAccess(build, c, p, roleClaims, validPattern, rank);
  }

  method CheckInstallationPolicy(build: Build, c: Config, names: set<string>, policy: InstallationPolicyConfig)
    returns (r: Option<PolicyFault>)
    requires RolesAccepted(build.authzoo, c.roles)
    requires forall name :: name in names <==> AppNamed(c, name)
    ensures IsFirstPolicyFault(
      build, c, InstallationPolicy(policy), IsValidRepoPattern, INSTALLATION_PERMISSIONS_RANK, r)
  {
    var p := InstallationPolicy(policy);
    r := CheckPolicyTarget(build, c, names, p, IsValidRepoPattern, INSTALLATION_PERMISSIONS_RANK);
    if r.Some? { return; }
    assert p.role in RolesByName(c.roles) by {
      assert !HasPolicyFault(build, c, p, IsValidRepoPattern, RoleUnknown);
      RoleLookup(build, c, p.role);
    }
    r := CheckPolicyClaims(build, c, p, IsValidRepoPattern, INSTALLATION_PERMISSIONS_RANK);
    if r.Some? { return; }
    if p.permissions == map[] { return Some(NoPermissions); }
  }

  method CheckOwnerPolicy(build: Build, c: Config, names: set<string>, policy: OwnerPolicyConfig)
    returns (r: Option<PolicyFault>)
    requires RolesAccepted(build.authzoo, c.roles)
    requires forall name :: name in names <==> AppNamed(c, name)
    ensures IsFirstPolicyFault(build, c, OwnerPolicy(policy), IsValidOwnerPattern, OWNER_PERMISSIONS_RANK, r)
  {
    var p := OwnerPolicy(policy);
    r := CheckPolicyTarget(build, c, names, p, IsValidOwnerPattern, OWNER_PERMISSIONS_RANK);
    if r.Some? { return; }
    assert p.role in RolesByName(c.roles) by {
      assert !HasPolicyFault(build, c, p, IsValidOwnerPattern, RoleUnknown);
      RoleLookup(build, c, p.role);
    }
    if p.permissions == map[] { return Some(NoPermissions); }
    r := CheckPolicyClaims(build, c, p, IsValidOwnerPattern, OWNER_PERMISSIONS_RANK);
  }

  /** `Config::validate`: accepts exactly the well-formed configurations, and otherwise reports the
      first fault in the order of checking. */
  method Validate(build: Build, c: Config, disableAuth: bool) returns (r: Option<ConfigError>)
    ensures r.None? <==> WellFormed(build, c, disableAuth)
    ensures r.Some? ==> IsFirstFault(build, c, disableAuth, r.value)
  {
    var server := CheckServer(build, c, disableAuth);
    if server.Some? {
      r := Some(ServerError(server.value));
      WellFormedIffFaultless(build, c, disableAuth);
      return;
    }
    assert !HasServerFault(build, c, disableAuth, RolesRejected);
    RolesAcceptedMeaning(build.authzoo, c.roles);
    var names: set<string> := {};
    for i := 0 to |c.githubApps|
      invariant names == set j | 0 <= j < i :: c.githubApps[j].name
      invariant forall e :: Phase(e) == 0 || (Phase(e) == 1 && e.index < i) ==>
        !Exhibits(build, c, disableAuth, e)
    {
      var app := CheckApp(build, c, disableAuth, i, names);
      if app.Some? {
        r := Some(AppError(i, app.value));
        assert Exhibits(build, c, disableAuth, r.value);
        WellFormedIffFaultless(build, c, disableAuth);
        return;
      }
      names := names + {c.githubApps[i].name};
    }
    if !disableAuth {
      r := CheckGrants(build, c, names);
    } else {
      r := None;
    }
    WellFormedIffFaultless(build, c, disableAuth);
  }

  /** The part of `validate` that a service without authentication skips. */
  method CheckGrants(build: Build, c: Config, names: set<string>) returns (r: Option<ConfigError>)
    requires forall name :: name in names <==> AppNamed(c, name)
    requires RolesAccepted(build.authzoo, c.roles)
    requires forall e :: Phase(e) <= 1 ==> !Exhibits(build, c, false, e)
    ensures r.None? ==> forall e :: !Exhibits(build, c, false, e)
    ensures r.Some? ==> IsFirstFault(build, c, false, r.value)
  {
    for i := 0 to |c.installationPolicies|
      invariant forall e :: Phase(e) <= 1 || (Phase(e) == 2 && e.index < i) ==> !Exhibits(build, c, false, e)
    {
      var fault := CheckInstallationPolicy(build, c, names, c.installationPolicies[i]);
      if fault.Some? { return Some(InstallationError(i, fault.value)); }
    }
    for i := 0 to |c.ownerPolicies|
      invariant forall e :: Phase(e) <= 2 || (Phase(e) == 3 && e.index < i) ==> !Exhibits(build, c, false, e)
    {
      var fault := CheckOwnerPolicy(build, c, names, c.ownerPolicies[i]);
      if fault.Some? { return Some(OwnerError(i, fault.value)); }
    }
    for i := 0 to |c.githubApps|
      invariant forall e :: Phase(e) <= 3 || (Phase(e) == 4 && e.index < i) ==> !Exhibits(build, c, false, e)
    {
      var app := c.githubApps[i];
      var hasInstallationPolicy :=
        exists j | 0 <= j < |c.installationPolicies| :: c.installationPolicies[j].githubApp == app.name;
      var hasOwnerPolicy := exists j | 0 <= j < |c.ownerPolicies| :: c.ownerPolicies[j].githubApp == app.name;
      if app.allowedRoles == [] && !hasInstallationPolicy && !hasOwnerPolicy {
        return Some(NoGrantError(i));
      }
    }
    return None;
  }
}
