// What the program relies on of the authzoo library, whose code is not part of the repository.
// Verifying a token's signature, issuer, audience and lifetime, and judging a configured role or
// claim requirement, are arbitrary functions of a Library value: every result holds for all of them.
module Authzoo {
  import opened Wrappers

  datatype ClaimValue = Text(text: string) | List(items: seq<string>) | Other

  datatype ClaimRequirement = Equals(value: string) | AnyOf(values: seq<string>) | Contains(item: string)

  type Claims = map<string, ClaimValue>

  datatype RoleTrust = RoleTrust(
    audience: string, issuer: string, validationKey: Option<string>, algorithms: seq<string>)

  datatype RoleConfig = RoleConfig(name: string, trust: RoleTrust, claims: map<string, ClaimRequirement>)

  datatype Library = Library(
    verify: (RoleTrust, string) -> Option<Claims>,
    trustAccepted: (string, RoleTrust) -> bool,
    requirementAccepted: (string, ClaimRequirement) -> bool)

  predicate Satisfies(claims: Claims, name: string, requirement: ClaimRequirement) {
    name in claims &&
    match requirement
    case Equals(value) => claims[name] == Text(value)
    case AnyOf(values) => claims[name].Text? && claims[name].text in values
    case Contains(item) => claims[name].List? && item in claims[name].items
  }

  predicate SatisfiesAll(claims: Claims, requirements: map<string, ClaimRequirement>) {
    forall name | name in requirements :: Satisfies(claims, name, requirements[name])
  }

  /** What each kind of requirement asks of a claim: a text, one of several texts, or a list with an item. */
  lemma RequirementKinds(claims: Claims, name: string, value: string, values: seq<string>, item: string)
    ensures Satisfies(claims, name, Equals(value)) <==> name in claims && claims[name] == ClaimValue.Text(value)
    ensures Satisfies(claims, name, AnyOf(values)) <==>
      name in claims && exists v :: v in values && claims[name] == ClaimValue.Text(v)
    ensures Satisfies(claims, name, Contains(item)) <==>
      name in claims && exists items :: item in items && claims[name] == List(items)
  {
    if Satisfies(claims, name, AnyOf(values)) { assert claims[name] == ClaimValue.Text(claims[name].text); }
    if Satisfies(claims, name, Contains(item)) { assert claims[name] == List(claims[name].items); }
  }

  /** A role matches a token when the base checks hold and every entry of its claims is satisfied. */
  predicate RoleMatches(lib: Library, role: RoleConfig, token: string) {
    match lib.verify(role.trust, token)
    case None => false
    case Some(claims) => SatisfiesAll(claims, role.claims)
  }

  predicate RoleAccepted(lib: Library, role: RoleConfig) {
    && lib.trustAccepted(role.name, role.trust)
    && forall name | name in role.claims :: lib.requirementAccepted(name, role.claims[name])
  }

  predicate RolesAccepted(lib: Library, roles: seq<RoleConfig>) {
    && (forall i | 0 <= i < |roles| :: RoleAccepted(lib, roles[i]))
    && (forall i, j | 0 <= i < j < |roles| :: roles[i].name != roles[j].name)
  }

  function RolesByName(roles: seq<RoleConfig>): map<string, RoleConfig> {
    if roles == [] then map[]
    else
      var last := roles[|roles| - 1];
      RolesByName(roles[..|roles| - 1])[last.name := last]
  }

  lemma {:induction false} RolesByNameComplete(roles: seq<RoleConfig>, role: RoleConfig)
    requires role in roles
    ensures role.name in RolesByName(roles)
  {
    var n := |roles| - 1;
    assert roles == roles[..n] + [roles[n]];
    if role == roles[n] {
    } else {
      RolesByNameComplete(roles[..n], role);
    }
  }

  lemma {:induction false} RolesByNameSound(roles: seq<RoleConfig>, name: string)
    requires name in RolesByName(roles)
    ensures RolesByName(roles)[name] in roles && RolesByName(roles)[name].name == name
  {
    var n := |roles| - 1;
    if name == roles[n].name {
    } else {
      RolesByNameSound(roles[..n], name);
    }
  }

  /** With distinct names, looking a role up by its name finds that role. */
  lemma RolesByNameFinds(lib: Library, roles: seq<RoleConfig>, role: RoleConfig)
    requires RolesAccepted(lib, roles) && role in roles
    ensures role.name in RolesByName(roles) && RolesByName(roles)[role.name] == role
  {
    RolesByNameComplete(roles, role);
    RolesByNameSound(roles, role.name);
    var found := RolesByName(roles)[role.name];
    var i :| 0 <= i < |roles| && roles[i] == role;
    var j :| 0 <= j < |roles| && roles[j] == found;
    assert roles[i].name == roles[j].name && i == j;
  }

  /** `TokenValidator::new`. */
  function NewValidator(lib: Library, roles: seq<RoleConfig>): (r: Option<map<string, RoleConfig>>)
    ensures r.Some? <==> RolesAccepted(lib, roles)
  {
    if RolesAccepted(lib, roles) then Some(RolesByName(roles)) else None
  }

  /** `TokenValidator::validate`: the names of the roles that match. */
  function MatchingRoles(lib: Library, roles: map<string, RoleConfig>, token: string): set<string> {
    set name | name in roles && RoleMatches(lib, roles[name], token)
  }

  /** A validator's answer to a token: exactly the names of the configured roles that match it. */
  lemma ValidatorAnswers(lib: Library, roles: seq<RoleConfig>, token: string, name: string)
    requires NewValidator(lib, roles).Some?
    ensures name in MatchingRoles(lib, NewValidator(lib, roles).value, token) <==>
      exists role :: role in roles && role.name == name && RoleMatches(lib, role, token)
  {
    if name in RolesByName(roles) { RolesByNameSound(roles, name); }
    forall role | role in roles && role.name == name
      ensures name in RolesByName(roles) && RolesByName(roles)[name] == role
    {
      RolesByNameFinds(lib, roles, role);
    }
  }
}
