/** The controller's before-filters: loading the organisation (with its
    hard-coded 'blp-global' override), the organisation quota check, the
    mandatory-organisation gate with its invitation bypass, the LDAP shutdown,
    and the two configuration loaders. A filter either updates the
    controller's fields or renders, which halts the chain. */
module SignupFilters {
  import opened Wrappers
  import opened RubyValues
  import opened Steps
  import opened SignupModel
  import opened SignupHelpers

  const BlpGlobal := "blp-global"

  /** `Organization.where(name: name).first`. */
  function FindByName(orgs: seq<Organization>, name: string): (r: Option<Organization>)
    ensures r.Some? ==> r.value in orgs && r.value.name == name
    ensures r.None? <==> forall o | o in orgs :: o.name != name
    ensures r.Some? ==> exists k | 0 <= k < |orgs| :: orgs[k] == r.value && forall j | 0 <= j < k :: orgs[j].name != name
  {
    if orgs == [] then None
    else if orgs[0].name == name then Some(orgs[0])
    else
      var r := FindByName(orgs[1..], name);
      assert r.Some? ==> exists k | 0 <= k < |orgs| - 1 :: orgs[1..][k] == r.value && forall j | 0 <= j < k :: orgs[1..][j].name != name;
      if r.Some? then
        ghost var k :| 0 <= k < |orgs| - 1 && orgs[1..][k] == r.value && forall j | 0 <= j < k :: orgs[1..][j].name != name;
        assert orgs[k + 1] == r.value && forall j | 0 <= j < k + 1 :: orgs[j].name != name;
        r
      else r
  }

  /** `load_organization`: the organisation named 'blp-global' whenever there is
      one, whatever the subdomain; otherwise the organisation named after the
      subdomain when there is a subdomain (possibly none); with no subdomain the
      field keeps its value. */
  function LoadOrganization(c: Controller, subdomain: Param, orgs: seq<Organization>): (c': Controller)
    ensures FindByName(orgs, BlpGlobal).Some? ==> c'.organization == FindByName(orgs, BlpGlobal)
    ensures FindByName(orgs, BlpGlobal).None? && subdomain.Str? ==> c'.organization == FindByName(orgs, subdomain.s)
    ensures FindByName(orgs, BlpGlobal).None? && subdomain.Nil? ==> c'.organization == c.organization
    ensures c'.(organization := c.organization) == c
  {
    match FindByName(orgs, BlpGlobal)
    case Some(blp) => c.(organization := Some(blp))
    case None =>
      if subdomain.Str? then c.(organization := FindByName(orgs, subdomain.s)) else c
  }

  /** `check_organization_quotas`: with an organisation loaded, the source
      becomes 'Organization' and any error from `validate_for_signup` renders
      the sign-up issue page; without one nothing happens. */
  function CheckOrganizationQuotas(c: Controller, env: Env): (r: Result<Controller, Response>)
    ensures c.organization.None? ==> r == Success(c)
    ensures c.organization.Some? && |env.validateForSignup(c.organization.value)| > 0 ==>
      r == Failure(SignupIssue(OrganizationSource))
    ensures c.organization.Some? && |env.validateForSignup(c.organization.value)| == 0 ==>
      r == Success(c.(signupSource := Some(OrganizationSource)))
  {
    match c.organization
    case None => Success(c)
    case Some(org) =>
      var c' := c.(signupSource := Some(OrganizationSource));
      if |env.validateForSignup(org)| > 0 then Failure(SignupIssue(OrganizationSource)) else Success(c')
  }

  /** `load_mandatory_organization`: load the organisation; 404 unless one was
      found and either its sign-up page is open or the request carries a valid
      invitation for it; then the quota check. */
  function LoadMandatoryOrganization(c: Controller, req: Request, env: Env): (r: Result<Controller, Response>)
    ensures
      var loaded := LoadOrganization(c, req.subdomain, env.organizations).organization;
      var open := loaded.Some? && (loaded.value.signupPageEnabled || ValidEmailInvitationToken(req.params, loaded.value, env));
      && (!open ==> r == Failure(NotFound))
      && (open && |env.validateForSignup(loaded.value)| > 0 ==> r == Failure(SignupIssue(OrganizationSource)))
      && (open && |env.validateForSignup(loaded.value)| == 0 ==>
            r == Success(LoadOrganization(c, req.subdomain, env.organizations).(signupSource := Some(OrganizationSource))))
  {
    var c' := LoadOrganization(c, req.subdomain, env.organizations);
    if !(c'.organization.Some? && (c'.organization.value.signupPageEnabled
                                   || ValidEmailInvitationToken(req.params, c'.organization.value, env)))
    then Failure(NotFound)
    else CheckOrganizationQuotas(c', env)
  }

  /** `disable_if_ldap_configured`: 404 when LDAP is configured. */
  function DisableIfLdapConfigured(c: Controller, env: Env): (r: Result<Controller, Response>)
    ensures r == Failure(NotFound) <==> env.ldapConfigured
    ensures !env.ldapConfigured ==> r == Success(c)
  {
    if env.ldapConfigured then Failure(NotFound) else Success(c)
  }

  /** `initialize_github_config`: skipped for an organisation that forbids GitHub. */
  function InitializeGithubConfig(c: Controller): (c': Controller)
    ensures c'.githubConfigLoaded <==> c.githubConfigLoaded || !(c.organization.Some? && !c.organization.value.authGithubEnabled)
    ensures c'.(githubConfigLoaded := c.githubConfigLoaded) == c
  {
    if c.organization.Some? && !c.organization.value.authGithubEnabled then c
    else c.(githubConfigLoaded := true)
  }

  datatype Filter =
    | LoadOrganizationFilter
    | CheckOrganizationQuotasFilter
    | LoadMandatoryOrganizationFilter
    | DisableIfLdapConfiguredFilter
    | InitializeGooglePlusConfigFilter
    | InitializeGithubConfigFilter

  /** One filter run against the controller's fields. */
  function ApplyFilter(f: Filter, c: Controller, req: Request, env: Env): Result<Controller, Response>
  {
    match f
    case LoadOrganizationFilter => Success(LoadOrganization(c, req.subdomain, env.organizations))
    case CheckOrganizationQuotasFilter => CheckOrganizationQuotas(c, env)
    case LoadMandatoryOrganizationFilter => LoadMandatoryOrganization(c, req, env)
    case DisableIfLdapConfiguredFilter => DisableIfLdapConfigured(c, env)
    case InitializeGooglePlusConfigFilter => Success(c.(googlePlusConfigured := env.googlePlusConfigured))
    case InitializeGithubConfigFilter => Success(InitializeGithubConfig(c))
  }

  function FilterStepper(req: Request, env: Env): (Filter, Controller) -> Result<Controller, Response>
  {
    (f, c) => ApplyFilter(f, c, req, env)
  }
}
