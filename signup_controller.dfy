/** The controller as a whole: for each action, the before-filters it runs (in
    declaration order, the first that renders halts the chain), then the action
    itself on the fields the filters set. */
module SignupController {
  import opened Wrappers
  import opened RubyValues
  import opened Steps
  import opened SignupModel
  import opened SignupHelpers
  import opened SignupCreate
  import opened HeaderAuthentication
  import opened SignupFilters

  datatype Action = CreateAction | CreateHttpAuthenticationAction | CreateHttpAuthenticationInProgressAction

  /** The filters that apply to each action, in the order they are declared. */
  function FiltersFor(a: Action): seq<Filter>
  {
    match a
    case CreateAction =>
      [LoadMandatoryOrganizationFilter, DisableIfLdapConfiguredFilter,
       InitializeGooglePlusConfigFilter, InitializeGithubConfigFilter]
    case CreateHttpAuthenticationAction =>
      [LoadOrganizationFilter, CheckOrganizationQuotasFilter, DisableIfLdapConfiguredFilter,
       InitializeGooglePlusConfigFilter, InitializeGithubConfigFilter]
    case CreateHttpAuthenticationInProgressAction =>
      [LoadOrganizationFilter, DisableIfLdapConfiguredFilter,
       InitializeGooglePlusConfigFilter, InitializeGithubConfigFilter]
  }

  function RunFilters(a: Action, req: Request, env: Env): Result<Controller, Response>
  {
    Fold(FiltersFor(a), Success(InitialController), FilterStepper(req, env))
  }

  /** The organisation `load_organization` picks for this request. */
  function LoadedOrganization(req: Request, env: Env): Option<Organization>
  {
    LoadOrganization(InitialController, req.subdomain, env.organizations).organization
  }

  /** The mandatory-organisation gate of `create`: an organisation is loaded and
      its sign-up page is open or the request carries a valid invitation. */
  predicate SignupOpen(req: Request, env: Env)
  {
    var loaded := LoadedOrganization(req, env);
    loaded.Some? && (loaded.value.signupPageEnabled || ValidEmailInvitationToken(req.params, loaded.value, env))
  }

  /** The filters of `create`: 404 unless the sign-up is open for the loaded
      organisation, then the issue page on a quota error, then 404 under LDAP;
      past all of them the action sees that organisation and the Google
      configuration. */
  lemma {:induction false} CreateFilterChain(req: Request, env: Env)
    ensures !SignupOpen(req, env) ==> RunFilters(CreateAction, req, env) == Failure(NotFound)
    ensures SignupOpen(req, env) && |env.validateForSignup(LoadedOrganization(req, env).value)| > 0 ==>
      RunFilters(CreateAction, req, env) == Failure(SignupIssue(OrganizationSource))
    ensures SignupOpen(req, env) && |env.validateForSignup(LoadedOrganization(req, env).value)| == 0 && env.ldapConfigured ==>
      RunFilters(CreateAction, req, env) == Failure(NotFound)
    ensures RunFilters(CreateAction, req, env).Success? <==>
      SignupOpen(req, env) && |env.validateForSignup(LoadedOrganization(req, env).value)| == 0 && !env.ldapConfigured
    ensures RunFilters(CreateAction, req, env).Success? ==>
      var c := RunFilters(CreateAction, req, env).value;
      c.organization == LoadedOrganization(req, env) && c.organization.Some?
      && c.googlePlusConfigured == env.googlePlusConfigured
  {
    FoldFour(LoadMandatoryOrganizationFilter, DisableIfLdapConfiguredFilter,
             InitializeGooglePlusConfigFilter, InitializeGithubConfigFilter,
             Success(InitialController), FilterStepper(req, env));
  }

  /** The filters of `create_http_authentication`: the issue page when a loaded
      organisation has quota errors, then 404 under LDAP; otherwise the action
      sees the loaded organisation, if any. */
  lemma {:induction false} HttpAuthenticationFilterChain(req: Request, env: Env)
    ensures
      var loaded := LoadedOrganization(req, env);
      var quotaIssue := loaded.Some? && |env.validateForSignup(loaded.value)| > 0;
      var r := RunFilters(CreateHttpAuthenticationAction, req, env);
      && (quotaIssue ==> r == Failure(SignupIssue(OrganizationSource)))
      && (!quotaIssue && env.ldapConfigured ==> r == Failure(NotFound))
      && (!quotaIssue && !env.ldapConfigured ==> r.Success? && r.value.organization == loaded)
  {
    FoldFive(LoadOrganizationFilter, CheckOrganizationQuotasFilter, DisableIfLdapConfiguredFilter,
             InitializeGooglePlusConfigFilter, InitializeGithubConfigFilter,
             Success(InitialController), FilterStepper(req, env));
  }

  /** The filters of the poll: only the LDAP shutdown can stop it. */
  lemma {:induction false} InProgressFilterChain(req: Request, env: Env)
    ensures RunFilters(CreateHttpAuthenticationInProgressAction, req, env) == Failure(NotFound) <==> env.ldapConfigured
    ensures RunFilters(CreateHttpAuthenticationInProgressAction, req, env).Success? <==> !env.ldapConfigured
  {
    FoldFour(LoadOrganizationFilter, DisableIfLdapConfiguredFilter,
             InitializeGooglePlusConfigFilter, InitializeGithubConfigFilter,
             Success(InitialController), FilterStepper(req, env));
  }

  /** The response to one request: the first filter that renders, or else the
      action's own response. */
  function Dispatch(a: Action, req: Request, env: Env): Response
  {
    match RunFilters(a, req, env)
    case Failure(halt) => halt
    case Success(c) =>
      match a
      case CreateAction =>
        CreateFilterChain(req, env);
        Create(req.params, c.organization.value, c.googlePlusConfigured, env)
      case CreateHttpAuthenticationAction =>
        CreateHttpAuthentication(c.organization, req.headers, env)
      case CreateHttpAuthenticationInProgressAction =>
        CreateHttpAuthenticationInProgress(env.authenticator)
  }

  /** Serves one request the way Rails does: runs the filters one by one, stops
      at the first that renders, then runs the action, whose configuration
      statements run one by one and stop at the first that raises. */
  method HandleRequest(a: Action, req: Request, env: Env) returns (resp: Response)
    ensures resp == Dispatch(a, req, env)
  {
    var filtered := RunSteps(FiltersFor(a), InitialController, FilterStepper(req, env));
    match filtered {
      case Failure(halt) =>
        resp := halt;
      case Success(c) =>
        match a {
          case CreateAction =>
            CreateFilterChain(req, env);
            var org := c.organization.value;
            var built := RunSteps(SignupSteps, InitialSignupState(req.params, org), SignupStepper(org, c.googlePlusConfigured));
            resp := SignupResponse(built, env);
          case CreateHttpAuthenticationAction =>
            resp := CreateHttpAuthentication(c.organization, req.headers, env);
          case CreateHttpAuthenticationInProgressAction =>
            resp := CreateHttpAuthenticationInProgress(env.authenticator);
        }
    }
  }

  // ---------------------------------------------------------------------------
  // Properties of the whole controller

  /** `create` end to end: 404 unless the sign-up is open (an organisation and
      an open page or a valid invitation), the issue page on quota errors, 404
      under LDAP, and otherwise the action on the loaded organisation. */
  lemma CreateDispatch(req: Request, env: Env)
    ensures !SignupOpen(req, env) ==> Dispatch(CreateAction, req, env) == NotFound
    ensures SignupOpen(req, env) && |env.validateForSignup(LoadedOrganization(req, env).value)| > 0 ==>
      Dispatch(CreateAction, req, env) == SignupIssue(OrganizationSource)
    ensures SignupOpen(req, env) && |env.validateForSignup(LoadedOrganization(req, env).value)| == 0 && !env.ldapConfigured ==>
      Dispatch(CreateAction, req, env) ==
        Create(req.params, LoadedOrganization(req, env).value, env.googlePlusConfigured, env)
  {
    CreateFilterChain(req, env);
  }

  /** With LDAP configured no action creates an account: every request ends
      in 404 or on the organisation issue page. */
  lemma LdapShutsDownSignup(a: Action, req: Request, env: Env)
    requires env.ldapConfigured
    ensures Dispatch(a, req, env) == NotFound || Dispatch(a, req, env) == SignupIssue(OrganizationSource)
  {
    match a
    case CreateAction => CreateFilterChain(req, env);
    case CreateHttpAuthenticationAction => HttpAuthenticationFilterChain(req, env);
    case CreateHttpAuthenticationInProgressAction => InProgressFilterChain(req, env);
  }

  /** An account is only ever created from a request the account creator
      accepted, and for `create` only when the sign-up is open for the loaded
      organisation. */
  lemma OnlyAcceptedRequestsAreCreated(a: Action, req: Request, env: Env)
    requires Dispatch(a, req, env).SignupConfirmation? && Dispatch(a, req, env).triggered.Some?
    ensures env.validate(Dispatch(a, req, env).triggered.value) == Valid
    ensures env.triggerError.None? && !env.ldapConfigured
    ensures a == CreateAction ==> SignupOpen(req, env)
    ensures a != CreateHttpAuthenticationInProgressAction
  {
    match a
    case CreateAction => CreateFilterChain(req, env);
    case CreateHttpAuthenticationAction => HttpAuthenticationFilterChain(req, env);
    case CreateHttpAuthenticationInProgressAction => InProgressFilterChain(req, env);
  }

  /** `create_http_authentication` end to end: past the quota check and the LDAP
      shutdown, the action's own gates decide, in their order. */
  lemma HttpAuthenticationDispatch(req: Request, env: Env)
    requires !env.ldapConfigured
    requires LoadedOrganization(req, env).Some? ==> |env.validateForSignup(LoadedOrganization(req, env).value)| == 0
    ensures Dispatch(CreateHttpAuthenticationAction, req, env) ==
            CreateHttpAuthentication(LoadedOrganization(req, env), req.headers, env)
  {
    HttpAuthenticationFilterChain(req, env);
  }

  /** The poll never creates anything, and without LDAP its answer depends on
      the authenticator alone. */
  lemma InProgressDispatch(req: Request, env: Env)
    ensures !env.ldapConfigured ==>
      Dispatch(CreateHttpAuthenticationInProgressAction, req, env) == CreateHttpAuthenticationInProgress(env.authenticator)
    ensures env.ldapConfigured ==> Dispatch(CreateHttpAuthenticationInProgressAction, req, env) == NotFound
    ensures !Dispatch(CreateHttpAuthenticationInProgressAction, req, env).SignupConfirmation?
            || Dispatch(CreateHttpAuthenticationInProgressAction, req, env).triggered.None?
  {
    InProgressFilterChain(req, env);
  }

  /** With a 'blp-global' organisation on record, `create` and the header
      actions work on it whatever the subdomain. */
  lemma BlpGlobalOverridesSubdomain(req: Request, env: Env, subdomain: Param)
    requires FindByName(env.organizations, BlpGlobal).Some?
    ensures LoadedOrganization(req, env) == FindByName(env.organizations, BlpGlobal)
    ensures LoadedOrganization(req.(subdomain := subdomain), env) == LoadedOrganization(req, env)
    ensures Dispatch(CreateAction, req.(subdomain := subdomain), env) == Dispatch(CreateAction, req, env)
    ensures Dispatch(CreateHttpAuthenticationAction, req.(subdomain := subdomain), env) ==
            Dispatch(CreateHttpAuthenticationAction, req, env)
    ensures Dispatch(CreateHttpAuthenticationInProgressAction, req.(subdomain := subdomain), env) ==
            Dispatch(CreateHttpAuthenticationInProgressAction, req, env)
  {
    CreateFilterChain(req, env);
    CreateFilterChain(req.(subdomain := subdomain), env);
    HttpAuthenticationFilterChain(req, env);
    HttpAuthenticationFilterChain(req.(subdomain := subdomain), env);
    InProgressFilterChain(req, env);
    InProgressFilterChain(req.(subdomain := subdomain), env);
  }
}
