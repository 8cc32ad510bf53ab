/** The `create` action: the organisation sign-up. It configures an account
    creator step by step (credential policy first, then the Google token, then
    the GitHub token, then the identity fields), where each policy violation
    raises and so ends the action with a 400; it then sorts the creator's
    verdict into one of a fixed set of responses. */
module SignupCreate {
  import opened Wrappers
  import opened RubyValues
  import opened Steps
  import opened SignupModel
  import opened SignupHelpers

  const PasswordNotAllowed := "Organization doesn't allow user + password authentication"
  const GoogleNotAllowed := "Organization doesn't allow Google authentication"
  const GithubNotAllowed := "Organization doesn't allow GitHub authentication"
  const AlreadyRegistered := "User already registered, go to login"
  const UserNotValid := "User not valid"

  /** The statements of `create` that configure the account creator, in order. */
  datatype SignupStep =
    | CheckPasswordPolicy     // raise unless user + password sign-up is allowed
    | AttachGoogleToken       // merge the two Google parameters, attach the token
    | AttachGithubToken       // attach the GitHub token
    | ApplyIdentityOverrides  // with_username / with_email / with_password

  const SignupSteps: seq<SignupStep> :=
    [CheckPasswordPolicy, AttachGoogleToken, AttachGithubToken, ApplyIdentityOverrides]

  /** What the steps update: the creator being configured and the parameters
      (the Google step rewrites `params[:google_access_token]`). */
  datatype SignupState = SignupState(request: AccountRequest, params: Params)

  /** `UserAccountCreator.new(CREATED_VIA_ORG_SIGNUP).with_organization(org).with_invitation_token(token)`. */
  function InitialSignupState(p: Params, org: Organization): SignupState
  {
    SignupState(AccountRequest(OrgSignup, Some(org), p.invitationToken, [], None, None, None), p)
  }

  /** One step; a failure carries the message of the exception it raises. */
  function ApplySignupStep(step: SignupStep, st: SignupState, org: Organization, googlePlusConfigured: bool)
    : Result<SignupState, string>
  {
    match step
    case CheckPasswordPolicy =>
      if IsUserPasswordSignup(st.params) && !org.authUsernamePasswordEnabled then Failure(PasswordNotAllowed)
      else Success(st)
    case AttachGoogleToken =>
      var token := GoogleAccessTokenFromParams(st.params);
      var merged := st.params.(googleAccessToken := token);
      if !IsUserPasswordSignup(merged) && IsGoogleSignup(merged) && googlePlusConfigured then
        if !org.authGoogleEnabled then Failure(GoogleNotAllowed)
        else Success(SignupState(st.request.(claims := st.request.claims + [GoogleToken(token.s)]), merged))
      else
        Success(st.(params := merged))
    case AttachGithubToken =>
      var token := st.params.githubAccessToken;
      if token.Str? then
        if !org.authGithubEnabled then Failure(GithubNotAllowed)
        else Success(st.(request := st.request.(claims := st.request.claims + [GithubToken(token.s)])))
      else
        Success(st)
    case ApplyIdentityOverrides =>
      match st.params.user
      case None => Success(st)
      case Some(u) =>
        var r0 := st.request;
        var r1 := if Present(u.username) then r0.(username := Some(u.username.s)) else r0;
        var r2 := if Present(u.email) then r1.(email := Some(u.email.s)) else r1;
        var r3 := if Present(u.password) then r2.(password := Some(u.password.s)) else r2;
        Success(st.(request := r3))
  }

  function SignupStepper(org: Organization, googlePlusConfigured: bool)
    : (SignupStep, SignupState) -> Result<SignupState, string>
  {
    (step, st) => ApplySignupStep(step, st, org, googlePlusConfigured)
  }

  /** Lines 30-55 of `create`: the configured creator, or the first exception. */
  function BuildSignupRequest(p: Params, org: Organization, googlePlusConfigured: bool): Result<SignupState, string>
  {
    Fold(SignupSteps, Success(InitialSignupState(p, org)), SignupStepper(org, googlePlusConfigured))
  }

  /** Lines 57-82 of `create`: the response for a configured creator or for the
      exception that interrupted the configuration. */
  function SignupResponse(built: Result<SignupState, string>, env: Env): Response
  {
    match built
    case Failure(message) => SignupPage(400, Some(message))
    case Success(st) =>
      match env.validate(st.request)
      case Raised(message) => SignupPage(400, Some(message))
      case Valid =>
        (match env.triggerError
         case Some(message) => SignupPage(400, Some(message))
         case None => SignupConfirmation(Some(st.request)))
      case Invalid(errors, user) =>
        if HasOrganizationErrors(errors) then SignupIssue(OrganizationSource)
        else
          var flash :=
            if IsGoogleSignup(st.params) && ExistingUser(user, env.registeredUsers) then Some(AlreadyRegistered)
            else if NoMessages(user.errors) then Some(UserNotValid)
            else None;
          SignupPage(if NoMessages(user.errors) then 200 else 422, flash)
  }

  /** `create`, for the organisation the before-filters loaded. Whatever the
      input, the response is one of: the confirmation with creation triggered,
      the organisation issue page, or the form again with 200, 422 or 400; and
      creation is triggered exactly when the configured creator is valid and
      the trigger does not raise. Every exception (a policy violation, a raising
      `valid?`, a raising trigger) is rescued into the form with 400 and the
      exception's message. */
  function Create(p: Params, org: Organization, googlePlusConfigured: bool, env: Env): (r: Response)
    ensures r.SignupConfirmation? || r.SignupIssue? || r.SignupPage?
    ensures r.SignupIssue? ==> r.signupSource == OrganizationSource
    ensures r.SignupPage? ==> r.status in {200, 400, 422}
    ensures r.SignupConfirmation? <==>
      var built := BuildSignupRequest(p, org, googlePlusConfigured);
      built.Success? && env.validate(built.value.request) == Valid && env.triggerError.None?
    ensures r.SignupConfirmation? ==> r.triggered == Some(BuildSignupRequest(p, org, googlePlusConfigured).value.request)
    ensures BuildSignupRequest(p, org, googlePlusConfigured).Failure? ==>
      r == SignupPage(400, Some(BuildSignupRequest(p, org, googlePlusConfigured).error))
    ensures
      var built := BuildSignupRequest(p, org, googlePlusConfigured);
      var v := if built.Success? then env.validate(built.value.request) else Valid;
      && (built.Success? && v.Raised? ==> r == SignupPage(400, Some(v.message)))
      && (built.Success? && v.Valid? && env.triggerError.Some? ==> r == SignupPage(400, env.triggerError))
  {
    SignupResponse(BuildSignupRequest(p, org, googlePlusConfigured), env)
  }

  // ---------------------------------------------------------------------------
  // What the configuration steps decide

  /** The Google step attaches a token: no user + password sign-up, a present
      chosen token, and a Google configuration. */
  predicate AttemptsGoogle(p: Params, googlePlusConfigured: bool)
  {
    !IsUserPasswordSignup(p) && IsGoogleSignup(p) && googlePlusConfigured
  }

  /** No step raises. */
  predicate PolicyPermits(p: Params, org: Organization, googlePlusConfigured: bool)
  {
    && !(IsUserPasswordSignup(p) && !org.authUsernamePasswordEnabled)
    && !(AttemptsGoogle(p, googlePlusConfigured) && !org.authGoogleEnabled)
    && !(p.githubAccessToken.Str? && !org.authGithubEnabled)
  }

  /** An identity field from `params[:user]`, kept only when present. */
  function Override(x: Param): Option<string>
  {
    if Present(x) then Some(x.s) else None
  }

  /** The credentials a permitted sign-up attaches: the Google token when the
      Google step fires, then the GitHub token whenever one is given. */
  function ExpectedClaims(p: Params, googlePlusConfigured: bool): seq<Claim>
  {
    (if AttemptsGoogle(p, googlePlusConfigured) then [GoogleToken(GoogleAccessTokenFromParams(p).s)] else [])
    + (if p.githubAccessToken.Str? then [GithubToken(p.githubAccessToken.s)] else [])
  }

  /** The four steps, one after the other. */
  lemma SignupStepsUnrolled(p: Params, org: Organization, cfg: bool)
    ensures
      var f := SignupStepper(org, cfg);
      BuildSignupRequest(p, org, cfg) ==
        Then(Then(Then(Then(Success(InitialSignupState(p, org)), CheckPasswordPolicy, f),
          AttachGoogleToken, f), AttachGithubToken, f), ApplyIdentityOverrides, f)
  {
  }

  /** The configuration of `create` settles credential precedence: a user +
      password attempt is checked first, a Google token counts only without one,
      GitHub is checked on its own, and only the first violation is reported.
      Without a violation the creator carries the organisation, the invitation
      token, exactly the expected credentials, and the identity fields that are
      present; the parameters end up with the merged Google token. */
  lemma {:induction false} SignupRequestResolution(p: Params, org: Organization, cfg: bool)
    ensures IsUserPasswordSignup(p) && !org.authUsernamePasswordEnabled ==>
      BuildSignupRequest(p, org, cfg) == Failure(PasswordNotAllowed)
    ensures (!(IsUserPasswordSignup(p) && !org.authUsernamePasswordEnabled)
             && AttemptsGoogle(p, cfg) && !org.authGoogleEnabled) ==>
      BuildSignupRequest(p, org, cfg) == Failure(GoogleNotAllowed)
    ensures (!(IsUserPasswordSignup(p) && !org.authUsernamePasswordEnabled)
             && !(AttemptsGoogle(p, cfg) && !org.authGoogleEnabled)
             && p.githubAccessToken.Str? && !org.authGithubEnabled) ==>
      BuildSignupRequest(p, org, cfg) == Failure(GithubNotAllowed)
    ensures BuildSignupRequest(p, org, cfg).Success? <==> PolicyPermits(p, org, cfg)
    ensures PolicyPermits(p, org, cfg) ==>
      var u := if p.user.Some? then p.user.value else UserParams(Nil, Nil, Nil);
      BuildSignupRequest(p, org, cfg) == Success(SignupState(
        AccountRequest(OrgSignup, Some(org), p.invitationToken, ExpectedClaims(p, cfg),
                       Override(u.username), Override(u.email), Override(u.password)),
        MergeGoogleToken(p)))
  {
    SignupStepsUnrolled(p, org, cfg);
    if PolicyPermits(p, org, cfg) {
      var f := SignupStepper(org, cfg);
      var st0 := InitialSignupState(p, org);
      var merged := MergeGoogleToken(p);
      var googleClaims := if AttemptsGoogle(p, cfg) then [GoogleToken(GoogleAccessTokenFromParams(p).s)] else [];
      var githubClaims := if p.githubAccessToken.Str? then [GithubToken(p.githubAccessToken.s)] else [];
      var rq2 := st0.request.(claims := googleClaims);
      assert Then(Success(st0), CheckPasswordPolicy, f) == Success(st0);
      assert Then(Success(st0), AttachGoogleToken, f) == Success(SignupState(rq2, merged)) by {
        assert f(AttachGoogleToken, st0) == ApplySignupStep(AttachGoogleToken, st0, org, cfg);
        assert st0.params.(googleAccessToken := GoogleAccessTokenFromParams(p)) == merged;
        if AttemptsGoogle(p, cfg) {
          assert st0.request.claims + [GoogleToken(GoogleAccessTokenFromParams(p).s)] == googleClaims;
        } else {
          assert rq2 == st0.request;
        }
      }
      var rq3 := rq2.(claims := googleClaims + githubClaims);
      assert Then(Success(SignupState(rq2, merged)), AttachGithubToken, f) == Success(SignupState(rq3, merged)) by {
        if !p.githubAccessToken.Str? {
          assert googleClaims + githubClaims == googleClaims;
        }
      }
      assert googleClaims + githubClaims == ExpectedClaims(p, cfg);
    }
  }

  /** A user + password sign-up never carries a Google credential, whatever
      Google parameters come with it. */
  lemma PasswordSignupNeverAttachesGoogle(p: Params, org: Organization, cfg: bool, token: string)
    requires IsUserPasswordSignup(p)
    requires BuildSignupRequest(p, org, cfg).Success?
    ensures GoogleToken(token) !in BuildSignupRequest(p, org, cfg).value.request.claims
  {
  }

  /** GitHub does not depend on the other credentials: an allowed GitHub token
      is attached next to a permitted user + password sign-up. */
  lemma GithubAttachedBesidePasswordSignup(p: Params, org: Organization, cfg: bool)
    requires IsUserPasswordSignup(p) && org.authUsernamePasswordEnabled
    requires p.githubAccessToken.Str? && org.authGithubEnabled
    ensures
      var built := BuildSignupRequest(p, org, cfg);
      && built.Success?
      && built.value.request.claims == [GithubToken(p.githubAccessToken.s)]
      && built.value.request.username == Some(p.user.value.username.s)
      && built.value.request.email == Some(p.user.value.email.s)
      && built.value.request.password == Some(p.user.value.password.s)
  {
  }

  // ---------------------------------------------------------------------------
  // What `create` renders

  /** A user + password attempt on an organisation that forbids it is answered
      with the form, status 400 and the policy message, and nothing is created,
      whatever Google or GitHub tokens come with it. */
  lemma PasswordPolicyViolation(p: Params, org: Organization, cfg: bool, env: Env)
    requires IsUserPasswordSignup(p) && !org.authUsernamePasswordEnabled
    ensures Create(p, org, cfg, env) == SignupPage(400, Some(PasswordNotAllowed))
  {
  }

  /** A Google attempt (no user + password sign-up, a present token, Google
      configured) on an organisation that forbids Google gets a 400 with the
      Google message, even when GitHub is forbidden too. */
  lemma GooglePolicyViolation(p: Params, org: Organization, cfg: bool, env: Env)
    requires AttemptsGoogle(p, cfg) && !org.authGoogleEnabled
    ensures Create(p, org, cfg, env) == SignupPage(400, Some(GoogleNotAllowed))
  {
  }

  /** Any non-nil GitHub token, the empty string included, on an organisation
      that forbids GitHub gets a 400 with the GitHub message once the password
      and Google checks have passed. */
  lemma GithubPolicyViolation(p: Params, org: Organization, cfg: bool, env: Env)
    requires !(IsUserPasswordSignup(p) && !org.authUsernamePasswordEnabled)
    requires !(AttemptsGoogle(p, cfg) && !org.authGoogleEnabled)
    requires p.githubAccessToken.Str? && !org.authGithubEnabled
    ensures Create(p, org, cfg, env) == SignupPage(400, Some(GithubNotAllowed))
  {
  }

  /** An invalid creator: organisation errors give the issue page with source
      'Organization'; otherwise the form comes back with 422 when the user has
      field errors and 200 when it has none, flashing "already registered" for a
      Google sign-up of an existing user, else 'User not valid' only when there
      are no field errors. */
  lemma InvalidCreatorOutcome(p: Params, org: Organization, cfg: bool, env: Env)
    requires PolicyPermits(p, org, cfg)
    requires env.validate(BuildSignupRequest(p, org, cfg).value.request).Invalid?
    ensures
      var v := env.validate(BuildSignupRequest(p, org, cfg).value.request);
      var r := Create(p, org, cfg, env);
      && (HasOrganizationErrors(v.errors) ==> r == SignupIssue(OrganizationSource))
      && (!HasOrganizationErrors(v.errors) ==>
            && r.SignupPage?
            && (r.status == 422 <==> !NoMessages(v.user.errors))
            && (r.status == 200 <==> NoMessages(v.user.errors))
            && (IsGoogleSignup(p) && ExistingUser(v.user, env.registeredUsers) ==> r.flashError == Some(AlreadyRegistered))
            && (!(IsGoogleSignup(p) && ExistingUser(v.user, env.registeredUsers)) ==>
                  r.flashError == if NoMessages(v.user.errors) then Some(UserNotValid) else None))
  {
  }

  /** Example: an organisation that allows user + password, a request with
      username "a", email "a@x.com" and password "p" and nothing else, and a
      creator that accepts it: creation is triggered with a request that carries
      exactly those identity fields and no credential. */
  lemma PlainPasswordSignupIsCreated(org: Organization, cfg: bool, env: Env)
    requires org.authUsernamePasswordEnabled
    requires
      var rq := AccountRequest(OrgSignup, Some(org), Nil, [], Some("a"), Some("a@x.com"), Some("p"));
      env.validate(rq) == Valid && env.triggerError.None?
    ensures
      var p := Params(Some(UserParams(Str("a"), Str("a@x.com"), Str("p"))), Nil, Nil, Nil, Nil, Nil);
      Create(p, org, cfg, env) ==
        SignupConfirmation(Some(AccountRequest(OrgSignup, Some(org), Nil, [], Some("a"), Some("a@x.com"), Some("p"))))
  {
    var p := Params(Some(UserParams(Str("a"), Str("a@x.com"), Str("p"))), Nil, Nil, Nil, Nil, Nil);
    assert !IsBlank("a") by { assert !IsSpace("a"[0]); }
    assert !IsBlank("a@x.com") by { assert !IsSpace("a@x.com"[0]); }
    assert !IsBlank("p") by { assert !IsSpace("p"[0]); }
    SignupRequestResolution(p, org, cfg);
  }
}
