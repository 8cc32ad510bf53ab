/** The `create_http_authentication` action (account auto-provisioning from
    trusted request headers) and the `create_http_authentication_in_progress`
    poll. */
module HeaderAuthentication {
  import opened Wrappers
  import opened RubyValues
  import opened SignupModel

  /** The header that carries the persistent id, under the one key that stands
      for all the spellings Rails accepts for it. */
  const PersistentIdHeader := "persistent-id"

  /** The creator the action configures once the request is authenticated: the
      whole header set when a persistent id is given, otherwise only the email
      the authenticator derives; then the organisation, when one was loaded. */
  function HttpAuthenticationRequest(headers: Headers, email: Param, org: Option<Organization>): (rq: AccountRequest)
    ensures rq.createdVia == HttpAuthentication
    ensures rq.claims == [if PersistentIdHeader in headers then HttpHeaders(headers) else EmailOnly(email)]
    ensures |rq.claims| == 1
    ensures rq.claims[0].HttpHeaders? <==> PersistentIdHeader in headers
    ensures rq.claims[0].HttpHeaders? ==> rq.claims[0].headers == headers
    ensures rq.claims[0].EmailOnly? ==> rq.claims[0].email == email
    ensures rq.organization == org
    ensures rq.invitationToken == Nil && rq.username.None? && rq.email.None? && rq.password.None?
  {
    var identity := if PersistentIdHeader in headers then HttpHeaders(headers) else EmailOnly(email);
    var rq := AccountRequest(HttpAuthentication, None, Nil, [identity], None, None, None);
    if org.Some? then rq.(organization := org) else rq
  }

  /** `create_http_authentication`. The gates run in a fixed order: autocreation
      disabled gives 404 whatever the headers; otherwise an invalid autocreation
      setup gives 500; otherwise headers that do not authenticate give 403.
      Past the gates, creation is triggered only for a valid creator whose
      trigger does not raise, and every other ending is a 500: this path never
      answers with field-level detail. */
  function CreateHttpAuthentication(org: Option<Organization>, headers: Headers, env: Env): (r: Response)
    ensures !env.authenticator.autocreationEnabled ==> r == NotFound
    ensures env.authenticator.autocreationEnabled && !env.authenticator.autocreationValid ==> r == ServerError(None)
    ensures env.authenticator.autocreationEnabled && env.authenticator.autocreationValid && !env.authenticator.valid
            ==> r == Forbidden
    ensures r.NotFound? || r.ServerError? || r.Forbidden? || r.SignupConfirmation?
    ensures
      var auth := env.authenticator;
      var v := env.validate(HttpAuthenticationRequest(headers, auth.email, org));
      auth.autocreationEnabled && auth.autocreationValid && auth.valid ==>
        && (v.Invalid? ==> r == ServerError(None))
        && (v.Raised? ==> r == ServerError(Some(v.message)))
        && (v.Valid? && env.triggerError.Some? ==> r == ServerError(env.triggerError))
        && (!r.SignupConfirmation? ==> r.ServerError?)
    ensures r.SignupConfirmation? <==>
      var rq := HttpAuthenticationRequest(headers, env.authenticator.email, org);
      && env.authenticator.autocreationEnabled && env.authenticator.autocreationValid && env.authenticator.valid
      && env.validate(rq) == Valid && env.triggerError.None?
    ensures r.SignupConfirmation? ==> r.triggered == Some(HttpAuthenticationRequest(headers, env.authenticator.email, org))
  {
    var auth := env.authenticator;
    if !auth.autocreationEnabled then NotFound
    else if !auth.autocreationValid then ServerError(None)
    else if !auth.valid then Forbidden
    else
      var rq := HttpAuthenticationRequest(headers, auth.email, org);
      match env.validate(rq)
      case Valid =>
        (match env.triggerError
         case Some(message) => ServerError(Some(message))
         case None => SignupConfirmation(Some(rq)))
      case Invalid(_, _) => ServerError(None)
      case Raised(message) => ServerError(Some(message))
  }

  /** `create_http_authentication_in_progress`: to the login page when no
      creation is in progress for these headers, the confirmation page (and no
      new creation) while one is. It reads nothing else and changes nothing, so
      asking twice gives the same answer. */
  function CreateHttpAuthenticationInProgress(auth: Authenticator): (r: Response)
    ensures r == RedirectToLogin <==> !auth.creationInProgress
    ensures r == SignupConfirmation(None) <==> auth.creationInProgress
  {
    if !auth.creationInProgress then RedirectToLogin else SignupConfirmation(None)
  }
}
