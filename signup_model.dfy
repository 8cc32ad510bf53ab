/** The values the sign-up controller works with: the request it receives, the
    answers of the collaborators it calls (records, validators, configuration),
    the controller's own instance fields, the account-creation request it
    assembles, and the responses it renders. */
module SignupModel {
  import opened Wrappers
  import opened RubyValues

  /** A Sequel error set: attribute name to its messages. */
  type ErrorSet = map<string, seq<string>>

  /** `Sequel::Model::Errors#empty?`: no attribute carries a message. */
  predicate NoMessages(e: ErrorSet)
  {
    forall k | k in e :: e[k] == []
  }

  /** The organisation key of an error set holds at least one message. */
  predicate HasOrganizationErrors(e: ErrorSet)
  {
    "organization" in e && e["organization"] != []
  }

  /** An organisation row: its identity and the policy flags the controller reads. */
  datatype Organization = Organization(
    id: int,
    name: string,
    authUsernamePasswordEnabled: bool,
    authGoogleEnabled: bool,
    authGithubEnabled: bool,
    signupPageEnabled: bool)

  /** `params[:user]`. */
  datatype UserParams = UserParams(username: Param, email: Param, password: Param)

  /** The request parameters the controller reads. */
  datatype Params = Params(
    user: Option<UserParams>,
    email: Param,
    invitationToken: Param,
    googleAccessToken: Param,
    googleSignupAccessToken: Param,
    githubAccessToken: Param)

  /** The request headers, keyed by the name as Rails looks it up
      (`request.headers[...]` normalises case and '-'/'_'; one key per header
      here, the normalisation itself is not modelled). */
  type Headers = map<string, string>

  /** The issue source an organisation problem is reported under. */
  const OrganizationSource := "Organization"

  /** What the request carries besides its parameters. The subdomain is the
      result of the host parsing, not modelled here. */
  datatype Request = Request(params: Params, subdomain: Param, headers: Headers)

  /** `Carto::UserCreation::CREATED_VIA_ORG_SIGNUP` or `CREATED_VIA_HTTP_AUTENTICATION`. */
  datatype Origin = OrgSignup | HttpAuthentication

  /** A credential handed to the account creator by one of its `with_*` calls. */
  datatype Claim =
    | GoogleToken(token: string)        // with_google_token
    | GithubToken(token: string)        // with_github_oauth_api
    | HttpHeaders(headers: Headers)     // with_http_headers
    | EmailOnly(email: Param)           // with_email_only

  /** The state of a `CartoDB::UserAccountCreator` once the controller has
      configured it: origin, organisation, invitation token, credentials in the
      order they were attached, and the identity fields set by `with_username`,
      `with_email` and `with_password`. */
  datatype AccountRequest = AccountRequest(
    createdVia: Origin,
    organization: Option<Organization>,
    invitationToken: Param,
    claims: seq<Claim>,
    username: Option<string>,
    email: Option<string>,
    password: Option<string>)

  /** `account_creator.user` after validation. */
  datatype User = User(username: Param, email: Param, errors: ErrorSet)

  /** A stored user, as `find_by_username_and_email` matches it. */
  datatype UserRecord = UserRecord(username: Param, email: Param)

  /** The account creator's answer to `valid?`: valid; invalid with its
      `validation_errors` and the user it built; or an exception it raised. */
  datatype Validation = Valid | Invalid(errors: ErrorSet, user: User) | Raised(message: string)

  /** A stored invitation: its organisation and the addresses
      `query_with_valid_email` accepts for it. */
  datatype Invitation = Invitation(organizationId: int, validEmails: seq<string>)

  /** The answers of `Carto::HttpHeaderAuthentication` for this request. */
  datatype Authenticator = Authenticator(
    autocreationEnabled: bool,
    autocreationValid: bool,
    valid: bool,
    email: Param,
    creationInProgress: bool)

  /** Everything the controller learns from code outside this file. */
  datatype Env = Env(
    organizations: seq<Organization>,                // the organisations table
    validateForSignup: Organization -> ErrorSet,     // Organization#validate_for_signup
    invitations: seq<Invitation>,                    // the invitations table
    invitationTokenFor: (Invitation, string) -> string, // Invitation#token(email)
    registeredUsers: seq<UserRecord>,                // the users table
    ldapConfigured: bool,                            // Ldap::Manager#configuration_present?
    googlePlusConfigured: bool,                      // GooglePlusConfig.instance is not nil
    authenticator: Authenticator,
    validate: AccountRequest -> Validation,          // UserAccountCreator#valid?
    triggerError: Option<string>)                    // what trigger_account_creation raises, if anything

  /** The controller's instance fields set by the before-filters. */
  datatype Controller = Controller(
    organization: Option<Organization>,   // @organization
    googlePlusConfigured: bool,           // @google_plus_config is not nil
    githubConfigLoaded: bool,             // @github_config was assigned; no decision reads it, because
                                          // a GitHub token is refused before use exactly when it stays unset
    signupSource: Option<string>)         // @signup_source

  const InitialController := Controller(None, false, false, None)

  /** What the controller renders or redirects to. */
  datatype Response =
    | SignupConfirmation(triggered: Option<AccountRequest>)  // 'shared/signup_confirmation', with the request handed to trigger_account_creation
    | SignupIssue(signupSource: string)                      // 'shared/signup_issue'
    | SignupPage(status: int, flashError: Option<string>)    // the signup form again
    | NotFound                                               // render_404
    | ServerError(flashError: Option<string>)                // render_500
    | Forbidden                                              // render_403
    | RedirectToLogin                                        // redirect_to login
}
