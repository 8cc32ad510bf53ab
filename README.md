# Sign-up controller decision model

This project models, in Dafny, the decision logic of CartoDB's `SignupController`
(`app/controllers/signup_controller.rb`). The controller serves three actions:

- **`create`: organisation sign-up.** It configures an account creator, settles
  precedence between a user + password attempt, a Google token and a GitHub
  token under the organisation's flags, and reports the first policy violation
  as a 400. It then sorts the creator's verdict into one of a fixed set of
  responses: the confirmation with creation triggered, the organisation issue
  page, or the form again with status 200, 422 or 400.
- **`create_http_authentication`: auto-provisioning from trusted headers.** Its
  gates run in a fixed order: 404, then 500, then 403. After them it picks a
  header claim or an email-only claim.
- **`create_http_authentication_in_progress`: the poll.**

Before any action, a chain of before-filters runs. It loads the organisation,
with a hard-coded `blp-global` override. It then applies the
mandatory-organisation gate and its invitation bypass, the quota check and the
LDAP shutdown. The first filter that renders halts the chain.

Everything the controller asks of other code is an input. This covers the
organisations, invitations and users tables, `validate_for_signup`,
`Invitation#token`, the LDAP manager, the Google configuration, the header
authenticator, `UserAccountCreator#valid?`, and whether
`trigger_account_creation` raises. These inputs are gathered in
`SignupModel.Env`. The request is its parameters, its parsed subdomain and its
headers (`SignupModel.Request`).

## Layout

- `wrappers.dfy`: `Option` and `Result`.
- `ruby_values.dfy`: `nil` against strings, `blank?` and `present?`, and
  `uniq`, `compact` and `first` on arrays.
- `steps.dfy`: the ordered run of steps in which the first failure stops the
  run. `Fold` is the specification and `RunSteps` the loop that implements it.
  Both the filter chain and the configuration statements of `create` (each of
  which may `raise`) have this shape.
- `signup_model.dfy`: the entities (organisation, parameters, account-creation
  request, validation verdict, controller fields, responses).
- `signup_helpers.dfy`: the private helpers that only compute a value.
- `signup_create.dfy`: `create`.
- `header_authentication.dfy`: the header actions.
- `signup_filters.dfy`: the before-filters.
- `signup_controller.dfy`: the filters per action, `Dispatch` (specification)
  and `HandleRequest` (the imperative path), with properties of the whole
  controller.

Some predicates have no contract and so no row below. They are
`SignupHelpers.IsUserPasswordSignup` (lines 151-153),
`SignupHelpers.ExistingUser` (139-141), `SignupHelpers.InvitationEmail` (204),
`SignupCreate.AttemptsGoogle` (40) and `SignupCreate.PolicyPermits`. The lemmas
below state their meaning.

## Behaviour of the source worth knowing

- **The poll** sends the caller to login when no creation is in progress, and
  shows the confirmation while one is (lines 130-134).
- **Identity fields count only when `present?`** (lines 52-54 and 152), so a
  field of only white space counts as absent.
- **Organisation loading is hard-coded.** Whenever an organisation named
  `blp-global` exists, it is loaded whatever the subdomain (lines 174-180).
- **A blank Google token wins the choice.** The chosen token is the first
  non-nil of the two parameters (line 144), and it must then be present
  (line 148). So a blank `google_access_token` hides a real
  `google_signup_access_token` (`SignupHelpers.IsGoogleSignup`).

## Model

| member | source | states |
|---|---|---|
| `RubyValues.FirstOfCompactUniq` | app/controllers/signup_controller.rb:144 | `[a, b].uniq.compact.first` is the first element that is not nil, for every array |
| `SignupHelpers.GoogleAccessTokenFromParams` | app/controllers/signup_controller.rb:143-145 | the chosen Google token is `google_access_token` whenever it is not nil (even blank), else `google_signup_access_token` |
| `SignupHelpers.IsGoogleSignup` | app/controllers/signup_controller.rb:147-149 | a Google sign-up iff the non-nil `google_access_token` is not blank, or, when it is nil, iff `google_signup_access_token` is present; a blank first token hides a real second one |
| `SignupHelpers.MergeGoogleToken` | app/controllers/signup_controller.rb:36-39 | writing the chosen token back into `google_access_token` changes neither the chosen token, nor `google_signup?`, nor `user_password_signup?`, and touches no other parameter |
| `SignupHelpers.FindByUsernameAndEmail` | app/controllers/signup_controller.rb:139-141 | finds the first stored user with that username and email, and finds nothing iff no stored user has both |
| `SignupHelpers.InvitationsFor` | app/controllers/signup_controller.rb:207 | exactly the invitations of this organisation that are valid for this address |
| `SignupHelpers.AnyTokenMatches` | app/controllers/signup_controller.rb:208 | true iff some invitation in the list derives the supplied token from the address |
| `SignupHelpers.ValidEmailInvitationToken` | app/controllers/signup_controller.rb:203-210 | false when the address (`user[:email]`, falling back to `email`) or the token is nil; otherwise true iff some invitation of this organisation valid for the address has `token(email) == token` |
| `SignupCreate.SignupRequestResolution` | app/controllers/signup_controller.rb:30-55 | password violation, else Google violation, else GitHub violation, is reported with its own message; configuration succeeds iff none occurs, and then the request carries the organisation, the invitation token, exactly the Google claim (when attempted) followed by the GitHub claim (when a token is given), and each present identity field |
| `SignupCreate.PasswordSignupNeverAttachesGoogle` | app/controllers/signup_controller.rb:40-43 | a user + password sign-up never carries a Google credential |
| `SignupCreate.GithubAttachedBesidePasswordSignup` | app/controllers/signup_controller.rb:45-55 | an allowed GitHub token is attached next to a permitted user + password sign-up, whose username, email and password are all applied |
| `SignupCreate.Create` | app/controllers/signup_controller.rb:29-83 | the response is the confirmation, the issue page with source 'Organization', or the form with 200, 422 or 400; creation is triggered iff configuration succeeds, the creator is valid and the trigger does not raise, and then with the configured request; a policy violation, a raising `valid?` and a raising trigger each give the form with 400 and that exception's message |
| `SignupCreate.PasswordPolicyViolation` | app/controllers/signup_controller.rb:34 | a user + password attempt on an organisation that forbids it gets the form with 400 and "Organization doesn't allow user + password authentication", whatever tokens come with it |
| `SignupCreate.GooglePolicyViolation` | app/controllers/signup_controller.rb:40-43 | a Google attempt on an organisation that forbids Google gets 400 with "Organization doesn't allow Google authentication", even when GitHub is forbidden too |
| `SignupCreate.GithubPolicyViolation` | app/controllers/signup_controller.rb:45-49 | any non-nil GitHub token (the empty string included) on an organisation that forbids GitHub gets 400 with "Organization doesn't allow GitHub authentication" once the earlier checks pass |
| `SignupCreate.InvalidCreatorOutcome` | app/controllers/signup_controller.rb:60-75 | an invalid creator with organisation errors gives the issue page; otherwise the form with 422 iff the user has field errors and 200 iff none, flashing "User already registered, go to login" for a Google sign-up of an existing user, else 'User not valid' only without field errors |
| `SignupCreate.PlainPasswordSignupIsCreated` | app/controllers/signup_controller.rb:51-59 | username "a", email "a@x.com", password "p" on an organisation allowing passwords, with an accepting creator, triggers creation of an org-signup request with exactly those fields and no credential |
| `HeaderAuthentication.HttpAuthenticationRequest` | app/controllers/signup_controller.rb:100-108 | exactly one identity claim: the full header set when a `persistent-id` header is present, otherwise `EmailOnly` with the authenticator's email; the organisation is attached iff one was loaded |
| `HeaderAuthentication.CreateHttpAuthentication` | app/controllers/signup_controller.rb:85-126 | autocreation disabled gives 404 whatever the headers; else an invalid setup gives 500; else unauthenticated headers give 403; past the gates, creation is triggered iff the creator is valid and the trigger does not raise; an invalid creator gives 500 without a message, a raising creator or trigger gives 500 with the exception's message, so no ending past the gates is anything but the confirmation or 500 |
| `HeaderAuthentication.CreateHttpAuthenticationInProgress` | app/controllers/signup_controller.rb:128-135 | redirect to login iff no creation is in progress, the confirmation without a new creation iff one is |
| `SignupFilters.FindByName` | app/controllers/signup_controller.rb:174 | the first organisation with that name; none iff no organisation has it |
| `SignupFilters.LoadOrganization` | app/controllers/signup_controller.rb:170-182 | the `blp-global` organisation whenever one exists, whatever the subdomain; else the organisation named after the subdomain; with no subdomain the field is unchanged |
| `SignupFilters.CheckOrganizationQuotas` | app/controllers/signup_controller.rb:184-191 | with an organisation loaded, any `validate_for_signup` error renders the issue page, otherwise the source becomes 'Organization'; without one, nothing happens |
| `SignupFilters.LoadMandatoryOrganization` | app/controllers/signup_controller.rb:193-197 | 404 unless an organisation is loaded and its sign-up page is open or the invitation is valid; then the quota check |
| `SignupFilters.DisableIfLdapConfigured` | app/controllers/signup_controller.rb:199-201 | 404 iff LDAP is configured, else nothing changes |
| `SignupFilters.InitializeGithubConfig` | app/controllers/signup_controller.rb:160-168 | the GitHub configuration is loaded unless the organisation forbids GitHub; nothing else changes |
| `Steps.RunSteps` | app/controllers/signup_controller.rb:17-22 | running the filters (or statements) one at a time and stopping at the first that renders (or raises) gives the left-to-right fold of the steps |
| `Steps.FailureIsFinal` | app/controllers/signup_controller.rb:78-82 | once a step has failed, no later step runs and that failure is the result |
| `SignupController.CreateFilterChain` | app/controllers/signup_controller.rb:19-22 | for `create`: 404 unless the sign-up is open, then the issue page on quota errors, then 404 under LDAP; otherwise the action sees the loaded organisation (never nil) and the Google configuration |
| `SignupController.HttpAuthenticationFilterChain` | app/controllers/signup_controller.rb:17-22 | for header auto-provisioning: the issue page when a loaded organisation has quota errors, then 404 under LDAP; otherwise the action sees the loaded organisation, if any |
| `SignupController.InProgressFilterChain` | app/controllers/signup_controller.rb:17-22 | for the poll, only the LDAP shutdown can halt the chain |
| `SignupController.HandleRequest` | app/controllers/signup_controller.rb:14-22 | serving a request filter by filter, then statement by statement, gives the response `Dispatch` specifies |
| `SignupController.CreateDispatch` | app/controllers/signup_controller.rb:193-197 | `create` end to end: 404 unless open, issue page on quota errors, otherwise (without LDAP) the action on the loaded organisation |
| `SignupController.LdapShutsDownSignup` | app/controllers/signup_controller.rb:199-201 | with LDAP configured every action ends in 404 or on the issue page, so no account is created |
| `SignupController.OnlyAcceptedRequestsAreCreated` | app/controllers/signup_controller.rb:57-59 | creation is only triggered with a request the creator accepted, without LDAP, never by the poll, and for `create` only when the sign-up is open |
| `SignupController.HttpAuthenticationDispatch` | app/controllers/signup_controller.rb:17-18 | past the quota check and the LDAP shutdown, header auto-provisioning is decided by its own gates on the loaded organisation |
| `SignupController.InProgressDispatch` | app/controllers/signup_controller.rb:128-135 | the poll never triggers creation; without LDAP its answer depends on the authenticator alone, with LDAP it is 404 |
| `SignupController.BlpGlobalOverridesSubdomain` | app/controllers/signup_controller.rb:174-180 | with a `blp-global` organisation on record, the loaded organisation and the response of every action are the same for every subdomain |

## Left out

- **The `signup` action (lines 24-27).** It renders the empty form and is not part of this model.
- **Logging and error reporting.** The `logger.info` calls, the header dump,
  `CartoDB.notify_*` and `report_exception` are output only.
- **`ssl_required` (line 12).** This controller declares it for all four
  actions (only the macro comes from `ApplicationController`). The HTTPS
  redirect it causes is not part of this model.
- **Filters inherited from `ApplicationController`.** `http_header_authentication`
  is skipped only for the two header actions (lines 14-15), so it still runs
  before `create`. It and the other inherited filters are not part of this model.
- **Form details.** CSRF tokens, button colours and the contents of the Google
  and GitHub configurations are left out. For Google, only whether
  `GooglePlusConfig.instance` is nil matters.
- **`@user` for the form.** The model does not set `@user` or do
  `@user ||= User.new` for re-rendering the form. Only the status, the flash and
  the issue source are kept.
- **Subdomain parsing (line 178).** It depends on helpers that are not part of
  this model. The parsed subdomain is an input.
- **Collaborators.** `UserAccountCreator` is an input function from the
  configured request to a verdict. Its verdict can be valid, invalid (with its
  errors and user) or raised. `HttpHeaderAuthentication`, `Invitation#token`,
  `validate_for_signup`, the LDAP manager and the creation trigger are input
  answers. What `query_with_valid_email` accepts is the invitation's
  `validEmails`.
- **Other exceptions in the action bodies.** In the model only the creator's
  `valid?` and `trigger_account_creation` can raise. Exceptions from
  `Github::Api.new` (line 48), `find_by_username_and_email` (lines 68 and 140)
  and `authenticator.email` (line 105) are not modelled. They are raised after
  `account_creator` is set, so the rescue clauses would turn them into a 400 in
  `create` and a 500 in `create_http_authentication`.
- **Authenticator exceptions before the creator exists.** An exception from the
  authenticator checks at lines 93-97 reaches the rescue while `account_creator`
  is still nil. The rescue itself then raises at line 123, so `render_500` at
  line 125 never runs and no flash is set. This is not modelled.
- **Exceptions in the before-filters.** Database errors in the filters escape
  both actions' rescue clauses. This covers `Organization.where` (lines 174 and
  179), `validate_for_signup` (line 187) and the invitation query (line 207).
  The model treats these lookups as answers that always arrive.
- **Header-name normalisation.** `request.headers['persistent-id']` (line 102)
  matches the header under any case and with `-` or `_`. The model keys headers
  by one normalised name and does not model the normalisation.
- **The organisation error lookup (line 64).** `errors['organization']` and
  `errors[:organization]` are taken to be the same entry of the error set.
- **Error counting.** `@user.errors.empty?` means that no attribute has a
  message. `check_signup_errors.length > 0` means that the error set has an
  entry.
- **Unicode white space.** `blank?` also treats Unicode white space as blank.
  The model treats only ASCII white space as blank.
- **Concurrency.** Duplicate creation under concurrent retries belongs to the
  external creation job.
