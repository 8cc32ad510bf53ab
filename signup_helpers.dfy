/** The controller's private helpers that only compute a value from the
    parameters and the records: which Google token the request carries, whether
    it is a Google or a user + password sign-up, whether the user exists, and
    whether an invitation unlocks a closed sign-up page. */
module SignupHelpers {
  import opened Wrappers
  import opened RubyValues
  import opened SignupModel

  /** `google_access_token_from_params`: `[google_access_token,
      google_signup_access_token].uniq.compact.first`. The result is the first of
      the two that is not nil, even when that one is blank. */
  function GoogleAccessTokenFromParams(p: Params): (t: Param)
    ensures t == if p.googleAccessToken.Str? then p.googleAccessToken else p.googleSignupAccessToken
  {
    var candidates := [p.googleAccessToken, p.googleSignupAccessToken];
    FirstOfCompactUniq(candidates);
    assert candidates[1..] == [p.googleSignupAccessToken];
    First(Compact(Uniq(candidates)))
  }

  /** `google_signup?`: the chosen token is present. A blank but non-nil
      `google_access_token` wins the choice and so hides a real
      `google_signup_access_token`. */
  predicate IsGoogleSignup(p: Params)
    ensures IsGoogleSignup(p) <==>
      if p.googleAccessToken.Str? then !IsBlank(p.googleAccessToken.s) else Present(p.googleSignupAccessToken)
  {
    Present(GoogleAccessTokenFromParams(p))
  }

  /** `user_password_signup?`: username, email and password all present. */
  predicate IsUserPasswordSignup(p: Params)
  {
    p.user.Some? && Present(p.user.value.username) && Present(p.user.value.email) && Present(p.user.value.password)
  }

  /** `params[:google_access_token] = google_access_token`: both sources merged
      into one parameter. The merge is invisible to every later question the
      controller asks of the parameters. */
  function MergeGoogleToken(p: Params): (merged: Params)
    ensures merged.googleAccessToken == GoogleAccessTokenFromParams(p)
    ensures GoogleAccessTokenFromParams(merged) == GoogleAccessTokenFromParams(p)
    ensures IsGoogleSignup(merged) == IsGoogleSignup(p)
    ensures IsUserPasswordSignup(merged) == IsUserPasswordSignup(p)
    ensures merged.(googleAccessToken := p.googleAccessToken) == p
  {
    p.(googleAccessToken := GoogleAccessTokenFromParams(p))
  }

  /** `Carto::User.find_by_username_and_email`: the first stored user with both
      the given username and the given email. */
  function FindByUsernameAndEmail(users: seq<UserRecord>, username: Param, email: Param): (r: Option<nat>)
    ensures r.Some? ==> r.value < |users| && users[r.value] == UserRecord(username, email)
    ensures r.Some? ==> forall k | 0 <= k < r.value :: users[k] != UserRecord(username, email)
    ensures r.None? <==> forall k | 0 <= k < |users| :: users[k] != UserRecord(username, email)
  {
    if users == [] then None
    else if users[0] == UserRecord(username, email) then Some(0)
    else match FindByUsernameAndEmail(users[1..], username, email)
      case None => None
      case Some(k) => Some(k + 1)
  }

  /** `existing_user(user)`: some stored user has this user's username and email. */
  predicate ExistingUser(user: User, users: seq<UserRecord>)
  {
    FindByUsernameAndEmail(users, user.username, user.email).Some?
  }

  /** The address `valid_email_invitation_token?` checks:
      `(params[:user] && params[:user][:email]) || params[:email]`. Ruby
      truthiness: an empty but non-nil `user[:email]` is used as it is. */
  function InvitationEmail(p: Params): Param
  {
    if p.user.Some? && p.user.value.email.Str? then p.user.value.email else p.email
  }

  /** `Carto::Invitation.query_with_valid_email(email).where(organization_id: id)`. */
  function InvitationsFor(invitations: seq<Invitation>, email: string, organizationId: int): (r: seq<Invitation>)
    ensures forall i :: i in r <==> i in invitations && i.organizationId == organizationId && email in i.validEmails
  {
    if invitations == [] then []
    else
      var i := invitations[0];
      (if i.organizationId == organizationId && email in i.validEmails then [i] else [])
      + InvitationsFor(invitations[1..], email, organizationId)
  }

  /** `invitation.any? { |i| i.token(email) == token }`. */
  function AnyTokenMatches(invitations: seq<Invitation>, email: string, token: string,
                           tokenFor: (Invitation, string) -> string): (r: bool)
    ensures r <==> exists i :: i in invitations && tokenFor(i, email) == token
  {
    if invitations == [] then false
    else tokenFor(invitations[0], email) == token || AnyTokenMatches(invitations[1..], email, token, tokenFor)
  }

  /** `valid_email_invitation_token?`: false when the address or the token is
      missing (no lookup then); otherwise whether some invitation of this
      organisation, valid for this address, derives exactly the supplied token
      from it. */
  predicate ValidEmailInvitationToken(p: Params, org: Organization, env: Env)
    ensures ValidEmailInvitationToken(p, org, env) <==>
      var email := InvitationEmail(p);
      && email.Str?
      && p.invitationToken.Str?
      && exists i :: i in env.invitations && i.organizationId == org.id && email.s in i.validEmails
                     && env.invitationTokenFor(i, email.s) == p.invitationToken.s
  {
    var email := InvitationEmail(p);
    var token := p.invitationToken;
    if email.Str? && token.Str? then
      AnyTokenMatches(InvitationsFor(env.invitations, email.s, org.id), email.s, token.s, env.invitationTokenFor)
    else
      false
  }
}
