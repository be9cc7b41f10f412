/** The admin login page (src/pages/AdminLogin.tsx): sign in with the
    identity provider, check the account against the backend's `/auth/me`,
    and let only admins through to the dashboard. The provider and the
    backend are inputs, as in the authentication context. */
module AdminLogin {

  import opened Shared
  import opened AuthContext

  const AdminRequiredError: string := "Accès admin requis"
  const DefaultLoginError: string := "Erreur de connexion"
  const DashboardRoute: string := "/admin/dashboard"
  /** The TypeError thrown when the provider answers without a session and
      the page reads its access token. */
  const NullSessionError: string := "Cannot read properties of null (reading 'access_token')"

  /** The accounts the admin login lets in: a session (its token is not
      checked) and a verified admin account. */
  predicate AcceptsAdmin(answer: SignInAnswer, me: MeResponse) {
    answer.Ok? && answer.value.Some? && me.MeOk? && me.isAdmin
  }

  class AdminLoginPage {
    var error: string
    var loading: bool

    constructor ()
      ensures error == "" && !loading
    {
      error := "";
      loading := false;
    }

    /** `handleSubmit`: the provider's error, a missing session, a failed or
        refused `/auth/me`, or a non-admin account each end with a message and
        no navigation; only a verified admin reaches the dashboard. A
        non-admin is also signed out. Loading ends whatever happens. Returns
        the navigation target and whether the provider was signed out. */
    method HandleSubmit(answer: SignInAnswer, me: MeResponse) returns (navigateTo: Option<string>, signedOut: bool)
      modifies this`error, this`loading
      ensures !loading
      ensures navigateTo.Some? <==> AcceptsAdmin(answer, me)
      ensures navigateTo.Some? ==> navigateTo.value == DashboardRoute && error == ""
      ensures signedOut <==> answer.Ok? && answer.value.Some? && me.MeOk? && !me.isAdmin
      ensures answer.Err? ==> error == MessageOr(answer.message, DefaultLoginError)
      ensures answer.Ok? && answer.value.None? ==> error == NullSessionError
      ensures answer.Ok? && answer.value.Some? && me.MeThrew? ==> error == MessageOr(me.message, DefaultLoginError)
      ensures answer.Ok? && answer.value.Some? && me.MeNotOk? ==> error == CheckFailedError
      ensures signedOut ==> error == AdminRequiredError
    {
      error := "";
      loading := true;
      navigateTo := None;
      signedOut := false;
      var thrown: Option<string> := None;
      if answer.Err? {
        thrown := Some(answer.message);
      } else if answer.value.None? {
        thrown := Some(NullSessionError);
      } else {
        match me {
          case MeThrew(message) =>
            thrown := Some(message);
          case MeNotOk =>
            thrown := Some(CheckFailedError);
          case MeOk(isAdmin) =>
            if !isAdmin {
              signedOut := true;
              thrown := Some(AdminRequiredError);
            } else {
              navigateTo := Some(DashboardRoute);
            }
        }
      }
      if thrown.Some? {
        error := MessageOr(thrown.value, DefaultLoginError);
      }
      loading := false;
    }
  }

  /** No account is let in by both logins: the ordinary sign-in refuses
      admins and the admin login refuses everyone else. */
  lemma LoginsDisjoint(answer: SignInAnswer, me: MeResponse)
    ensures !(AcceptsUser(answer, me) && AcceptsAdmin(answer, me))
  {
  }

  /** For a session with a token and a verified account, exactly one of the
      two logins lets it in, according to its `is_admin` flag. */
  lemma LoginsSplitByAdminFlag(answer: SignInAnswer, me: MeResponse)
    requires HasToken(answer) && me.MeOk?
    ensures AcceptsUser(answer, me) <==> !me.isAdmin
    ensures AcceptsAdmin(answer, me) <==> me.isAdmin
  {
  }

  /** The admin login does not check the token: a session whose token is
      missing still reaches the dashboard for an admin account, where the
      ordinary sign-in would refuse it. */
  lemma AdminLoginIgnoresMissingToken(user: User)
    ensures AcceptsAdmin(Ok(Some(Session(None, user))), MeOk(true))
    ensures !AcceptsUser(Ok(Some(Session(None, user))), MeOk(false))
  {
  }
}
