/** The authentication context (src/contexts/AuthContext.tsx): restoring a
    stored session after checking it against the backend's `/auth/me`, the
    auth-change listener, and the ordinary (non-admin) sign-in. The identity
    provider and the backend are inputs: the provider's answer and the
    outcome of the `/auth/me` request. */
module AuthContext {

  import opened Shared

  const InvalidSessionError: string := "Session invalide"
  const CheckFailedError: string := "Erreur lors de la vérification du compte"
  const AdminRefusedError: string := "Email ou mot de passe incorrect"

  /** The identity provider's user. */
  datatype User = User(id: string, email: string)

  /** A provider session; the access token may be missing. */
  datatype Session = Session(accessToken: Option<string>, user: User)

  /** The outcome of `GET /auth/me`: the request threw, answered with a
      non-2xx status, or answered with the account's `is_admin` flag (false
      when absent). */
  datatype MeResponse = MeThrew(message: string) | MeNotOk | MeOk(isAdmin: bool)

  /** The provider's answer to a password sign-in: an error, or a possibly
      missing session. */
  type SignInAnswer = Result<Option<Session>>

  /** The provider answered with a session that carries a token. */
  predicate HasToken(answer: SignInAnswer) {
    answer.Ok? && answer.value.Some? && Truthy(answer.value.value.accessToken)
  }

  /** The accounts the ordinary sign-in lets in: a session with a token, and
      a verified account that is not an admin. */
  predicate AcceptsUser(answer: SignInAnswer, me: MeResponse) {
    HasToken(answer) && me.MeOk? && !me.isAdmin
  }

  /** `session?.user ?? null`. */
  function UserOf(session: Option<Session>): (r: Option<User>)
    ensures r.Some? <==> session.Some?
    ensures r.Some? ==> r.value == session.value.user
  {
    if session.Some? then Some(session.value.user) else None
  }

  class AuthState {
    var session: Option<Session>
    var user: Option<User>
    var loading: bool

    constructor ()
      ensures session.None? && user.None? && loading
    {
      session := None;
      user := None;
      loading := true;
    }

    /** The user shown is always the session's user. */
    ghost predicate Valid()
      reads this
    {
      user == UserOf(session)
    }

    /** The start-up restore: a stored session is kept only when `/auth/me`
        accepts it; when the check fails or throws, the provider is signed out
        and both session and user are cleared. Returns whether it signed out. */
    method RestoreSession(stored: Option<Session>, me: MeResponse) returns (signedOut: bool)
      modifies this`session, this`user, this`loading
      ensures Valid() && !loading
      ensures signedOut <==> stored.Some? && !me.MeOk?
      ensures signedOut ==> session.None? && user.None?
      ensures !signedOut ==> session == stored && user == UserOf(stored)
    {
      signedOut := false;
      if stored.Some? {
        match me {
          case MeNotOk =>
            signedOut := true;
            session := None;
            user := None;
            loading := false;
            return;
          case MeThrew(_) =>
            signedOut := true;
            session := None;
            user := None;
            loading := false;
            return;
          case MeOk(_) =>
        }
      }
      session := stored;
      user := if stored.Some? then Some(stored.value.user) else None;
      loading := false;
    }

    /** The auth-change listener: every event overwrites session and user and
        ends loading. */
    method OnAuthStateChange(next: Option<Session>)
      modifies this`session, this`user, this`loading
      ensures Valid() && !loading
      ensures session == next && user == UserOf(next)
    {
      session := next;
      user := if next.Some? then Some(next.value.user) else None;
      loading := false;
    }
  }

  /** `signIn`: a provider error is rethrown; a missing token, a refused
      `/auth/me` or an admin account signs the provider out and throws; a
      request that throws propagates. Returns how the call settles and
      whether it signed out. The session itself reaches the state through the
      listener. */
  method SignIn(answer: SignInAnswer, me: MeResponse) returns (outcome: Status, signedOut: bool)
    ensures outcome.Done? <==> AcceptsUser(answer, me)
    ensures signedOut <==> answer.Ok? && (!HasToken(answer) || me.MeNotOk? || (me.MeOk? && me.isAdmin))
    ensures answer.Err? ==> outcome == Failed(answer.message)
    ensures answer.Ok? && !HasToken(answer) ==> outcome == Failed(InvalidSessionError)
    ensures HasToken(answer) && me.MeThrew? ==> outcome == Failed(me.message)
    ensures HasToken(answer) && me.MeNotOk? ==> outcome == Failed(CheckFailedError)
    ensures HasToken(answer) && me.MeOk? && me.isAdmin ==> outcome == Failed(AdminRefusedError)
  {
    signedOut := false;
    if answer.Err? {
      return Failed(answer.message), signedOut;
    }
    var token := if answer.value.Some? then answer.value.value.accessToken else None;
    if token.None? || token.value == "" {
      signedOut := true;
      return Failed(InvalidSessionError), signedOut;
    }
    match me {
      case MeThrew(message) =>
        outcome := Failed(message);
      case MeNotOk =>
        signedOut := true;
        outcome := Failed(CheckFailedError);
      case MeOk(isAdmin) =>
        if isAdmin {
          signedOut := true;
          outcome := Failed(AdminRefusedError);
        } else {
          outcome := Done;
        }
    }
  }

  /** A sign-in that settles normally never signs out, and one that is
      refused signs out unless the provider or the request itself failed. */
  lemma SignInSignsOutOnlyOnRefusal(answer: SignInAnswer, me: MeResponse)
    ensures AcceptsUser(answer, me) ==> !(answer.Ok? && (!HasToken(answer) || me.MeNotOk? || (me.MeOk? && me.isAdmin)))
    ensures !AcceptsUser(answer, me) && answer.Ok? && !me.MeThrew? ==>
              !HasToken(answer) || me.MeNotOk? || me.isAdmin
  {
  }
}
