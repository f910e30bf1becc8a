/** The authentication controller (`contexts/AuthContext.tsx`): the current user
    and the loading flag, the mount-time session probe, and the sign-in,
    sign-up, OAuth, status, sign-out, password-reset and profile operations.
    Every gateway reply is a parameter; a navigation is recorded as its target
    path. Each operation runs to completion before the next starts. */
module AuthContext {
  import opened Wrappers
  import opened Gateway

  const NoSessionFromSignIn := "No session returned from sign in"
  const NoSessionFromSignUp := "No session returned from sign up"
  const NoSessionAvailable := "No session available"
  const AuthPath := "/auth"

  /** What an operation throws: the gateway's own error, or one raised locally. */
  datatype AuthFailure = ProviderError(error: AuthError) | LocalError(message: string)

  /** The exposed `{ user, isAuthenticated, loading }`. */
  datatype AuthState = AuthState(user: Option<User>, isAuthenticated: bool, loading: bool)

  /** The object `getProfile` returns; every field may be `undefined`. */
  datatype ProfileView = ProfileView(id: Option<string>, name: Option<string>, email: Option<string>, avatarUrl: Option<string>)

  // ---------------------------------------------------------------- decisions

  /** The user the mount probe leaves: the session's user, or none; the probe's error is ignored. */
  function ProbedUser(reply: SessionResult): (u: Option<User>)
    ensures u.Some? <==> reply.session.Some?
    ensures u.Some? ==> u.value == reply.session.value.user
  {
    match reply.session
    case Some(s) => Some(s.user)
    case None => None
  }

  /** What `signIn` / `signUp` return or throw: the gateway error first, then the
      missing session, otherwise the session. */
  function CredentialOutcome(reply: AuthResponse, noSession: string): (r: Result<Session, AuthFailure>)
    ensures r.Success? <==> reply.error.None? && reply.data.session.Some?
    ensures r.Success? ==> r.value == reply.data.session.value
    ensures reply.error.Some? ==> r == Failure(ProviderError(reply.error.value))
    ensures reply.error.None? && reply.data.session.None? ==> r == Failure(LocalError(noSession))
  {
    if reply.error.Some? then Failure(ProviderError(reply.error.value))
    else if reply.data.session.None? then Failure(LocalError(noSession))
    else Success(reply.data.session.value)
  }

  /** The user after `signIn` / `signUp`: replaced by the returned user when there
      is no error, even if the call then fails for want of a session. */
  function CredentialUser(current: Option<User>, reply: AuthResponse): (u: Option<User>)
    ensures reply.error.Some? ==> u == current
    ensures reply.error.None? && reply.data.user.Some? ==> u == reply.data.user
    ensures reply.data.user.None? ==> u == current
  {
    if reply.error.None? && reply.data.user.Some? then reply.data.user else current
  }

  /** A user with no session still becomes the current user, while the call fails. */
  lemma SignInWithoutSession(current: Option<User>, reply: AuthResponse)
    requires reply.error.None? && reply.data.user.Some? && reply.data.session.None?
    ensures CredentialUser(current, reply) == reply.data.user
    ensures CredentialOutcome(reply, NoSessionFromSignIn) == Failure(LocalError(NoSessionFromSignIn))
    ensures CredentialOutcome(reply, NoSessionFromSignUp) == Failure(LocalError(NoSessionFromSignUp))
  {
  }

  /** `checkAuthStatus`'s outcome. */
  function StatusOutcome(reply: SessionResult): (r: Result<Session, AuthFailure>)
    ensures r.Success? <==> reply.error.None? && reply.session.Some?
    ensures r.Success? ==> r.value == reply.session.value
    ensures reply.error.Some? ==> r == Failure(ProviderError(reply.error.value))
    ensures reply.error.None? && reply.session.None? ==> r == Failure(LocalError(NoSessionAvailable))
  {
    if reply.error.Some? then Failure(ProviderError(reply.error.value))
    else if reply.session.None? then Failure(LocalError(NoSessionAvailable))
    else Success(reply.session.value)
  }

  /** The profile of a resolved user, or of none: `name ?? full_name ?? email`,
      `avatar_url ?? picture`, every field absent when there is no user. */
  function ProfileOf(u: Option<User>): (p: ProfileView)
    ensures u.None? ==> p == ProfileView(None, None, None, None)
    ensures u.Some? ==> p.id == Some(u.value.id) && p.email == u.value.email
    ensures u.Some? ==> p.name == DisplayName(u.value) && p.avatarUrl == AvatarUrl(u.value)
  {
    match u
    case None => ProfileView(None, None, None, None)
    case Some(x) => ProfileView(Some(x.id), DisplayName(x), x.email, AvatarUrl(x))
  }

  /** `getProfile` and `getProfileFromUser` agree on every field they share; only
      the latter fails when no name resolves. */
  lemma ProfileAgreesWithProjection(u: User)
    ensures ProfileFromUser(u).Some? ==>
      var p := ProfileFromUser(u).value;
      ProfileOf(Some(u)) == ProfileView(Some(p.id), Some(p.name), p.email, p.avatarUrl)
    ensures ProfileFromUser(u).None? ==> ProfileOf(Some(u)).name.None? && ProfileOf(Some(u)).id == Some(u.id)
  {
  }

  // ---------------------------------------------------------------- the provider

  class AuthProvider {
    var user: Option<User>
    var loading: bool
    /** Targets passed to `navigate`, oldest first. */
    var navigations: seq<string>

    /** The value the provider exposes. */
    function State(): (s: AuthState)
      reads this
      ensures s.user == user && s.loading == loading
      ensures s.isAuthenticated <==> user.Some?
    {
      AuthState(user, user.Some?, loading)
    }

    constructor()
      ensures user == None && loading && navigations == []
    {
      user := None;
      loading := true;
      navigations := [];
    }

    /** `checkAuth`, the mount effect. */
    method CheckAuth(reply: SessionResult)
      modifies this`user, this`loading
      ensures user == ProbedUser(reply) && !loading
    {
      loading := true;
      if reply.session.Some? {
        user := Some(reply.session.value.user);
      } else {
        user := None;
      }
      loading := false;
    }

    /** `signIn({ email, password })` given the gateway's reply. */
    method SignIn(reply: AuthResponse) returns (r: Result<Session, AuthFailure>)
      modifies this`user
      ensures user == CredentialUser(old(user), reply)
      ensures r == CredentialOutcome(reply, NoSessionFromSignIn)
    {
      r := Credential(reply, NoSessionFromSignIn);
    }

    /** `signUp({ email, password })` given the gateway's reply. */
    method SignUp(reply: AuthResponse) returns (r: Result<Session, AuthFailure>)
      modifies this`user
      ensures user == CredentialUser(old(user), reply)
      ensures r == CredentialOutcome(reply, NoSessionFromSignUp)
    {
      r := Credential(reply, NoSessionFromSignUp);
    }

    /** The shared body of `signIn` and `signUp`. */
    method Credential(reply: AuthResponse, noSession: string) returns (r: Result<Session, AuthFailure>)
      modifies this`user
      ensures user == CredentialUser(old(user), reply)
      ensures r == CredentialOutcome(reply, noSession)
    {
      if reply.error.Some? {
        return Failure(ProviderError(reply.error.value));
      }
      if reply.data.user.Some? {
        user := reply.data.user;
      }
      if reply.data.session.None? {
        return Failure(LocalError(noSession));
      }
      r := Success(reply.data.session.value);
    }

    /** `signInWithOAuth(provider)`: rethrows the gateway error, otherwise returns
        nothing; the browser is redirected by the gateway and the user is untouched. */
    method SignInWithOAuth(reply: OAuthResponse) returns (r: Outcome<AuthFailure>)
      ensures r.Pass? <==> reply.error.None?
      ensures r.Fail? ==> r.error == ProviderError(reply.error.value)
    {
      if reply.error.Some? {
        return Fail(ProviderError(reply.error.value));
      }
      r := Pass;
    }

    /** `checkAuthStatus()`: reads the session without touching the state. */
    method CheckAuthStatus(reply: SessionResult) returns (r: Result<Session, AuthFailure>)
      ensures r == StatusOutcome(reply)
      ensures r.Success? ==> r.value == reply.session.value
    {
      if reply.error.Some? {
        return Failure(ProviderError(reply.error.value));
      }
      if reply.session.None? {
        return Failure(LocalError(NoSessionAvailable));
      }
      r := Success(reply.session.value);
    }

    /** `signOut()`: whatever the gateway answered, the user is cleared and the
        browser sent to `/auth`. */
    method SignOut(reply: SignOutResult)
      modifies this`user, this`navigations
      ensures user == None && !State().isAuthenticated
      ensures navigations == old(navigations) + [AuthPath]
    {
      user := None;
      navigations := navigations + [AuthPath];
    }

    /** `forgotPassword({ email })`: the gateway's reply, passed back unchanged. */
    method ForgotPassword(reply: PlainResponse) returns (r: PlainResponse)
      ensures r == reply
    {
      r := reply;
    }

    /** `getProfile()`: the current user's profile, without a gateway call when a
        user is held; otherwise `fetched` is the reply of the `getCurrentUser`
        call made, whose error is rethrown. */
    method GetProfile(fetched: UserResult) returns (r: Result<ProfileView, AuthFailure>, queried: bool)
      ensures queried <==> user.None?
      ensures user.Some? ==> r == Success(ProfileOf(user))
      ensures user.None? && fetched.error.Some? ==> r == Failure(ProviderError(fetched.error.value))
      ensures user.None? && fetched.error.None? ==> r == Success(ProfileOf(fetched.user))
      ensures user.None? && fetched.error.None? && fetched.user.None? ==> r == Success(ProfileView(None, None, None, None))
    {
      var current := user;
      queried := false;
      if current.None? {
        queried := true;
        if fetched.error.Some? {
          return Failure(ProviderError(fetched.error.value)), queried;
        }
        current := fetched.user;
      }
      r := Success(ProfileOf(current));
    }
  }

  // ---------------------------------------------------------------- sessions of use

  /** One call on the exposed context, with the gateway's reply to it. */
  datatype Call =
    | SignInCall(authReply: AuthResponse)
    | SignUpCall(authReply: AuthResponse)
    | OAuthCall(oauthReply: OAuthResponse)
    | StatusCall(sessionReply: SessionResult)
    | SignOutCall(signOutReply: SignOutResult)
    | ForgotCall(plainReply: PlainResponse)
    | ProfileCall(userReply: UserResult)

  /** The user after one call. */
  function UserAfter(u: Option<User>, c: Call): Option<User> {
    match c
    case SignInCall(reply) => CredentialUser(u, reply)
    case SignUpCall(reply) => CredentialUser(u, reply)
    case SignOutCall(_) => None
    case _ => u
  }

  /** The user after a sequence of calls, starting from `u`. */
  function UserAfterAll(u: Option<User>, calls: seq<Call>): Option<User> {
    if calls == [] then u else UserAfter(UserAfterAll(u, calls[..|calls| - 1]), calls[|calls| - 1])
  }

  /** How many of the calls are sign-outs. */
  function SignOuts(calls: seq<Call>): nat {
    if calls == [] then 0 else SignOuts(calls[..|calls| - 1]) + (if calls[|calls| - 1].SignOutCall? then 1 else 0)
  }

  /** Only sign-in and sign-up can make the user present: a sequence without them
      that ends signed out stays signed out. */
  lemma {:induction false} SignedOutStaysSignedOut(calls: seq<Call>)
    requires forall i | 0 <= i < |calls| :: !calls[i].SignInCall? && !calls[i].SignUpCall?
    ensures UserAfterAll(None, calls) == None
  {
    if calls != [] {
      SignedOutStaysSignedOut(calls[..|calls| - 1]);
    }
  }

  /** A provider mounted with the probe reply `probe`, then driven by `calls`:
      the exposed state before the probe, after it, and after each call.
      Loading is true only before the probe completes; `isAuthenticated` always
      mirrors the user; the final user is the one the calls determine; and each
      sign-out, and nothing else, navigates to `/auth`. */
  method Run(probe: SessionResult, calls: seq<Call>) returns (trace: seq<AuthState>, navigations: seq<string>)
    ensures |trace| == |calls| + 2
    ensures trace[0] == AuthState(None, false, true)
    ensures forall i | 1 <= i < |trace| :: !trace[i].loading
    ensures forall i | 0 <= i < |trace| :: trace[i].isAuthenticated <==> trace[i].user.Some?
    ensures trace[1].user == ProbedUser(probe)
    ensures trace[|trace| - 1].user == UserAfterAll(ProbedUser(probe), calls)
    ensures |navigations| == SignOuts(calls)
    ensures forall i | 0 <= i < |navigations| :: navigations[i] == AuthPath
  {
    var p := new AuthProvider();
    trace := [p.State()];
    p.CheckAuth(probe);
    trace := trace + [p.State()];
    var i := 0;
    while i < |calls|
      invariant 0 <= i <= |calls|
      invariant |trace| == i + 2
      invariant trace[0] == AuthState(None, false, true)
      invariant forall k | 1 <= k < |trace| :: !trace[k].loading
      invariant forall k | 0 <= k < |trace| :: trace[k].isAuthenticated <==> trace[k].user.Some?
      invariant trace[1].user == ProbedUser(probe)
      invariant p.user == UserAfterAll(ProbedUser(probe), calls[..i]) && !p.loading
      invariant trace[|trace| - 1] == p.State()
      invariant |p.navigations| == SignOuts(calls[..i])
      invariant forall k | 0 <= k < |p.navigations| :: p.navigations[k] == AuthPath
    {
      assert calls[..i + 1][..i] == calls[..i];
      match calls[i] {
        case SignInCall(reply) =>
          var _ := p.SignIn(reply);
        case SignUpCall(reply) =>
          var _ := p.SignUp(reply);
        case OAuthCall(reply) =>
          var _ := p.SignInWithOAuth(reply);
        case StatusCall(reply) =>
          var _ := p.CheckAuthStatus(reply);
        case SignOutCall(reply) =>
          p.SignOut(reply);
        case ForgotCall(reply) =>
          var _ := p.ForgotPassword(reply);
        case ProfileCall(reply) =>
          var _, _ := p.GetProfile(reply);
      }
      trace := trace + [p.State()];
      i := i + 1;
    }
    assert calls[..|calls|] == calls;
    navigations := p.navigations;
  }
}
