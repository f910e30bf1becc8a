/** The identity gateway (`integrations/supabase/helper.ts`): the values the
    identity provider returns, the helper's thin wrappers around its calls, the
    redirect targets it sends, and the projection of a user into a profile.
    The provider itself is an oracle: every reply is a parameter. */
module Gateway {
  import opened Wrappers
  import Text

  /** The fields of `user.user_metadata` the application reads; any of them may be absent. */
  datatype Metadata = Metadata(
    name: Option<string>,
    fullName: Option<string>,
    avatarUrl: Option<string>,
    picture: Option<string>)

  /** The provider's principal. */
  datatype User = User(id: string, email: Option<string>, metadata: Metadata)

  /** The provider's credential bundle. */
  datatype Session = Session(accessToken: string, refreshToken: string, expiresAt: Option<int>, user: User)

  /** A provider error; only its message is read. */
  datatype AuthError = AuthError(message: string)

  /** `{ data: { user, session }, error }` of signUp, signInWithPassword and exchangeCodeForSession. */
  datatype AuthData = AuthData(user: Option<User>, session: Option<Session>)
  datatype AuthResponse = AuthResponse(data: AuthData, error: Option<AuthError>)

  /** `{ data: { provider, url }, error }` of signInWithOAuth. */
  datatype OAuthData = OAuthData(provider: string, url: Option<string>)
  datatype OAuthResponse = OAuthResponse(data: OAuthData, error: Option<AuthError>)

  /** `{ data, error }` of resetPasswordForEmail and updateUser; the data is not read. */
  datatype PlainResponse = PlainResponse(hasData: bool, error: Option<AuthError>)

  /** The provider's `getSession()` reply `{ data: { session }, error }` and the helper's `{ session, error }`. */
  datatype SessionData = SessionData(session: Option<Session>)
  datatype ProviderSessionResponse = ProviderSessionResponse(data: SessionData, error: Option<AuthError>)
  datatype SessionResult = SessionResult(session: Option<Session>, error: Option<AuthError>)

  /** The provider's `getUser()` reply `{ data: { user }, error }` and the helper's `{ user, error }`. */
  datatype UserData = UserData(user: Option<User>)
  datatype ProviderUserResponse = ProviderUserResponse(data: UserData, error: Option<AuthError>)
  datatype UserResult = UserResult(user: Option<User>, error: Option<AuthError>)

  /** The provider's `signOut()` reply and the helper's `{ error }`. */
  datatype SignOutResult = SignOutResult(error: Option<AuthError>)

  // ---------------------------------------------------------------- requests

  const CallbackPath := "/auth/callback"
  const ResetPasswordPath := "/reset-password"

  /** The arguments passed to the provider's OAuth and password-reset calls. */
  datatype OAuthRequest = OAuthRequest(provider: string, redirectTo: string)
  datatype ResetRequest = ResetRequest(email: string, redirectTo: string)

  /** `signInWithOAuth` asks the provider to send the browser back to the callback route of this origin. */
  function OAuthRequestFor(provider: string, origin: string): (r: OAuthRequest)
    ensures r.provider == provider
    ensures |r.redirectTo| == |origin| + |CallbackPath|
    ensures r.redirectTo[..|origin|] == origin && r.redirectTo[|origin|..] == CallbackPath
  {
    OAuthRequest(provider, origin + CallbackPath)
  }

  /** `resetPassword` asks for the reset link to land on the reset-password route of this origin. */
  function ResetRequestFor(email: string, origin: string): (r: ResetRequest)
    ensures r.email == email
    ensures |r.redirectTo| == |origin| + |ResetPasswordPath|
    ensures r.redirectTo[..|origin|] == origin && r.redirectTo[|origin|..] == ResetPasswordPath
  {
    ResetRequest(email, origin + ResetPasswordPath)
  }

  // ---------------------------------------------------------------- wrappers

  /** `supabaseHelper.getSession`: the provider's session and error, passed on unchanged. */
  function GetSession(reply: ProviderSessionResponse): (r: SessionResult)
    ensures r.session == reply.data.session && r.error == reply.error
  {
    SessionResult(reply.data.session, reply.error)
  }

  /** `supabaseHelper.getCurrentUser`: the provider's user and error, passed on unchanged. */
  function GetCurrentUser(reply: ProviderUserResponse): (r: UserResult)
    ensures r.user == reply.data.user && r.error == reply.error
  {
    UserResult(reply.data.user, reply.error)
  }

  // ---------------------------------------------------------------- profile

  /** `name ?? full_name ?? email`: the first of the three that is present, even if it is "". */
  function DisplayName(u: User): (r: Option<string>)
    ensures u.metadata.name.Some? ==> r == u.metadata.name
    ensures u.metadata.name.None? && u.metadata.fullName.Some? ==> r == u.metadata.fullName
    ensures u.metadata.name.None? && u.metadata.fullName.None? ==> r == u.email
  {
    u.metadata.name.OrElse(u.metadata.fullName).OrElse(u.email)
  }

  /** `avatar_url ?? picture`. */
  function AvatarUrl(u: User): (r: Option<string>)
    ensures r.Some? <==> u.metadata.avatarUrl.Some? || u.metadata.picture.Some?
    ensures u.metadata.avatarUrl.Some? ==> r == u.metadata.avatarUrl
  {
    u.metadata.avatarUrl.OrElse(u.metadata.picture)
  }

  datatype Profile = Profile(id: string, name: string, shortName: string, email: Option<string>, avatarUrl: Option<string>)

  /** `getProfileFromUser`; `None` where `name.split` throws because no name resolves. */
  function ProfileFromUser(u: User): (r: Option<Profile>)
    ensures r.Some? <==> DisplayName(u).Some?
    ensures r.Some? ==> r.value.id == u.id && r.value.email == u.email
    ensures r.Some? ==> r.value.name == DisplayName(u).value && r.value.avatarUrl == AvatarUrl(u)
    ensures r.Some? ==> r.value.shortName == Text.WordStarts(r.value.name)
    ensures r.Some? ==> |r.value.shortName| <= |r.value.name| && ' ' !in r.value.shortName
  {
    match DisplayName(u)
    case None => None
    case Some(name) =>
      Text.FirstLettersAreWordStarts(name);
      Some(Profile(u.id, name, Text.FirstLetters(name), u.email, AvatarUrl(u)))
  }
}
